/**
 Archive crash convergence. One archive operation, undisturbed but cut short at any call by any
 fault or crash and re-run any number of times, leaves the source metadata in one of three exact
 states; and a re-run without faults always reaches the last one.
 */
module ArchiveRecovery {
  import opened Managed
  import opened Files
  import opened SourceState
  import opened SourceInvariants
  import opened SourceSteps
  import opened System
  import opened SystemSafety
  import opened SystemTheorems
  import E = Engine
  import opened Lone
  import Cat = Catalog

  /** `base` is the source metadata as the operation finds it when it is first called. */
  datatype Operation = Operation(base: State, ctx: OperationContext, data: DataKey, key: ArchiveKey)

  /** How far the metadata has got. The view ID and the receipt are the only free choices. */
  datatype Phase = Unstarted | Pinned(viewId: string) | Anchored(viewId: string, receipt: ArchiveReceipt)

  /** The view a phase is about. */
  function PinId(p: Phase): string {
    if p.Unstarted? then "" else p.viewId
  }

  predicate Given(o: Operation) {
    && Qualify(o.ctx).Ok?
    && EntityOf(o.base, o.data).Ok? && EntityOf(o.base, o.data).value.published.Some?
    && !Viewed(o.base, o.data)
    && StepKey(o.ctx, PrepareArchiveStep) !in o.base.steps
    && StepKey(o.ctx, CommitArchiveStep) !in o.base.steps
    && o.ctx.operationId !in o.base.completed
  }

  /** The entity as the operation finds it. */
  function Before(o: Operation): Entity {
    if EntityOf(o.base, o.data).Ok? then EntityOf(o.base, o.data).value else NOTHING
  }

  function Layout(o: Operation): Path {
    if Before(o).published.Some? then SourceLayout(Before(o).published.value) else Absolute("")
  }

  function ViewOf(o: Operation, viewId: string): DataView {
    DataView(o.data, viewId, Before(o).public.length, Before(o).public.digest, Endpoint(Layout(o)))
  }

  /** A receipt for this operation's key and content. */
  predicate Fits(o: Operation, r: ArchiveReceipt) {
    && r.key == o.key && r.data == o.data
    && r.length == Before(o).public.length && r.digest == Before(o).public.digest
    && r.receiptId != "" && r.durabilityProfile == LOCAL_PROFILE
  }

  /** The only metadata each phase can be. */
  function StateAt(o: Operation, p: Phase): State {
    match p
    case Unstarted => o.base
    case Pinned(v) =>
      o.base.(views := o.base.views[v := ViewOwner(o.ctx, ViewOf(o, v))], steps := WithPin(o, v))
    case Anchored(v, r) =>
      var after := Attach(Before(o), r);
      o.base.(entities := o.base.entities[o.data.entity.entity := after],
              completed := o.base.completed[o.ctx.operationId :=
                  Completed(o.ctx, o.data, Archive(o.key), after.public)],
              steps := WithPin(o, v)[StepKey(o.ctx, CommitArchiveStep) :=
                                       SavedStep(CommitArchive(ViewOf(o, v), r), Ok(StateReply(after.public)))])
  }

  function WithPin(o: Operation, v: string): map<StepKey, SavedStep> {
    o.base.steps[StepKey(o.ctx, PrepareArchiveStep) := SavedStep(PrepareArchive(o.data), Ok(ViewReply(ViewOf(o, v))))]
  }

  predicate At(o: Operation, p: Phase, s: State) {
    && (!p.Unstarted? ==> PinId(p) !in o.base.views)
    && (p.Anchored? ==> Fits(o, p.receipt))
    && s == StateAt(o, p)
  }

  // ---------- the two recorded steps ----------

  lemma AnchorCall(o: Operation, p: Phase, st: Store, d: Disk, receipt: ArchiveReceipt, env: Env)
    requires Given(o) && p.Pinned? && At(o, p, st.state) && !st.poisoned && Fits(o, receipt)
    requires Layout(o) in d.dirs && d.dirs[Layout(o)].holder.None?
    requires forall a | a in Before(o).public.anchors && a.key == receipt.key :: a == receipt
    ensures var r := Call(st, d, o.ctx, CommitArchive(ViewOf(o, PinId(p)), receipt), env);
            r == if env.fault.LockFault? then Called(st, d, Err(Io))
                 else Saved(st, d, StateAt(o, Anchored(PinId(p), receipt)), env.fault,
                            Ok(StateReply(Attach(Before(o), receipt).public)))
  {
    var view := ViewOf(o, PinId(p));
    var s := st.state;
    assert DecodeEndpoint(view.source) == Ok(Layout(o));
    assert EntityOf(s, o.data) == EntityOf(o.base, o.data);
    assert s.views - {PinId(p)} == o.base.views;
    if !env.fault.LockFault? {
      var out := CommitArchiveEffect(s, d, o.ctx, view, receipt, env);
      assert out.result == Ok(StateReply(Attach(Before(o), receipt).public));
      assert Record(out.state, KeyOf(o.ctx, CommitArchive(view, receipt)),
            SavedStep(CommitArchive(view, receipt), out.result))
          == StateAt(o, Anchored(PinId(p), receipt));
    }
  }

  // ---------- what holds between any two turns ----------

  ghost predicate SourceStand(o: Operation, source: Source, dp: Phase, vp: Phase) {
    && At(o, dp, FileOf(source).durable) && At(o, vp, FileOf(source).visible)
    && (dp == vp || (dp.Unstarted? && vp.Pinned?) || (dp.Pinned? && vp.Anchored? && PinId(vp) == PinId(dp)))
  }

  /** The key is free or names this content, and an attempt on it is this operation's, for its view. */
  predicate CatalogStand(o: Operation, c: Cat.Catalog, dp: Phase) {
    && Cat.OwnKey(c.id, o.key)
    && (o.key in c.linked ==> Fits(o, c.linked[o.key].receipt))
    && (Attempt(o) in c.attempts ==> !dp.Unstarted? && c.attempts[Attempt(o)].view == ViewOf(o, PinId(dp)))
  }

  function Attempt(o: Operation): Cat.AttemptKey {
    Cat.AttemptOf(o.ctx, o.key)
  }

  function Pin(pc: E.Pc): Option<DataView> {
    match pc
    case Look(view) => Some(view)
    case Target(view) => Some(view)
    case Resume(view, _) => Some(view)
    case Copy(view, _) => Some(view)
    case Copying(view, _, _) => Some(view)
    case Seal(view, _, _) => Some(view)
    case Attach(view, _) => Some(view)
    case _ => None
  }

  function Aim(pc: E.Pc): Option<ArchiveTarget> {
    match pc
    case Resume(_, target) => Some(target)
    case Copy(_, target) => Some(target)
    case Copying(_, target, _) => Some(target)
    case Seal(_, target, _) => Some(target)
    case _ => None
  }

  function Root(target: ArchiveTarget): Path {
    if DecodeEndpoint(target.destination).Ok? then DecodeEndpoint(target.destination).value else Absolute("")
  }

  predicate LocalsStand(o: Operation, w: World, pc: E.Pc, dp: Phase) {
    && (w.source.Closed? ==> pc.Ask? || pc.Done?)
    && (pc.Pin? ==> !dp.Anchored?)
    && (Pin(pc).Some? ==> dp.Pinned? && Pin(pc).value == ViewOf(o, PinId(dp)))
    && (Aim(pc).Some? ==> Attempt(o) in w.catalog.attempts && w.catalog.attempts[Attempt(o)].target == Aim(pc).value)
    && (pc.Target? ==> o.key !in w.catalog.linked)
    && (pc.Copy? && Root(pc.target) in w.disk.dirs ==> w.disk.dirs[Root(pc.target)].seal.Unsealed?)
    && (pc.Copying? ==> pc.session in w.sessions && w.sessions[pc.session] == Session(Layout(o), Root(pc.target)))
    && (pc.Seal? ==> pc.evidence == Cat.ViewContent(pc.view) && Root(pc.target) in w.disk.dirs
                     && w.disk.dirs[Root(pc.target)].data.Some?
                     && Measure(w.disk.dirs[Root(pc.target)].data.value) == pc.evidence)
    && (pc.Attach? ==> Fits(o, pc.receipt))
    && (pc.Done? && pc.result.Ok? ==> dp.Anchored? && pc.result.value == Attach(Before(o), dp.receipt).public)
  }

  ghost predicate Stand(o: Operation, x: Lone, dp: Phase, vp: Phase) {
    && Given(o)
    && x.flow.ctx == o.ctx && x.flow.job == E.ArchiveJob(o.data, o.key)
    && SystemInv(x.world) && E.FlowOk(x.world, x.flow) && Alone(x)
    && SourceStand(o, x.world.source, dp, vp)
    && CatalogStand(o, x.world.catalog, dp)
    && LocalsStand(o, x.world, x.flow.pc, dp)
  }

  // ---------- facts the invariant gives a step ----------

  /** The published layout is there, frozen at the view's content. */
  lemma SourceIsFrozen(o: Operation, w: World, s: State, p: Phase)
    requires Given(o) && At(o, p, s) && Entities(s) && Backed(s, w.disk, w.catalog)
    ensures Frozen(w.disk, Layout(o), TransferEvidence(Before(o).public.length, Before(o).public.digest))
    ensures forall a | a in Before(o).public.anchors :: Cat.Reports(w.catalog, a.key, a)
  {
    var id := o.data.entity.entity;
    assert EntityBacked(w.disk, w.catalog, s.entities[id]);
    if p.Anchored? {
      assert forall a | a in Before(o).public.anchors :: a in s.entities[id].public.anchors;
    }
  }

  lemma CatalogStands(o: Operation, c: Cat.Catalog, d: Disk, m: Cat.Move, p: Phase)
    requires Given(o) && CatalogStand(o, c, p) && Cat.Legal(c, d, m)
    requires m.Published? && m.file.receipt.key == o.key ==>
               !p.Unstarted? && Cat.Describes(m.file.receipt, ViewOf(o, PinId(p)))
    requires m.Attempted? && m.attempt == Attempt(o) ==> !p.Unstarted? && m.prepared.view == ViewOf(o, PinId(p))
    ensures CatalogStand(o, Cat.Moved(c, d, m).0, p)
  {
  }

  // ---------- every turn keeps it ----------

  /** A step saved under a fault leaves the file in one of the two phases around it. */
  lemma SavedStands(o: Operation, st: Store, d: Disk, dp: Phase, vp: Phase, next: Phase, fault: Fault,
                    result: Result<Reply>)
    returns (dq: Phase, vq: Phase)
    requires Given(o) && SourceStand(o, Opened(st), dp, vp)
    requires At(o, next, StateAt(o, next))
    requires (dp.Unstarted? && next.Pinned?) || (dp.Pinned? && next.Anchored? && PinId(next) == PinId(dp))
    ensures var r := Saved(st, d, StateAt(o, next), fault, result);
            && SourceStand(o, Opened(r.store), dq, vq) && (dq == dp || dq == next)
            && (r.result.Ok? ==> r.result == result && dq == next && vq == next)
            && (fault.Clean? ==> r.result == result && dq == next && vq == next && !r.store.poisoned)
  {
    match fault
    case PersistFault(true) => dq, vq := dp, next;
    case PersistFault(false) => dq, vq := dp, vp;
    case _ => dq, vq := next, next;
  }

  lemma PinStands(o: Operation, st: Store, d: Disk, env: Env, dp: Phase, vp: Phase) returns (dq: Phase, vq: Phase)
    requires Given(o) && SourceStand(o, Opened(st), dp, vp) && HandleOk(Opened(st)) && env.uuid !in o.base.views
    ensures var r := Call(st, d, o.ctx, PrepareArchive(o.data), env);
            && SourceStand(o, Opened(r.store), dq, vq) && (dq == dp || (dp.Unstarted? && dq.Pinned?)) && r.disk == d
            && (r.result.Ok? ==> !dq.Unstarted? && r.result.value == ViewReply(ViewOf(o, PinId(dq))))
            && (!st.poisoned && env.fault.Clean? ==> !r.store.poisoned && r.result.Ok?)
  {
    dq, vq := dp, vp;
    if !st.poisoned {
      if dp.Unstarted? {
        dq, vq := SavedStands(o, st, d, dp, vp, Pinned(env.uuid), env.fault, Ok(ViewReply(ViewOf(o, env.uuid))));
      }
    }
  }

  lemma AttachStands(o: Operation, st: Store, d: Disk, receipt: ArchiveReceipt, env: Env, dp: Phase, vp: Phase)
      returns (dq: Phase, vq: Phase)
    requires Given(o) && SourceStand(o, Opened(st), dp, vp) && HandleOk(Opened(st)) && dp.Pinned? && Fits(o, receipt)
    requires Layout(o) in d.dirs && d.dirs[Layout(o)].holder.None?
    requires forall a | a in Before(o).public.anchors && a.key == receipt.key :: a == receipt
    ensures var r := Call(st, d, o.ctx, CommitArchive(ViewOf(o, PinId(dp)), receipt), env);
            && SourceStand(o, Opened(r.store), dq, vq) && !dq.Unstarted? && PinId(dq) == PinId(dp) && r.disk == d
            && (r.result.Ok? ==> dq == Anchored(PinId(dp), receipt)
                                 && r.result.value == StateReply(Attach(Before(o), receipt).public))
            && (!st.poisoned && env.fault.Clean? ==> !r.store.poisoned && r.result.Ok?)
  {
    dq, vq := dp, vp;
    if !st.poisoned {
      AnchorCall(o, dp, st, d, receipt, env);
      if !env.fault.LockFault? {
        dq, vq := SavedStands(o, st, d, dp, vp, Anchored(PinId(dp), receipt), env.fault,
                              Ok(StateReply(Attach(Before(o), receipt).public)));
      }
    }
  }

  // The archive's answers. `c` and `d` are what the call finds, `w` the world it leaves.

  lemma LookStands(o: Operation, f: E.Flow, c: Cat.Catalog, d: Disk, w: World, fault: Fault, p: Phase)
    requires w.source.Opened? && Given(o) && p.Pinned? && f.job == E.ArchiveJob(o.data, o.key)
    requires Cat.CatalogInv(c, d) && CatalogStand(o, c, p)
    requires var r := Cat.Inspect(c, d, o.key, fault); w.catalog == r.catalog && w.disk == r.disk
    ensures var pc := E.AfterLook(f, ViewOf(o, PinId(p)), Cat.Inspect(c, d, o.key, fault).result);
            LocalsStand(o, w, pc, p) && (fault.Clean? ==> pc.Attach? || pc.Target?)
  {
    if o.key in c.linked {
      assert Cat.Backs(c.id, d, o.key, c.linked[o.key]);
    }
  }

  lemma TargetStands(o: Operation, c: Cat.Catalog, d: Disk, w: World, env: Env, p: Phase)
    requires w.source.Opened? && Given(o) && p.Pinned? && Cat.CatalogInv(c, d) && CatalogStand(o, c, p)
             && o.key !in c.linked
    requires var r := Cat.Prepare(c, d, o.ctx, o.key, ViewOf(o, PinId(p)), env);
             w.catalog == r.catalog && w.disk == r.disk
    ensures var view := ViewOf(o, PinId(p));
            var pc := E.AfterTarget(view, Cat.Prepare(c, d, o.ctx, o.key, view, env).result);
            LocalsStand(o, w, pc, p)
            && (env.fault.Clean? && AttemptLayout(env.uuid) !in d.dirs ==> pc.Resume?)
  {
    if Attempt(o) in c.attempts {
      assert Cat.AttemptOk(d, Attempt(o), c.attempts[Attempt(o)]);
    }
  }

  /** The attempt's own layout is free and, if sealed, holds the view's content. */
  predicate AttemptFree(o: Operation, c: Cat.Catalog, d: Disk, target: ArchiveTarget)
  {
    && Attempt(o) in c.attempts && c.attempts[Attempt(o)].target == target
    && Root(target) in d.dirs && d.dirs[Root(target)].holder.None?
  }

  lemma CommitAnswers(o: Operation, c: Cat.Catalog, d: Disk, target: ArchiveTarget, env: Env, p: Phase)
    requires Given(o) && p.Pinned? && Cat.CatalogInv(c, d) && CatalogStand(o, c, p) && AttemptFree(o, c, d, target)
    requires env.fault.Clean? && d.dirs[Root(target)].data.Some?
    requires Measure(d.dirs[Root(target)].data.value) == Cat.ViewContent(ViewOf(o, PinId(p)))
    ensures var view := ViewOf(o, PinId(p));
            Cat.Commit(c, d, o.ctx, target, view, Cat.ViewContent(view), env).result.Ok?
  {
    assert Cat.AttemptOk(d, Attempt(o), c.attempts[Attempt(o)]);
    if o.key in c.linked {
      assert Cat.Backs(c.id, d, o.key, c.linked[o.key]);
    }
  }

  /** An answered receipt passes the engine's check exactly when it is about this view. */
  lemma CheckedStands(o: Operation, f: E.Flow, w: World, receipt: ArchiveReceipt, p: Phase)
    requires w.source.Opened? && Given(o) && p.Pinned? && f.job == E.ArchiveJob(o.data, o.key)
    requires CatalogStand(o, w.catalog, p) && Extends(w.catalog.durable, w.catalog.linked)
    requires Cat.Reports(w.catalog, receipt.key, receipt)
    ensures var pc := E.Checked(f, ViewOf(o, PinId(p)), receipt);
            LocalsStand(o, w, pc, p) && (receipt.key == o.key ==> pc.Attach?)
  {
    if receipt.key == o.key {
    }
  }

  lemma ResumeAnswers(o: Operation, c: Cat.Catalog, d: Disk, target: ArchiveTarget, env: Env, p: Phase)
    requires Given(o) && p.Pinned? && Cat.CatalogInv(c, d) && CatalogStand(o, c, p) && AttemptFree(o, c, d, target)
    ensures var r := Cat.ResumeCommit(c, d, o.ctx, target, ViewOf(o, PinId(p)), env);
            && (r.result == Ok(None) ==> d.dirs[Root(target)].seal.Unsealed? && r.disk == d && r.catalog == c)
            && (env.fault.Clean? ==> r.result.Ok?)
            && (r.result.Ok? && r.result.value.Some? ==> r.result.value.value.key == o.key)
  {
    assert Cat.AttemptOk(d, Attempt(o), c.attempts[Attempt(o)]);
    CommitKey(c, d, o.ctx, target, ViewOf(o, PinId(p)), Cat.ViewContent(ViewOf(o, PinId(p))), env);
    if env.fault.Clean? && !d.dirs[Root(target)].seal.Unsealed? {
      CommitAnswers(o, c, d, target, env, p);
    }
  }

  lemma CommitKey(c: Cat.Catalog, d: Disk, ctx: OperationContext, target: ArchiveTarget, view: DataView,
                  evidence: TransferEvidence, env: Env)
    ensures var r := Cat.Commit(c, d, ctx, target, view, evidence, env).result; r.Ok? ==> r.value.key == target.key
  {
  }

  // The copy.

  /** The copy has left the published bytes at the attempt's layout. */
  predicate Carried(o: Operation, w: World, target: ArchiveTarget) {
    && Holds(w.disk, Layout(o), TransferEvidence(Before(o).public.length, Before(o).public.digest))
    && Root(target) in w.disk.dirs && w.disk.dirs[Root(target)].data == w.disk.dirs[Layout(o)].data
  }

  predicate Fed(o: Operation, x: Lone) {
    x.flow.pc.Copying? ==> Carried(o, x.world, x.flow.pc.target)
  }

  // What each archive call leaves of the catalog.

  lemma TargetLeaves(o: Operation, c: Cat.Catalog, d: Disk, env: Env, p: Phase)
    requires Given(o) && p.Pinned? && Cat.CatalogInv(c, d) && CatalogStand(o, c, p)
    ensures CatalogStand(o, Cat.Prepare(c, d, o.ctx, o.key, ViewOf(o, PinId(p)), env).catalog, p)
  {
    if o.key in c.linked { assert Cat.Backs(c.id, d, o.key, c.linked[o.key]); }
    if Attempt(o) in c.attempts { assert Cat.AttemptOk(d, Attempt(o), c.attempts[Attempt(o)]); }
    var m := Cat.PrepareMoves(c, d, o.ctx, o.key, ViewOf(o, PinId(p)), env);
    CatalogStands(o, c, d, m, p);
  }

  /** After a commit or a resume. */
  ghost predicate Left(o: Operation, c: Cat.Catalog, c': Cat.Catalog, p: Phase) {
    CatalogStand(o, c', p) && Extends(c'.durable, c'.linked) && c'.attempts == c.attempts
  }

  lemma CommitLeaves(o: Operation, c: Cat.Catalog, d: Disk, target: ArchiveTarget, evidence: TransferEvidence, env: Env,
                     p: Phase)
    requires Given(o) && p.Pinned? && Cat.CatalogInv(c, d) && CatalogStand(o, c, p) && AttemptFree(o, c, d, target)
             && env.uuid != ""
    ensures var r := Cat.Commit(c, d, o.ctx, target, ViewOf(o, PinId(p)), evidence, env);
            Left(o, c, r.catalog, p)
            && (r.result.Ok? ==>
                 Cat.Reports(r.catalog, r.result.value.key, r.result.value) && r.result.value.key == o.key)
  {
    assert Cat.AttemptOk(d, Attempt(o), c.attempts[Attempt(o)]);
    if o.key in c.linked { assert Cat.Backs(c.id, d, o.key, c.linked[o.key]); }
    var m := Cat.CommitMoves(c, d, o.ctx, target, ViewOf(o, PinId(p)), evidence, env);
    CatalogStands(o, c, d, m, p);
    Cat.MoveGrows(c, d, m);
    CommitKey(c, d, o.ctx, target, ViewOf(o, PinId(p)), evidence, env);
  }

  // The turns.

  ghost predicate Standing(o: Operation, w: World, pc: E.Pc, dp: Phase, vp: Phase) {
    SourceStand(o, w.source, dp, vp) && CatalogStand(o, w.catalog, dp) && LocalsStand(o, w, pc, dp)
  }

  /** The part of the invariant that every turn reads. */
  ghost predicate Moving(o: Operation, x: Lone, env: Env, dp: Phase, vp: Phase) {
    && Given(o) && x.flow.ctx == o.ctx && x.flow.job == E.ArchiveJob(o.data, o.key)
    && CanTake(x, env) && HandleOk(x.world.source)
    && Standing(o, x.world, x.flow.pc, dp, vp)
  }

  /** ... and the part that a turn reads that does not call the source. */
  ghost predicate Going(o: Operation, x: Lone, env: Env, dp: Phase) {
    && Given(o) && x.flow.ctx == o.ctx && x.flow.job == E.ArchiveJob(o.data, o.key) && CanTake(x, env)
    && CatalogStand(o, x.world.catalog, dp) && LocalsStand(o, x.world, x.flow.pc, dp)
  }

  predicate Kept(o: Operation, x: Lone, y: Lone, dp: Phase) {
    && y.world.source == x.world.source
    && CatalogStand(o, y.world.catalog, dp) && LocalsStand(o, y.world, y.flow.pc, dp)
  }

  predicate Leads(o: Operation, x: Lone, env: Env, y: Lone, dp: Phase) {
    Kept(o, x, y, dp) && (Healthy(x.world) && env.fault.Clean? ==> Forward(x, y))
  }

  /** Without a fault, at a healthy handle, the turn leads on. */
  predicate Forward(x: Lone, y: Lone) {
    Healthy(y.world) && Rank(y.flow.pc) < Rank(x.flow.pc) && !Failed(y.flow.pc)
  }

  function Rank(pc: E.Pc): nat {
    match pc
    case Ask => 9
    case Pin => 8
    case Look(_) => 7
    case Target(_) => 6
    case Resume(_, _) => 5
    case Copy(_, _) => 4
    case Copying(_, _, _) => 3
    case Seal(_, _, _) => 2
    case Attach(_, _) => 1
    case _ => 0
  }

  lemma AskTurn(o: Operation, x: Lone, env: Env, transferred: bool, dp: Phase, vp: Phase)
    requires Moving(o, x, env, dp, vp) && x.flow.pc == E.Ask
    ensures var y := Taken(x, env, transferred);
            Standing(o, y.world, y.flow.pc, dp, vp) && (Healthy(x.world) ==> Forward(x, y))
  {
  }

  lemma PinSettles(o: Operation, w: World, y: World, env: Env, dp: Phase, vp: Phase) returns (dq: Phase, vq: Phase)
    requires Given(o) && Standing(o, w, E.Pin, dp, vp) && HandleOk(w.source) && env.uuid !in o.base.views
    requires var r := Call(Handle(w), w.disk, o.ctx, PrepareArchive(o.data), env);
             y.source == Opened(r.store) && y.catalog == w.catalog
    ensures var pc := E.AfterPin(Call(Handle(w), w.disk, o.ctx, PrepareArchive(o.data), env).result);
            && Standing(o, y, pc, dq, vq) && (Healthy(w) && env.fault.Clean? ==> Healthy(y) && pc.Look?)
            && (dq.Anchored? ==> dp.Anchored?)
  {
    dq, vq := PinStands(o, Handle(w), w.disk, env, dp, vp);
  }

  lemma PinTurn(o: Operation, x: Lone, env: Env, transferred: bool, dp: Phase, vp: Phase) returns (dq: Phase, vq: Phase)
    requires Moving(o, x, env, dp, vp) && x.flow.pc == E.Pin && env.uuid !in o.base.views
    ensures var y := Taken(x, env, transferred);
            && Standing(o, y.world, y.flow.pc, dq, vq) && (Healthy(x.world) && env.fault.Clean? ==> Forward(x, y))
            && (dq.Anchored? ==> dp.Anchored?)
  {
    dq, vq := PinSettles(o, x.world, Taken(x, env, transferred).world, env, dp, vp);
  }

  lemma LookTurn(o: Operation, x: Lone, view: DataView, env: Env, transferred: bool, dp: Phase)
    requires Going(o, x, env, dp) && x.flow.pc == E.Look(view) && Cat.CatalogInv(x.world.catalog, x.world.disk)
    ensures Leads(o, x, env, Taken(x, env, transferred), dp)
  {
    var c, d, y := x.world.catalog, x.world.disk, Taken(x, env, transferred);
    if o.key in c.linked { assert Cat.Backs(c.id, d, o.key, c.linked[o.key]); }
    var m := Cat.LookupMoves(c, d, o.key, env.fault);
    CatalogStands(o, c, d, m, dp);
    LookStands(o, x.flow, c, d, y.world, env.fault, dp);
  }

  lemma TargetTurn(o: Operation, x: Lone, view: DataView, env: Env, transferred: bool, dp: Phase)
    requires Going(o, x, env, dp) && x.flow.pc == E.Target(view) && Cat.CatalogInv(x.world.catalog, x.world.disk)
    requires AttemptLayout(env.uuid) !in x.world.disk.dirs
    ensures Leads(o, x, env, Taken(x, env, transferred), dp)
  {
    var y := Taken(x, env, transferred);
    TargetLeaves(o, x.world.catalog, x.world.disk, env, dp);
    TargetStands(o, x.world.catalog, x.world.disk, y.world, env, dp);
  }

  lemma ResumeSettles(o: Operation, f: E.Flow, c: Cat.Catalog, d: Disk, w: World, target: ArchiveTarget, env: Env,
                      p: Phase)
    requires w.source.Opened? && Given(o) && p.Pinned? && f.job == E.ArchiveJob(o.data, o.key) && env.uuid != ""
    requires Cat.CatalogInv(c, d) && CatalogStand(o, c, p) && AttemptFree(o, c, d, target)
    requires var r := Cat.ResumeCommit(c, d, o.ctx, target, ViewOf(o, PinId(p)), env);
             w.catalog == r.catalog && w.disk == r.disk
    ensures var view := ViewOf(o, PinId(p));
            var pc := E.AfterResume(f, view, target, Cat.ResumeCommit(c, d, o.ctx, target, view, env).result);
            CatalogStand(o, w.catalog, p) && LocalsStand(o, w, pc, p) && (env.fault.Clean? ==> pc.Copy? || pc.Attach?)
  {
    var r := Cat.ResumeCommit(c, d, o.ctx, target, ViewOf(o, PinId(p)), env);
    ResumeAnswers(o, c, d, target, env, p);
    CommitLeaves(o, c, d, target, Cat.ViewContent(ViewOf(o, PinId(p))), env, p);
    assert Cat.AttemptOk(d, Attempt(o), c.attempts[Attempt(o)]);
    if r.result.Ok? && r.result.value.Some? {
      CheckedStands(o, f, w, r.result.value.value, p);
    }
  }

  lemma ResumeTurn(o: Operation, x: Lone, view: DataView, target: ArchiveTarget, env: Env, transferred: bool, dp: Phase)
    requires Going(o, x, env, dp) && x.flow.pc == E.Resume(view, target)
             && Cat.CatalogInv(x.world.catalog, x.world.disk)
    requires AttemptFree(o, x.world.catalog, x.world.disk, target)
    ensures Leads(o, x, env, Taken(x, env, transferred), dp)
  {
    var y := Taken(x, env, transferred);
    assert y.world == Apply(x.world, DoResume(o.ctx, target, view, env));
    ResumeSettles(o, x.flow, x.world.catalog, x.world.disk, y.world, target, env, dp);
  }

  lemma CopyTurn(o: Operation, x: Lone, view: DataView, target: ArchiveTarget, env: Env, transferred: bool, dp: Phase)
    requires Going(o, x, env, dp) && x.flow.pc == E.Copy(view, target)
    requires DecodeEndpoint(target.destination) == Ok(Root(target)) && Root(target).AttemptLayout?
    requires Free(x.world.disk, Layout(o)) && Free(x.world.disk, Root(target))
    ensures Leads(o, x, env, Taken(x, env, transferred), dp)
  {
    assert DecodeEndpoint(ViewOf(o, PinId(dp)).source) == Ok(Layout(o));
  }

  lemma CopyingTurn(o: Operation, x: Lone, view: DataView, target: ArchiveTarget, session: string, env: Env,
                    transferred: bool, dp: Phase)
    requires Going(o, x, env, dp) && x.flow.pc == E.Copying(view, target, session)
    ensures var y := Taken(x, env, transferred);
            Kept(o, x, y, dp)
            && (Healthy(x.world) && env.fault.Clean? && transferred && Carried(o, x.world, target) ==> Forward(x, y))
  {
  }

  lemma SealSettles(o: Operation, f: E.Flow, c: Cat.Catalog, d: Disk, w: World, target: ArchiveTarget,
                    evidence: TransferEvidence, env: Env, p: Phase)
    requires w.source.Opened? && Given(o) && p.Pinned? && f.job == E.ArchiveJob(o.data, o.key) && env.uuid != ""
    requires Cat.CatalogInv(c, d) && CatalogStand(o, c, p) && AttemptFree(o, c, d, target)
    requires evidence == Cat.ViewContent(ViewOf(o, PinId(p)))
    requires d.dirs[Root(target)].data.Some? && Measure(d.dirs[Root(target)].data.value) == evidence
    requires var r := Cat.Commit(c, d, o.ctx, target, ViewOf(o, PinId(p)), evidence, env);
             w.catalog == r.catalog && w.disk == r.disk
    ensures var view := ViewOf(o, PinId(p));
            var pc := E.AfterSeal(f, view, Cat.Commit(c, d, o.ctx, target, view, evidence, env).result);
            CatalogStand(o, w.catalog, p) && LocalsStand(o, w, pc, p) && (env.fault.Clean? ==> pc.Attach?)
  {
    CommitLeaves(o, c, d, target, evidence, env, p);
    if env.fault.Clean? { CommitAnswers(o, c, d, target, env, p); }
    var r := Cat.Commit(c, d, o.ctx, target, ViewOf(o, PinId(p)), evidence, env).result;
    if r.Ok? { CheckedStands(o, f, w, r.value, p); }
  }

  lemma SealTurn(o: Operation, x: Lone, view: DataView, target: ArchiveTarget, evidence: TransferEvidence, env: Env,
                 transferred: bool, dp: Phase)
    requires Going(o, x, env, dp) && x.flow.pc == E.Seal(view, target, evidence)
             && Cat.CatalogInv(x.world.catalog, x.world.disk)
    requires AttemptFree(o, x.world.catalog, x.world.disk, target)
    ensures Leads(o, x, env, Taken(x, env, transferred), dp)
  {
    var y := Taken(x, env, transferred);
    assert y.world == Apply(x.world, DoCommit(o.ctx, target, view, evidence, env));
    SealSettles(o, x.flow, x.world.catalog, x.world.disk, y.world, target, evidence, env, dp);
  }

  lemma AttachSettles(o: Operation, w: World, y: World, receipt: ArchiveReceipt, env: Env, dp: Phase, vp: Phase)
      returns (dq: Phase, vq: Phase)
    requires Given(o) && dp.Pinned? && Standing(o, w, E.Attach(ViewOf(o, PinId(dp)), receipt), dp, vp)
    requires w.source.Opened? && HandleOk(w.source) && Free(w.disk, Layout(o))
    requires forall a | a in Before(o).public.anchors && a.key == receipt.key :: a == receipt
    requires var r := Call(Handle(w), w.disk, o.ctx, CommitArchive(ViewOf(o, PinId(dp)), receipt), env);
             y.source == Opened(r.store) && y.catalog == w.catalog
    ensures var pc :=
            E.Replied(Call(Handle(w), w.disk, o.ctx, CommitArchive(ViewOf(o, PinId(dp)), receipt), env).result);
            Standing(o, y, pc, dq, vq) && Rank(pc) == 0
                && (Healthy(w) && env.fault.Clean? ==> Healthy(y) && !Failed(pc))
  {
    dq, vq := AttachStands(o, Handle(w), w.disk, receipt, env, dp, vp);
  }

  lemma AttachTurn(o: Operation, x: Lone, view: DataView, receipt: ArchiveReceipt, env: Env, transferred: bool,
                   dp: Phase, vp: Phase)
    returns (dq: Phase, vq: Phase)
    requires Moving(o, x, env, dp, vp) && x.flow.pc == E.Attach(view, receipt)
    requires Free(x.world.disk, Layout(o))
    requires forall a | a in Before(o).public.anchors && a.key == receipt.key :: a == receipt
    ensures var y := Taken(x, env, transferred);
            Standing(o, y.world, y.flow.pc, dq, vq) && (Healthy(x.world) && env.fault.Clean? ==> Forward(x, y))
  {
    dq, vq := AttachSettles(o, x.world, Taken(x, env, transferred).world, receipt, env, dp, vp);
  }

  // What the invariant supplies to a turn.

  lemma FreshForBase(o: Operation, w: World, dp: Phase, uuid: string)
    requires Given(o) && At(o, dp, FileOf(w.source).durable) && Named(FileOf(w.source).durable, w.issued)
             && FreshId(w, uuid)
    ensures uuid !in o.base.views
  {
    assert o.base.views.Keys <= FileOf(w.source).durable.views.Keys;
  }

  lemma FreshLayout(w: World, uuid: string)
    requires DiskNamed(w.disk, w.issued) && FreshId(w, uuid)
    ensures AttemptLayout(uuid) !in w.disk.dirs
  {
    assert AttemptLayout(uuid) in w.disk.dirs ==> PathIssued(AttemptLayout(uuid), w.issued);
  }

  lemma LayoutIsFree(o: Operation, x: Lone, dp: Phase)
    requires Given(o) && At(o, dp, FileOf(x.world.source).durable)
    requires Entities(FileOf(x.world.source).durable)
             && Backed(FileOf(x.world.source).durable, x.world.disk, x.world.catalog)
    requires Alone(x) && Copies(x.flow) == {}
    ensures Free(x.world.disk, Layout(o))
    ensures forall a | a in Before(o).public.anchors :: Cat.Reports(x.world.catalog, a.key, a)
  {
    SourceIsFrozen(o, x.world, FileOf(x.world.source).durable, dp);
    AloneIsFree(x, Layout(o));
  }

  lemma TargetIsFree(o: Operation, x: Lone, target: ArchiveTarget, dp: Phase)
    requires Given(o) && Cat.CatalogInv(x.world.catalog, x.world.disk) && CatalogStand(o, x.world.catalog, dp)
    requires Attempt(o) in x.world.catalog.attempts && x.world.catalog.attempts[Attempt(o)].target == target
    requires Alone(x) && Copies(x.flow) == {}
    ensures AttemptFree(o, x.world.catalog, x.world.disk, target) && Free(x.world.disk, Root(target))
    ensures DecodeEndpoint(target.destination) == Ok(Root(target)) && Root(target).AttemptLayout?
  {
    assert Cat.AttemptOk(x.world.disk, Attempt(o), x.world.catalog.attempts[Attempt(o)]);
    AloneIsFree(x, Root(target));
  }

  /** The same, with the facts about the rest of the system that each program point needs. */
  ghost predicate Supplied(o: Operation, x: Lone, env: Env, dp: Phase, vp: Phase) {
    && Moving(o, x, env, dp, vp)
    && Cat.CatalogInv(x.world.catalog, x.world.disk)
    && (x.flow.pc.Pin? ==> env.uuid !in o.base.views)
    && (x.flow.pc.Target? ==> AttemptLayout(env.uuid) !in x.world.disk.dirs)
    && (Aim(x.flow.pc).Some? && !x.flow.pc.Copying? ==>
          var target := Aim(x.flow.pc).value;
          && AttemptFree(o, x.world.catalog, x.world.disk, target) && Free(x.world.disk, Root(target))
          && DecodeEndpoint(target.destination) == Ok(Root(target)) && Root(target).AttemptLayout?)
    && (x.flow.pc.Copy? || x.flow.pc.Attach? ==> Free(x.world.disk, Layout(o)))
    && (x.flow.pc.Attach? ==>
         forall a | a in Before(o).public.anchors && a.key == x.flow.pc.receipt.key :: a == x.flow.pc.receipt)
  }

  predicate ReceiptReported(x: Lone) {
    x.flow.pc.Attach? ==> Cat.Reports(x.world.catalog, x.flow.pc.receipt.key, x.flow.pc.receipt)
  }

  lemma Supply(o: Operation, x: Lone, env: Env, dp: Phase, vp: Phase)
    requires Moving(o, x, env, dp, vp) && Sound(x.world) && Alone(x)
    requires Draws(x.flow.pc) ==> FreshId(x.world, env.uuid)
    requires ReceiptReported(x)
    ensures Supplied(o, x, env, dp, vp)
  {
    var w, pc := x.world, x.flow.pc;
    match pc
    case Pin => FreshForBase(o, w, dp, env.uuid);
    case Target(_) => FreshLayout(w, env.uuid);
    case Resume(_, target) => TargetIsFree(o, x, target, dp);
    case Copy(_, target) => TargetIsFree(o, x, target, dp); LayoutIsFree(o, x, dp);
    case Seal(_, target, _) => TargetIsFree(o, x, target, dp);
    case Attach(_, receipt) => LayoutIsFree(o, x, dp);
    case _ =>
  }

  lemma TakeStands(o: Operation, x: Lone, env: Env, transferred: bool, dp: Phase, vp: Phase)
      returns (dq: Phase, vq: Phase)
    requires Supplied(o, x, env, dp, vp)
    ensures var y := Taken(x, env, transferred);
            && Standing(o, y.world, y.flow.pc, dq, vq) && (dq.Anchored? ==> dp.Anchored? || x.flow.pc.Attach?)
            && (Healthy(x.world) && env.fault.Clean? && !x.flow.pc.Done? ==>
                  Fed(o, x) && (x.flow.pc.Copying? ==> transferred) ==> Forward(x, y))
  {
    dq, vq := dp, vp;
    match x.flow.pc
    case Ask => AskTurn(o, x, env, transferred, dp, vp);
    case Pin => dq, vq := PinTurn(o, x, env, transferred, dp, vp);
    case Copy(view, target) => CopyTurn(o, x, view, target, env, transferred, dp);
    case Copying(view, target, session) => CopyingTurn(o, x, view, target, session, env, transferred, dp);
    case Attach(view, receipt) => dq, vq := AttachTurn(o, x, view, receipt, env, transferred, dp, vp);
    case Done(_) => DoneTurn(x, env, transferred);
    case _ => ArchiveTurn(o, x, env, transferred, dp, vp);
  }

  /** The turns that ask the archive. */
  lemma ArchiveTurn(o: Operation, x: Lone, env: Env, transferred: bool, dp: Phase, vp: Phase)
    requires Supplied(o, x, env, dp, vp)
             && (x.flow.pc.Look? || x.flow.pc.Target? || x.flow.pc.Resume? || x.flow.pc.Seal?)
    ensures Leads(o, x, env, Taken(x, env, transferred), dp)
  {
    match x.flow.pc
    case Look(view) => LookTurn(o, x, view, env, transferred, dp);
    case Target(view) => TargetTurn(o, x, view, env, transferred, dp);
    case Resume(view, target) => ResumeTurn(o, x, view, target, env, transferred, dp);
    case Seal(view, target, evidence) => SealTurn(o, x, view, target, evidence, env, transferred, dp);
  }

  lemma StandIsMoving(o: Operation, x: Lone, env: Env, dp: Phase, vp: Phase)
    requires Stand(o, x, dp, vp) && CanTake(x, env)
    ensures Moving(o, x, env, dp, vp) && Sound(x.world) && Alone(x)
    ensures ReceiptReported(x)
  {
  }

  /** Between turns of one workflow the invariant holds, whatever fault the turn met. */
  lemma TurnStands(o: Operation, x: Lone, t: Turn, y: Lone, dp: Phase, vp: Phase) returns (dq: Phase, vq: Phase)
    requires Stand(o, x, dp, vp) && LoneNext(x, t, y)
    ensures Stand(o, y, dq, vq)
  {
    TurnKeepsSystem(x, t, y);
    assert Alone(y) by { TurnKeepsAlone(x, t, y); }
    dq, vq := dp, vp;
    if t.Take? {
      StandIsMoving(o, x, t.env, dp, vp);
      if Draws(x.flow.pc) { TakeIsFresh(x, t.env); }
      Supply(o, x, t.env, dp, vp);
      dq, vq := TakeStands(o, x, t.env, t.transferred, dp, vp);
    } else {
      dq, vq := OtherTurn(o, x, t, y, dp, vp);
    }
  }

  lemma OtherTurn(o: Operation, x: Lone, t: Turn, y: Lone, dp: Phase, vp: Phase) returns (dq: Phase, vq: Phase)
    requires Given(o) && Standing(o, x.world, x.flow.pc, dp, vp) && Alone(x) && LoneNext(x, t, y) && !t.Take?
    ensures Standing(o, y.world, y.flow.pc, dq, vq) && y.flow == x.flow.(pc := y.flow.pc)
  {
    dq, vq := dp, vp;
    match t
    case Again =>
    case Chunk(session, data) => ChunkStands(o, x, session, data, dp, vp);
    case Crash(restart) => vq := CrashStands(o, x.world, restart, dp, vp);
    case Drop =>
    case Recover =>
      dq := vp;
      ReopenStands(o, x.world, x.flow.pc, dp, vp);
  }

  /** Opening makes what is visible durable. */
  lemma ReopenStands(o: Operation, w: World, pc: E.Pc, dp: Phase, vp: Phase)
    requires Given(o) && Standing(o, w, pc, dp, vp) && Possible(w, Reopen)
    ensures Standing(o, Apply(w, Reopen), pc, vp, vp)
  {
  }

  lemma ChunkStands(o: Operation, x: Lone, session: string, data: Option<Bytes>, dp: Phase, vp: Phase)
    requires Given(o) && Standing(o, x.world, x.flow.pc, dp, vp) && Alone(x)
             && Possible(x.world, CopyWrite(session, data))
    ensures Standing(o, Apply(x.world, CopyWrite(session, data)), x.flow.pc, dp, vp)
  {
    assert session in Copies(x.flow);
  }

  lemma CrashStands(o: Operation, w: World, restart: Action, dp: Phase, vp: Phase) returns (vq: Phase)
    requires Given(o) && SourceStand(o, w.source, dp, vp) && CatalogStand(o, w.catalog, dp)
    requires restart.Restart? && Possible(w, restart)
    ensures Standing(o, Apply(w, restart), E.Done(Err(HsmError.Unknown)), dp, vq)
  {
    vq := if restart.renameKept then vp else dp;
  }

  // ---------- whole histories ----------

  /** The workflow is called for the first time. */
  ghost predicate Begun(o: Operation, x: Lone) {
    && Given(o) && x.flow == E.Flow(o.ctx, E.ArchiveJob(o.data, o.key), E.Ask)
    && SystemInv(x.world) && Healthy(x.world) && Memory(x.world) == o.base
    && Alone(x) && CatalogStand(o, x.world.catalog, Unstarted)
  }

  lemma BegunStands(o: Operation, x: Lone)
    requires Begun(o, x)
    ensures Stand(o, x, Unstarted, Unstarted) && Stands(o, x)
  {
  }

  ghost predicate Stands(o: Operation, x: Lone) {
    exists dp, vp :: Stand(o, x, dp, vp)
  }

  /** Whatever happens to the workflow, at every moment the metadata on disk is one of the three
      states of its operation. */
  lemma {:induction false} HistoryStands(o: Operation, xs: seq<Lone>, ts: seq<Turn>, i: nat)
    requires LoneRun(xs, ts) && Stands(o, xs[0]) && i < |xs|
    ensures Stands(o, xs[i])
  {
    for j := 0 to i
      invariant Stands(o, xs[j])
    {
      var dp, vp :| Stand(o, xs[j], dp, vp);
      var dq, vq := TurnStands(o, xs[j], ts[j], xs[j + 1], dp, vp);
    }
  }

  lemma CopyingIsLive(o: Operation, w: World, f: E.Flow, dp: Phase)
    requires (forall id | id in w.sessions :: SessionOk(w.disk, id, w.sessions[id]))
    requires LocalsStand(o, w, f.pc, dp) && f.pc.Copying?
    ensures SessionLive(w, CopyId(f.pc)) && (f.pc.Copying? ==> Layout(o) != Root(f.pc.target))
  {
    assert SessionOk(w.disk, f.pc.session, w.sessions[f.pc.session]);
  }

  lemma CleanCanTake(o: Operation, x: Lone, env: Env, dp: Phase, vp: Phase)
    requires Stand(o, x, dp, vp) && Healthy(x.world) && FreshId(x.world, env.uuid)
    ensures CanTake(x, env)
  {
    if x.flow.pc.Copying? { CopyingIsLive(o, x.world, x.flow, dp); }
    NothingBlocks(x, env);
  }

  lemma CleanTakeStands(o: Operation, x: Lone, uuid: string, dp: Phase, vp: Phase) returns (dq: Phase, vq: Phase)
    requires Stand(o, x, dp, vp) && Healthy(x.world) && FreshId(x.world, uuid) && !x.flow.pc.Done?
    requires Fed(o, x)
    ensures CanTake(x, Env(Clean, uuid))
    ensures var y := Taken(x, Env(Clean, uuid), true);
            Stand(o, y, dq, vq) && Forward(x, y) && (dq.Anchored? ==> dp.Anchored? || x.flow.pc.Attach?)
  {
    var env := Env(Clean, uuid);
    CleanCanTake(o, x, env, dp, vp);
    TakeKeeps(x, env, true);
    StandIsMoving(o, x, env, dp, vp);
    if Draws(x.flow.pc) { TakeIsFresh(x, env); }
    Supply(o, x, env, dp, vp);
    dq, vq := TakeStands(o, x, env, true, dp, vp);
  }

  lemma DeliveryStands(o: Operation, y: Lone, uuid: string, dp: Phase, vp: Phase)
    requires Stand(o, y, dp, vp) && y.flow.pc.Copying? && CopyId(y.flow.pc) == uuid
    ensures var z := y.(world := Delivered(y.world, uuid));
            Stand(o, z, dp, vp) && Fed(o, z) && z.world.source == y.world.source
  {
    CopyingIsLive(o, y.world, y.flow, dp);
    DeliveredIsChunk(y, uuid);
    var z := y.(world := Delivered(y.world, uuid));
    var data := y.world.disk.dirs[Layout(o)].data;
    TurnKeepsSystem(y, Chunk(uuid, data), z);
    TurnKeepsAlone(y, Chunk(uuid, data), z);
    ChunkStands(o, y, uuid, data, dp, vp);
    SourceIsFrozen(o, y.world, FileOf(y.world.source).durable, dp);
  }

  lemma CleanStepStands(o: Operation, x: Lone, y: Lone, z: Lone, uuid: string, dp: Phase, vp: Phase)
    requires Stand(o, y, dp, vp) && Forward(x, y) && (y.flow.pc.Copying? ==> CopyId(y.flow.pc) == uuid)
    requires z == if Copies(y.flow) == {} then y else y.(world := Delivered(y.world, uuid))
    ensures Stand(o, z, dp, vp) && Forward(x, z) && Fed(o, z)
  {
    if y.flow.pc.Copying? {
      DeliveryStands(o, y, uuid, dp, vp);
    }
  }

  lemma CopySession(x: Lone, uuid: string)
    requires CanTake(x, Env(Clean, uuid)) && x.flow.job.ArchiveJob?
    requires Taken(x, Env(Clean, uuid), true).flow.pc.Copying? && !x.flow.pc.Done?
    ensures CopyId(Taken(x, Env(Clean, uuid), true).flow.pc) == uuid
  {
  }

  lemma {:induction false} RerunEnds(o: Operation, x: Lone, uuids: seq<string>, dp: Phase, vp: Phase)
      returns (dq: Phase, vq: Phase)
    requires Stand(o, x, dp, vp) && Healthy(x.world) && FreshIds(x.world, uuids) && Rank(x.flow.pc) <= |uuids|
    requires !Failed(x.flow.pc)
    requires Fed(o, x)
    ensures var z := Rerun(x, uuids);
            Stand(o, z, dq, vq) && Healthy(z.world) && EndedOk(z.flow.pc)
    decreases uuids
  {
    if x.flow.pc.Done? {
      dq, vq := dp, vp;
    } else {
      RankIsPositive(o, x, dp, vp);
      var y, z := Clean1(x, uuids[0]), CleanStep(x, uuids[0]);
      dq, vq := CleanTakeStands(o, x, uuids[0], dp, vp);
      if y.flow.pc.Copying? { CopySession(x, uuids[0]); }
      CleanStepStands(o, x, y, z, uuids[0], dq, vq);
      CleanStepIssues(x, uuids);
      dq, vq := RerunEnds(o, z, uuids[1..], dq, vq);
    }
  }

  lemma RankIsPositive(o: Operation, x: Lone, dp: Phase, vp: Phase)
    requires Given(o) && x.flow.job.ArchiveJob? && E.WellFormed(x.flow) && !x.flow.pc.Done?
    ensures Rank(x.flow.pc) > 0
  {
  }

  /** Archive crash convergence. After any history of faults, crashes and re-runs, once the
      workflow is down and the storage healthy, a re-run without faults ends with the answer and
      the metadata of an uninterrupted run: one receipt of this content attached, the view closed,
      the operation completed, nothing else changed. */
  lemma ArchiveConverges(o: Operation, xs: seq<Lone>, ts: seq<Turn>, uuids: seq<string>)
      returns (viewId: string, receipt: ArchiveReceipt)
    requires LoneRun(xs, ts) && Begun(o, xs[0])
    requires var x := xs[|ts|]; x.flow.pc.Done? && Healthy(x.world) && FreshIds(x.world, uuids) && 9 <= |uuids|
    ensures var x := xs[|ts|];
            var z := Rerun(x.(flow := x.flow.(pc := E.Ask)), uuids);
            && z.flow.pc == E.Done(Ok(Attach(Before(o), receipt).public))
            && z.world.source == Opened(ClearStore(StateAt(o, Anchored(viewId, receipt))))
            && Fits(o, receipt) && Cat.Reports(z.world.catalog, o.key, receipt)
  {
    var x := xs[|ts|];
    BegunStands(o, xs[0]);
    HistoryStands(o, xs, ts, |ts|);
    var dp, vp :| Stand(o, x, dp, vp);
    var again := x.(flow := x.flow.(pc := E.Ask));
    dp, vp := TurnStands(o, x, Again, again, dp, vp);
    dp, vp := RerunEnds(o, again, uuids, dp, vp);
    viewId, receipt := AnchoredEnd(o, Rerun(again, uuids), dp, vp);
  }

  lemma AnchoredEnd(o: Operation, z: Lone, dp: Phase, vp: Phase) returns (viewId: string, receipt: ArchiveReceipt)
    requires Stand(o, z, dp, vp) && Healthy(z.world) && EndedOk(z.flow.pc)
    ensures viewId !in o.base.views && z.flow.pc == E.Done(Ok(Attach(Before(o), receipt).public))
    ensures z.world.source == Opened(ClearStore(StateAt(o, Anchored(viewId, receipt))))
    ensures Fits(o, receipt) && Cat.Reports(z.world.catalog, o.key, receipt)
  {
    viewId, receipt := PinId(dp), dp.receipt;
    var s := Memory(z.world);
    assert EntityBacked(z.world.disk, z.world.catalog, s.entities[o.data.entity.entity]);
    assert receipt in s.entities[o.data.entity.entity].public.anchors;
  }

  /** What the last state means to a client. */
  lemma AnchoredMeans(o: Operation, viewId: string, receipt: ArchiveReceipt, s: State, e: Entity)
    requires Given(o) && Entities(o.base) && Entities(s) && Fits(o, receipt)
    requires s == StateAt(o, Anchored(viewId, receipt)) && EntityOf(s, o.data) == Ok(e)
    ensures e.public.revision == Before(o).public.revision + 1 && e.public.residency.Dual?
            && e.published == Before(o).published
    ensures receipt in e.public.anchors && forall a | a in e.public.anchors && a.key == o.key :: a == receipt
    ensures forall i, j | 0 <= i < j < |e.public.anchors| :: e.public.anchors[i].key != e.public.anchors[j].key
    ensures !Viewed(s, o.data) && QueryCompleted(ClearStore(s), o.ctx, o.data, Archive(o.key)) == Ok(Some(e.public))
    ensures s.entities == o.base.entities[o.data.entity.entity := e] && s.recalls == o.base.recalls && s.gc == o.base.gc
  {
    EntityOfIsItsKey(o.base, o.data);
    EntityOfIsItsKey(s, o.data);
    assert AnchorsOk(e.public);
  }
}
