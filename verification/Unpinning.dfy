/**
 When a pin can still be closed. A view or a recall that is open now can be closed in some
 continuation if and only if its operation's commit step is not yet saved and its operation ID is not
 completed by something else. A commit that was refused, for a held lock say, pins for good.
 */
module Unpinning {
  import opened Managed
  import opened Files
  import opened SourceState
  import opened SourceInvariants
  import opened SourceSteps
  import opened System
  import opened SystemSafety
  import opened SystemTheorems
  import opened SourceTheorems
  import opened Pinning
  import E = Engine
  import opened Lone
  import A = ArchiveRecovery
  import L = Lifecycle
  import Cat = Catalog

  /** The commit step is not saved, and the operation ID is free for it. */
  predicate Undecided(s: State, ctx: OperationContext, name: StepName) {
    StepKey(ctx, name) !in s.steps && ctx.operationId !in s.completed
  }

  // ---------- what is decided stays so ----------

  lemma SettledWhenReachable(w: World)
    requires Reachable(w)
    ensures SystemSettled(w)
  {
    var ws, acts :| Run(ws, acts) && ws[|acts|] == w;
    RunSettles(ws, acts, |acts|);
  }

  /** A commit that was refused, or whose operation ID went to another action, never succeeds. */
  lemma NeverSucceeds(s: State, t: State, ctx: OperationContext, name: StepName)
    requires Ledger(s) && Ledger(t) && Evolves(s, t) && Terminal(name)
    requires !Undecided(s, ctx, name) && !Succeeded(s, StepKey(ctx, name))
    ensures !Succeeded(t, StepKey(ctx, name))
  {
    var k, op := StepKey(ctx, name), ctx.operationId;
    assert k in t.steps ==> SavedOk(k, t.steps[k]);
    assert Succeeded(t, k) ==> Indexed(t, k);
    assert op in s.completed ==> CompletedOk(s, op);
  }

  lemma OnwardLedgers(w: World, z: World)
    requires Onward(w, z) && Healthy(w) && Healthy(z) && Reachable(w)
    ensures var s, t := Memory(w), Memory(z);
            Ledger(s) && Ledger(t) && Evolves(s, t) && PinLedger(t) && Settled(t, z.issued)
  {
    OnwardEvolves(w, z);
    OnwardIsReachable(w, z);
    ReachableIsSound(w);
    ReachableIsSound(z);
    SettledWhenReachable(z);
  }

  // ---------- views ----------

  ghost predicate ViewCanClose(w: World, ctx: OperationContext, view: DataView) {
    exists z :: Onward(w, z) && Healthy(z) && !ViewOpen(Memory(z), ctx, view)
  }

  function NoTarget(data: DataKey): RecallTarget {
    RecallTarget(data, "", ArchiveKey("", ""), DataEndpoint("", Undecodable))
  }

  lemma DecidedViewStaysOpen(w: World, z: World, ctx: OperationContext, view: DataView)
    requires Reachable(w) && Healthy(w) && Onward(w, z) && Healthy(z) && HasView(Memory(w), ctx, view)
    requires var s := Memory(w);
             !Undecided(s, ctx, CommitArchiveStep) && !Succeeded(s, StepKey(ctx, CommitArchiveStep))
    ensures ViewOpen(Memory(z), ctx, view)
  {
    OnwardLedgers(w, z);
    var s, t := Memory(w), Memory(z);
    NeverSucceeds(s, t, ctx, CommitArchiveStep);
    PinsAreOpenUntilCommitted(t, z.issued, ctx, view, NoTarget(view.data));
  }

  /** The archive operation that stands where this view is pinned, under a key nobody has used. */
  function PinnedOperation(s: State, ctx: OperationContext, view: DataView, key: ArchiveKey): A.Operation {
    var base := s.(views := s.views - {view.viewId}, steps := s.steps - {StepKey(ctx, PrepareArchiveStep)});
    A.Operation(base, ctx, view.data, key)
  }

  /** What a prepared, undecided operation's view is. */
  lemma OpenViewFacts(s: State, issued: set<string>, ctx: OperationContext, view: DataView) returns (e: Entity)
    requires Entities(s) && Pins(s) && Ledger(s) && PinLedger(s) && Settled(s, issued)
    requires HasView(s, ctx, view) && Undecided(s, ctx, CommitArchiveStep)
    ensures Qualify(ctx).Ok? && ViewOpen(s, ctx, view)
    ensures s.steps[StepKey(ctx, PrepareArchiveStep)] == SavedStep(PrepareArchive(view.data), Ok(ViewReply(view)))
    ensures EntityOf(s, view.data) == Ok(e) && e.published.Some?
    ensures view == DataView(view.data, view.viewId, e.public.length, e.public.digest,
              Endpoint(SourceLayout(e.published.value)))
    ensures forall v | v in s.views && v != view.viewId :: s.views[v].view.data != view.data
  {
    var k := StepKey(ctx, PrepareArchiveStep);
    assert SavedOk(k, s.steps[k]) && ReplyIssued(s.steps[k], issued) && ViewAccounted(s, k);
    assert ViewOk(s, view.viewId);
    e := s.entities[view.data.entity.entity];
    assert EntityOk(s, view.data.entity.entity, e);
  }

  lemma PinnedStands(s: State, issued: set<string>, ctx: OperationContext, view: DataView, key: ArchiveKey)
    requires Entities(s) && Pins(s) && Ledger(s) && PinLedger(s) && Settled(s, issued)
    requires HasView(s, ctx, view) && Undecided(s, ctx, CommitArchiveStep)
    ensures var o := PinnedOperation(s, ctx, view, key); A.Given(o) && A.At(o, A.Pinned(view.viewId), s)
  {
    var e := OpenViewFacts(s, issued, ctx, view);
    PinnedMatches(s, ctx, view, key, e);
  }

  lemma PinnedMatches(s: State, ctx: OperationContext, view: DataView, key: ArchiveKey, e: Entity)
    requires Qualify(ctx).Ok? && ViewOpen(s, ctx, view) && Undecided(s, ctx, CommitArchiveStep)
    requires HasView(s, ctx, view) && s.steps[StepKey(ctx, PrepareArchiveStep)].request == PrepareArchive(view.data)
    requires EntityOf(s, view.data) == Ok(e) && e.published.Some?
    requires view == DataView(view.data, view.viewId, e.public.length, e.public.digest,
                                Endpoint(SourceLayout(e.published.value)))
    requires forall v | v in s.views && v != view.viewId :: s.views[v].view.data != view.data
    ensures var o := PinnedOperation(s, ctx, view, key); A.Given(o) && A.At(o, A.Pinned(view.viewId), s)
  {
    var o := PinnedOperation(s, ctx, view, key);
    assert EntityOf(o.base, view.data) == Ok(e);
    assert o.base.views[view.viewId := ViewOwner(ctx, view)] == s.views;
    assert A.WithPin(o, view.viewId) == s.steps;
  }

  /** A key of this archive that nothing names. */
  predicate FreeKey(c: Cat.Catalog, ctx: OperationContext, key: ArchiveKey) {
    Cat.OwnKey(c.id, key) && key !in c.linked && Cat.AttemptOf(ctx, key) !in c.attempts
  }

  lemma FreeKeyExists(c: Cat.Catalog, ctx: OperationContext) returns (key: ArchiveKey)
    ensures FreeKey(c, ctx, key)
  {
    var names := (set k | k in c.linked :: k.objectId) + (set a | a in c.attempts :: a.key.objectId);
    var n := SomeLengthIsLonger(names);
    key := ArchiveKey(c.id, Name(n + 1));
    assert key.objectId !in names;
  }

  /** The machine restarts, nothing but locks and copies is lost, and the storage is reopened. */
  ghost function Rebooted(w: World): World {
    Apply(Apply(w, LosingCrash(w, true)), Reopen)
  }

  lemma RebootIsQuiet(w: World) returns (z: World)
    requires Reachable(w) && Healthy(w)
    ensures Onward(w, z) && L.Quiet(z) && z.source == Opened(ClearStore(Memory(w)))
  {
    ReachableIsSound(w);
    LosingCrashIsPossible(w, true);
    OnwardFrom(w);
    OnwardStep(w, w, LosingCrash(w, true));
    OnwardStep(w, Apply(w, LosingCrash(w, true)), Reopen);
    z := Rebooted(w);
    OnwardIsReachable(w, z);
    ReachableIsSound(z);
  }

  /** The view's own archive, run again from there without faults, closes it. */
  lemma UndecidedViewCloses(w: World, ctx: OperationContext, view: DataView)
    requires Reachable(w) && Healthy(w) && HasView(Memory(w), ctx, view)
    requires Undecided(Memory(w), ctx, CommitArchiveStep)
    ensures ViewCanClose(w, ctx, view)
  {
    var z := RebootIsQuiet(w);
    OnwardIsReachable(w, z);
    SettledWhenReachable(z);
    var key := FreeKeyExists(z.catalog, ctx);
    var s := Memory(z);
    var o := PinnedOperation(s, ctx, view, key);
    PinnedStands(s, z.issued, ctx, view, key);
    var x := Lone(z, E.Flow(ctx, E.ArchiveJob(view.data, key), E.Ask));
    var y := PinnedRerun(o, x, view.viewId);
    LeadsIsOnward(w, x, y);
    assert view.viewId !in Memory(y.world).views;
  }

  lemma PinnedRerun(o: A.Operation, x: Lone, v: string) returns (y: Lone)
    requires L.Quiet(x.world) && A.Given(o) && A.At(o, A.Pinned(v), Memory(x.world))
    requires x.flow == E.Flow(o.ctx, E.ArchiveJob(o.data, o.key), E.Ask) && FreeKey(x.world.catalog, o.ctx, o.key)
    ensures Leads(x, y) && Healthy(y.world) && v !in Memory(y.world).views
  {
    var uuids := FreshIdsExist(x.world, 9);
    var dp, vp := A.RerunEnds(o, x, uuids, A.Pinned(v), A.Pinned(v));
    y := Rerun(x, uuids);
    RerunLeads(x, uuids);
    var viewId, receipt := A.AnchoredEnd(o, y, dp, vp);
  }

  /** A view can be closed again exactly while its commit is undecided, or if it is closed. */
  lemma ViewCanCloseIffUndecided(w: World, ctx: OperationContext, view: DataView)
    requires Reachable(w) && Healthy(w) && HasView(Memory(w), ctx, view)
    ensures var s := Memory(w);
            ViewCanClose(w, ctx, view) <==>
                  Undecided(s, ctx, CommitArchiveStep) || Succeeded(s, StepKey(ctx, CommitArchiveStep))
  {
    var s := Memory(w);
    if Undecided(s, ctx, CommitArchiveStep) {
      UndecidedViewCloses(w, ctx, view);
    } else if Succeeded(s, StepKey(ctx, CommitArchiveStep)) {
      OnwardFrom(w);
      OnwardLedgers(w, w);
      PinsAreOpenUntilCommitted(Memory(w), w.issued, ctx, view, NoTarget(view.data));
    } else {
      forall z | Onward(w, z) && Healthy(z) ensures ViewOpen(Memory(z), ctx, view) {
        DecidedViewStaysOpen(w, z, ctx, view);
      }
    }
  }

  // ---------- recalls ----------

  ghost predicate RecallCanClose(w: World, ctx: OperationContext, target: RecallTarget) {
    exists z :: Onward(w, z) && Healthy(z) && !RecallOpen(Memory(z), ctx, target)
  }

  lemma DecidedRecallStaysOpen(w: World, z: World, ctx: OperationContext, target: RecallTarget)
    requires Reachable(w) && Healthy(w) && Onward(w, z) && Healthy(z) && HasTarget(Memory(w), ctx, target)
    requires var s := Memory(w);
             !Undecided(s, ctx, CommitRecallStep) && !Succeeded(s, StepKey(ctx, CommitRecallStep))
    ensures RecallOpen(Memory(z), ctx, target)
  {
    OnwardLedgers(w, z);
    var s, t := Memory(w), Memory(z);
    NeverSucceeds(s, t, ctx, CommitRecallStep);
    PinsAreOpenUntilCommitted(t, z.issued, ctx, NoView(target.data), target);
  }

  function NoView(data: DataKey): DataView {
    DataView(data, "", 0, ContentDigest("", []), DataEndpoint("", Undecodable))
  }

  /** A prepared, undecided recall, its entity and its anchor. */
  predicate Waiting(s: State, ctx: OperationContext, target: RecallTarget, e: Entity, anchor: ArchiveReceipt) {
    && Qualify(ctx).Ok? && Undecided(s, ctx, CommitRecallStep)
    && RecallOpen(s, ctx, target) && s.recalls[target.layoutId].anchor == anchor
    && target.destination == Endpoint(SourceLayout(target.layoutId)) && target.archive == anchor.key
    && EntityOf(s, target.data) == Ok(e) && e.published.None? && anchor in e.public.anchors
  }

  lemma OpenRecallFacts(s: State, ctx: OperationContext, target: RecallTarget)
      returns (e: Entity, anchor: ArchiveReceipt)
    requires Entities(s) && Pins(s) && Ledger(s) && PinLedger(s)
    requires HasTarget(s, ctx, target) && Undecided(s, ctx, CommitRecallStep)
    ensures Waiting(s, ctx, target, e, anchor)
  {
    var k := StepKey(ctx, PrepareRecallStep);
    assert SavedOk(k, s.steps[k]) && RecallAccounted(s, k);
    assert RecallOk(s, target.layoutId);
    e := s.entities[target.data.entity.entity];
    anchor := s.recalls[target.layoutId].anchor;
    assert EntityOk(s, target.data.entity.entity, e);
  }

  /** The layout is free and holds the entity's content. */
  predicate FilledFor(d: Disk, l: string, content: TransferEvidence) {
    && SourceLayout(l) in d.dirs && d.dirs[SourceLayout(l)].holder.None?
    && d.dirs[SourceLayout(l)].data.Some? && Measure(d.dirs[SourceLayout(l)].data.value) == content
  }

  /** An undisturbed copy from one free layout to another. */
  lemma CopyOver(w: World, ctx: OperationContext, from: DataEndpoint, source: Path, l: string, uuid: string)
      returns (z: World)
    requires Onward(w, w) && w.sessions == map[] && ctx.Valid() && DecodeEndpoint(from) == Ok(source)
             && source != SourceLayout(l)
    requires source in w.disk.dirs && w.disk.dirs[source].holder.None? && w.disk.dirs[source].data.Some?
    requires SourceLayout(l) in w.disk.dirs && w.disk.dirs[SourceLayout(l)].holder.None?
             && w.disk.dirs[SourceLayout(l)].seal.Unsealed?
    ensures Onward(w, z) && z.source == w.source
    ensures FilledFor(z.disk, l, Measure(w.disk.dirs[source].data.value))
  {
    var a := CopyBegin(ctx, from, Endpoint(SourceLayout(l)), uuid, Clean);
    var s := Session(source, SourceLayout(l));
    assert BeginCopy(w.disk, ctx, from, Endpoint(SourceLayout(l)), Clean) == Ok(s);
    var b := CopyWrite(uuid, w.disk.dirs[source].data);
    OnwardStep(w, w, a);
    var x := Apply(w, a);
    OnwardStep(w, x, b);
    var y := Apply(x, b);
    OnwardStep(w, y, CopyEnd(uuid));
    z := Apply(y, CopyEnd(uuid));
  }

  /** Sealed or not, the waiting recall's layout can be brought to hold the content. */
  lemma LayoutCanBeFilled(w: World, ctx: OperationContext, target: RecallTarget, e: Entity, anchor: ArchiveReceipt)
      returns (z: World)
    requires Reachable(w) && L.Quiet(w) && Waiting(Memory(w), ctx, target, e, anchor)
    ensures Onward(w, z) && z.source == w.source && FilledFor(z.disk, target.layoutId, Content(e.public))
  {
    var s, p := Memory(w), SourceLayout(target.layoutId);
    OnwardFrom(w);
    AnchorHolds(w, s, target.data.entity.entity, anchor);
    assert Cat.Backs(w.catalog.id, w.disk, anchor.key, w.catalog.linked[anchor.key]);
    var payload := DecodeEndpoint(w.catalog.linked[anchor.key].payload).value;
    RecallLayout(w, s, e, target);
    NoLocks(w, payload);
    NoLocks(w, SourceLayout(target.layoutId));
    if w.disk.dirs[p].seal.Unsealed? {
      var uuid := FreshIdExists(w);
      z := CopyOver(w, ctx, w.catalog.linked[anchor.key].payload, payload, target.layoutId, uuid);
    } else {
      z := w;
    }
  }

  lemma RecallLayout(w: World, s: State, e: Entity, target: RecallTarget)
    requires Backed(s, w.disk, w.catalog) && target.layoutId in s.recalls && s.recalls[target.layoutId].target == target
    requires EntityOf(s, target.data) == Ok(e)
    ensures var p := SourceLayout(target.layoutId);
            p in w.disk.dirs && (!w.disk.dirs[p].seal.Unsealed? ==> Holds(w.disk, p, Content(e.public)))
  {
    assert RecallBacked(s, w.disk, target.layoutId);
  }

  lemma NoLocks(w: World, p: Path)
    requires Lodged(w.disk, w.sessions) && w.sessions == map[] && p in w.disk.dirs
    ensures w.disk.dirs[p].holder.None?
  {
    assert HolderOk(w.disk, w.sessions, p);
  }

  /** Then the owner's commit is admitted and meets nobody. */
  lemma FilledRecallCommits(st: Store, d: Disk, ctx: OperationContext, target: RecallTarget, e: Entity,
                            anchor: ArchiveReceipt, env: Env)
    requires !st.poisoned && Waiting(st.state, ctx, target, e, anchor)
             && FilledFor(d, target.layoutId, Content(e.public)) && env.fault.Clean?
    ensures var r := Call(st, d, ctx, CommitRecall(target, Content(e.public)), env);
            !r.store.poisoned && Succeeded(r.store.state, StepKey(ctx, CommitRecallStep))
  {
    var req := CommitRecall(target, Content(e.public));
    FirstCallIsBusyIffContended(st, d, ctx, req, env);
    CleanCallIsHealthy(st, d, ctx, req, env);
  }

  lemma UndecidedRecallCloses(w: World, ctx: OperationContext, target: RecallTarget)
    requires Reachable(w) && Healthy(w) && HasTarget(Memory(w), ctx, target)
    requires Undecided(Memory(w), ctx, CommitRecallStep)
    ensures RecallCanClose(w, ctx, target)
  {
    var x := RebootIsQuiet(w);
    OnwardIsReachable(w, x);
    var e, anchor := OpenRecallFacts(Memory(x), ctx, target);
    var y := LayoutCanBeFilled(x, ctx, target, e, anchor);
    OnwardJoins(w, x, y);
    var z := CommitWaiting(w, y, ctx, target, e, anchor);
  }

  lemma CommitWaiting(w: World, y: World, ctx: OperationContext, target: RecallTarget, e: Entity,
                      anchor: ArchiveReceipt) returns (z: World)
    requires Onward(w, y) && Healthy(y) && Waiting(Memory(y), ctx, target, e, anchor)
    requires FilledFor(y.disk, target.layoutId, Content(e.public)) && HasTarget(Memory(y), ctx, target)
    ensures Onward(w, z) && Healthy(z) && !RecallOpen(Memory(z), ctx, target)
  {
    var uuid := FreshIdExists(y);
    var a := DoCall(ctx, CommitRecall(target, Content(e.public)), Env(Clean, uuid));
    FilledRecallCommits(Handle(y), y.disk, ctx, target, e, anchor, a.env);
    OnwardStep(w, y, a);
    z := Apply(y, a);
    SuccessCloses(w, y, z, ctx, target);
  }

  lemma SuccessCloses(w: World, y: World, z: World, ctx: OperationContext, target: RecallTarget)
    requires Onward(w, y) && Healthy(y) && HasTarget(Memory(y), ctx, target)
    requires Onward(w, z) && Healthy(z) && Succeeded(Memory(z), StepKey(ctx, CommitRecallStep))
    requires Extends(Memory(y).steps, Memory(z).steps)
    ensures !RecallOpen(Memory(z), ctx, target)
  {
    OnwardIsReachable(w, z);
    OnwardFrom(z);
    OnwardLedgers(z, z);
    PinsAreOpenUntilCommitted(Memory(z), z.issued, ctx, NoView(target.data), target);
  }

  lemma RecallCanCloseIffUndecided(w: World, ctx: OperationContext, target: RecallTarget)
    requires Reachable(w) && Healthy(w) && HasTarget(Memory(w), ctx, target)
    ensures var s := Memory(w);
            RecallCanClose(w, ctx, target) <==>
                  Undecided(s, ctx, CommitRecallStep) || Succeeded(s, StepKey(ctx, CommitRecallStep))
  {
    var s := Memory(w);
    if Undecided(s, ctx, CommitRecallStep) {
      UndecidedRecallCloses(w, ctx, target);
    } else if Succeeded(s, StepKey(ctx, CommitRecallStep)) {
      OnwardFrom(w);
      OnwardLedgers(w, w);
      PinsAreOpenUntilCommitted(s, w.issued, ctx, NoView(target.data), target);
    } else {
      forall z | Onward(w, z) && Healthy(z) ensures RecallOpen(Memory(z), ctx, target) {
        DecidedRecallStaysOpen(w, z, ctx, target);
      }
    }
  }
}
