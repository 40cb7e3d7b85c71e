/**
 The exact recall crash characterisation. One recall, undisturbed but cut short and re-run any
 number of times: a re-run without faults publishes the entity if and only if the recall's private
 layout is not sealed. A seal without a persisted commit fences every later copy into the layout,
 and the engine has no other way on; only a direct commit_recall does.
 */
module RecallRecovery {
  import opened Managed
  import opened Files
  import opened SourceState
  import opened SourceInvariants
  import opened SourceSteps
  import opened System
  import opened SystemSafety
  import opened SystemTheorems
  import E = Engine
  import opened Lone
  import Cat = Catalog

  /** `base` is the source metadata as the operation finds it when it is first called. */
  datatype Operation = Operation(base: State, ctx: OperationContext, expected: EntityState, key: ArchiveKey)

  datatype Phase = Unstarted | Reserved(layoutId: string) | Recalled(layoutId: string)

  /** The layout a phase is about. */
  function LayoutId(p: Phase): string {
    if p.Unstarted? then "" else p.layoutId
  }

  /** What the engine checks before it reserves anything. */
  predicate Given(o: Operation) {
    && Qualify(o.ctx).Ok?
    && EntityOf(o.base, o.expected.data).Ok?
    && EntityOf(o.base, o.expected.data).value.public == o.expected
    && EntityOf(o.base, o.expected.data).value.published.None? && o.expected.residency.Offline?
    && E.FindAnchor(o.expected.anchors, o.key).Some?
    && E.CheckReceipt(Chosen(o), o.expected.data, o.key, o.expected.length, o.expected.digest)
    && !Recalling(o.base, o.expected.data)
    && StepKey(o.ctx, PrepareRecallStep) !in o.base.steps
    && StepKey(o.ctx, CommitRecallStep) !in o.base.steps
    && o.ctx.operationId !in o.base.completed
  }

  function Chosen(o: Operation): ArchiveReceipt
  {
    var found := E.FindAnchor(o.expected.anchors, o.key);
    if found.Some? then found.value else NO_RECEIPT
  }

  /** The entity as the operation finds it. */
  function Before(o: Operation): Entity {
    if EntityOf(o.base, o.expected.data).Ok? then EntityOf(o.base, o.expected.data).value else NOTHING
  }

  function TargetOf(o: Operation, l: string): RecallTarget {
    RecallTarget(o.expected.data, l, o.key, Endpoint(SourceLayout(l)))
  }

  /** The only metadata each phase can be. */
  function StateAt(o: Operation, p: Phase): State {
    match p
    case Unstarted => o.base
    case Reserved(l) =>
      o.base.(recalls := o.base.recalls[l := RecallOwner(o.ctx, TargetOf(o, l), Chosen(o))],
            steps := WithReservation(o, l))
    case Recalled(l) =>
      var after := Attached(Before(o), l);
      o.base.(entities := o.base.entities[o.expected.data.entity.entity := after],
              completed := o.base.completed[o.ctx.operationId :=
                  Completed(o.ctx, o.expected.data, Recall(o.key), after.public)],
              steps := WithReservation(o, l)[StepKey(o.ctx, CommitRecallStep) :=
                                               SavedStep(CommitRecall(TargetOf(o, l), Content(o.expected)),
                                                     Ok(StateReply(after.public)))])
  }

  function WithReservation(o: Operation, l: string): map<StepKey, SavedStep> {
    o.base.steps[StepKey(o.ctx, PrepareRecallStep) :=
                   SavedStep(PrepareRecall(o.expected, Chosen(o)), Ok(TargetReply(TargetOf(o, l))))]
  }

  predicate At(o: Operation, p: Phase, s: State) {
    (!p.Unstarted? ==> LayoutId(p) !in o.base.recalls) && s == StateAt(o, p)
  }

  // ---------- the two recorded steps ----------

  /** The layout is unlocked and holds the entity's content. */
  predicate Filled(o: Operation, d: Disk, l: string) {
    && SourceLayout(l) in d.dirs && d.dirs[SourceLayout(l)].holder.None?
    && d.dirs[SourceLayout(l)].data.Some? && Measure(d.dirs[SourceLayout(l)].data.value) == Content(o.expected)
  }

  lemma PublishEffect(o: Operation, l: string, s: State, d: Disk, env: Env)
    requires Given(o) && At(o, Reserved(l), s) && Filled(o, d, l)
    ensures var req := CommitRecall(TargetOf(o, l), Content(o.expected));
            var out := Effect(s, d, o.ctx, req, env);
            && (if out.result.Ok?
                then out.result == Ok(StateReply(Attached(Before(o), l).public))
                     && Record(out.state, KeyOf(o.ctx, req), SavedStep(req, out.result)) == StateAt(o, Recalled(l))
                else !Definite(out.result.error) && !env.fault.Clean?)
            && SourceLayout(l) in out.disk.dirs
            && (out.result.Err? && !SealedLayout(d, l) && SealedLayout(out.disk, l) ==> env.fault == SealFault(true))
  {
    var target := TargetOf(o, l);
    assert DecodeEndpoint(target.destination) == Ok(SourceLayout(l));
    assert EntityOf(s, o.expected.data) == EntityOf(o.base, o.expected.data);
    assert s.recalls - {l} == o.base.recalls;
  }

  lemma PublishCall(o: Operation, p: Phase, st: Store, d: Disk, env: Env)
    requires Given(o) && p.Reserved? && At(o, p, st.state) && !st.poisoned && Filled(o, d, LayoutId(p))
    ensures var r := Call(st, d, o.ctx, CommitRecall(TargetOf(o, LayoutId(p)), Content(o.expected)), env);
            || (r.store == st && r.result.Err? && !env.fault.Clean?)
            || r == Saved(st, r.disk, StateAt(o, Recalled(LayoutId(p))), env.fault,
                 Ok(StateReply(Attached(Before(o), LayoutId(p)).public)))
    ensures var r := Call(st, d, o.ctx, CommitRecall(TargetOf(o, LayoutId(p)), Content(o.expected)), env);
            r.result.Err? && SealedLayout(r.disk, LayoutId(p)) && !SealedLayout(d, LayoutId(p))
            ==> env.fault == SealFault(true) || env.fault.PersistFault?
  {
    PublishEffect(o, LayoutId(p), st.state, d, env);
  }

  // ---------- what holds between any two turns ----------

  ghost predicate SourceStand(o: Operation, source: Source, dp: Phase, vp: Phase) {
    && At(o, dp, FileOf(source).durable) && At(o, vp, FileOf(source).visible)
    && (dp == vp || (dp.Unstarted? && vp.Reserved?) || (dp.Reserved? && vp == Recalled(LayoutId(dp))))
  }

  function Target(pc: E.Pc): Option<RecallTarget> {
    match pc
    case OpenPayload(_, recall) => Some(recall)
    case Fetch(_, recall) => Some(recall)
    case Fetching(recall, _) => Some(recall)
    case Publish(recall, _) => Some(recall)
    case _ => None
  }

  function Anchor(pc: E.Pc): Option<ArchiveReceipt> {
    match pc
    case Locate(anchor) => Some(anchor)
    case Reserve(anchor) => Some(anchor)
    case OpenPayload(anchor, _) => Some(anchor)
    case _ => None
  }

  /** Where the archive keeps the anchor's payload. */
  function Payload(o: Operation, c: Cat.Catalog): DataEndpoint {
    if o.key in c.linked then c.linked[o.key].payload else DataEndpoint("", Undecodable)
  }

  function PayloadRoot(o: Operation, c: Cat.Catalog): Path {
    if DecodeEndpoint(Payload(o, c)).Ok? then DecodeEndpoint(Payload(o, c)).value else Absolute("")
  }

  predicate LocalsStand(o: Operation, w: World, pc: E.Pc, dp: Phase) {
    && (w.source.Closed? ==> pc.Ask? || pc.Done?)
    && (pc.Locate? || pc.Reserve? ==> !dp.Recalled?)
    && (Anchor(pc).Some? ==> Anchor(pc).value == Chosen(o))
    && (Target(pc).Some? ==> dp.Reserved? && Target(pc).value == TargetOf(o, LayoutId(dp)))
    && (pc.Fetch? ==> pc.source == Payload(o, w.catalog))
    && (pc.Fetching? ==>
          pc.session in w.sessions
          && w.sessions[pc.session] == Session(PayloadRoot(o, w.catalog), SourceLayout(LayoutId(dp))))
    && (pc.Publish? ==> pc.evidence == Content(o.expected) && InPlace(o, w.disk, LayoutId(dp)))
    && (pc.Done? && pc.result.Ok? ==> dp.Recalled? && pc.result.value == Attached(Before(o), LayoutId(dp)).public)
  }

  predicate InPlace(o: Operation, d: Disk, l: string) {
    && SourceLayout(l) in d.dirs && d.dirs[SourceLayout(l)].seal.Unsealed?
    && d.dirs[SourceLayout(l)].data.Some? && Measure(d.dirs[SourceLayout(l)].data.value) == Content(o.expected)
  }

  ghost predicate Standing(o: Operation, w: World, pc: E.Pc, dp: Phase, vp: Phase) {
    SourceStand(o, w.source, dp, vp) && LocalsStand(o, w, pc, dp)
  }

  ghost predicate Stand(o: Operation, x: Lone, dp: Phase, vp: Phase) {
    && Given(o)
    && x.flow.ctx == o.ctx && x.flow.job == E.RecallJob(o.expected, o.key)
    && SystemInv(x.world) && E.FlowOk(x.world, x.flow) && Alone(x)
    && Standing(o, x.world, x.flow.pc, dp, vp)
  }

  ghost predicate Stands(o: Operation, x: Lone) {
    exists dp, vp :: Stand(o, x, dp, vp)
  }

  /** The layout is sealed although some state a restart can reveal still has the recall open. */
  predicate Wedged(d: Disk, dp: Phase, vp: Phase) {
    || (dp.Reserved? && SealedLayout(d, LayoutId(dp)))
    || (vp.Reserved? && SealedLayout(d, LayoutId(vp)))
  }

  predicate SealedLayout(d: Disk, l: string) {
    SourceLayout(l) in d.dirs && !d.dirs[SourceLayout(l)].seal.Unsealed?
  }

  // ---------- each step, on its own ----------

  lemma SavedStands(o: Operation, st: Store, d: Disk, dp: Phase, vp: Phase, next: Phase, fault: Fault,
                    result: Result<Reply>)
    returns (dq: Phase, vq: Phase)
    requires Given(o) && SourceStand(o, Opened(st), dp, vp)
    requires At(o, next, StateAt(o, next))
    requires (dp.Unstarted? && next.Reserved?) || (dp.Reserved? && next.Recalled? && LayoutId(next) == LayoutId(dp))
    ensures var r := Saved(st, d, StateAt(o, next), fault, result);
            && SourceStand(o, Opened(r.store), dq, vq) && (dq == dp || dq == next) && (vq == vp || vq == next)
            && (r.result.Ok? ==> r.result == result && dq == next && vq == next)
            && (fault.Clean? ==> r.result == result && dq == next && vq == next && !r.store.poisoned)
  {
    match fault
    case PersistFault(true) => dq, vq := dp, next;
    case PersistFault(false) => dq, vq := dp, vp;
    case _ => dq, vq := next, next;
  }

  lemma ReserveStands(o: Operation, st: Store, d: Disk, env: Env, dp: Phase, vp: Phase) returns (dq: Phase, vq: Phase)
    requires Given(o) && SourceStand(o, Opened(st), dp, vp) && HandleOk(Opened(st)) && !dp.Recalled?
    requires SourceLayout(env.uuid) !in d.dirs && env.uuid !in o.base.recalls
    ensures var r := Call(st, d, o.ctx, PrepareRecall(o.expected, Chosen(o)), env);
            && SourceStand(o, Opened(r.store), dq, vq)
            && (r.result.Ok? ==> dq.Reserved? && r.result.value == TargetReply(TargetOf(o, LayoutId(dq))))
            && (!st.poisoned && env.fault.Clean? ==> !r.store.poisoned && r.result.Ok?)
            && (Wedged(r.disk, dq, vq) <==> Wedged(d, dp, vp))
            && (!dp.Unstarted? ==> (dq, vq) == (dp, vp)) && (dq.Recalled? ==> dp.Recalled?)
  {
    dq, vq := dp, vp;
    if !st.poisoned {
      if dp.Unstarted? && !env.fault.LayoutFault? {
        dq, vq := SavedStands(o, st, Touched(d, NewDir(env.uuid, EMPTY_LAYOUT)), dp, vp, Reserved(env.uuid), env.fault,
                              Ok(TargetReply(TargetOf(o, env.uuid))));
      }
    }
  }

  lemma PublishStands(o: Operation, st: Store, d: Disk, env: Env, dp: Phase, vp: Phase) returns (dq: Phase, vq: Phase)
    requires Given(o) && SourceStand(o, Opened(st), dp, vp) && HandleOk(Opened(st)) && dp.Reserved?
             && Filled(o, d, LayoutId(dp))
    ensures var r := Call(st, d, o.ctx, CommitRecall(TargetOf(o, LayoutId(dp)), Content(o.expected)), env);
            && SourceStand(o, Opened(r.store), dq, vq)
            && (r.result.Ok? ==> dq == Recalled(LayoutId(dp)) && vq == dq
                                 && r.result.value == StateReply(Attached(Before(o), LayoutId(dp)).public))
            && (r.result.Err? ==> dq == dp || env.fault.PersistFault?)
            && (!st.poisoned && env.fault.Clean? ==> !r.store.poisoned && r.result.Ok?)
  {
    dq, vq := dp, vp;
    if !st.poisoned {
      PublishCall(o, dp, st, d, env);
      var r := Call(st, d, o.ctx, CommitRecall(TargetOf(o, LayoutId(dp)), Content(o.expected)), env);
      if r.store != st || r.result.Ok? {
        dq, vq := SavedStands(o, st, r.disk, dp, vp, Recalled(LayoutId(dp)), env.fault,
                              Ok(StateReply(Attached(Before(o), LayoutId(dp)).public)));
      }
    }
  }

  /** The chosen anchor is committed in the archive, its payload frozen at the entity's content. */
  ghost predicate Archived(o: Operation, w: World) {
    && o.key in w.catalog.linked && w.catalog.linked[o.key].receipt == Chosen(o)
    && Cat.OwnKey(w.catalog.id, o.key)
    && DecodeEndpoint(Payload(o, w.catalog)) == Ok(PayloadRoot(o, w.catalog))
       && PayloadRoot(o, w.catalog).AttemptLayout?
    && Frozen(w.disk, PayloadRoot(o, w.catalog), Content(o.expected))
  }

  lemma AnchorIsArchived(o: Operation, w: World, s: State, p: Phase)
    requires Given(o) && At(o, p, s) && Entities(s) && Backed(s, w.disk, w.catalog) && Cat.CatalogInv(w.catalog, w.disk)
    ensures Archived(o, w)
  {
    var id := o.expected.data.entity.entity;
    assert Chosen(o) in s.entities[id].public.anchors;
    AnchorHolds(w, s, id, Chosen(o));
    assert Cat.Backs(w.catalog.id, w.disk, o.key, w.catalog.linked[o.key]);
  }

  lemma LocateStands(o: Operation, w: World, y: World, fault: Fault, p: Phase)
    requires Given(o) && Archived(o, w) && !p.Recalled? && y.source.Opened?
    ensures var pc := E.AfterLocate(Chosen(o), Cat.Inspect(w.catalog, w.disk, o.key, fault).result);
            LocalsStand(o, y, pc, p) && (fault.Clean? ==> pc.Reserve?)
  {
  }

  /** An archive lookup touches no source layout. */
  lemma LookupSparesRecall(o: Operation, w: World, fault: Fault, l: string)
    requires Given(o) && Archived(o, w)
    ensures var d' := Cat.Lookup(w.catalog, w.disk, o.key, fault).disk; SealedLayout(d', l) <==> SealedLayout(w.disk, l)
  {
  }

  /** The copy has left the archive payload's bytes at the recall's layout. */
  predicate Carried(o: Operation, w: World, l: string) {
    && PayloadRoot(o, w.catalog) in w.disk.dirs && SourceLayout(l) in w.disk.dirs
    && w.disk.dirs[SourceLayout(l)].data == w.disk.dirs[PayloadRoot(o, w.catalog)].data
  }

  // ---------- the turns ----------

  ghost predicate Moving(o: Operation, x: Lone, env: Env, dp: Phase, vp: Phase) {
    && Given(o) && x.flow.ctx == o.ctx && x.flow.job == E.RecallJob(o.expected, o.key)
    && CanTake(x, env) && HandleOk(x.world.source)
    && Standing(o, x.world, x.flow.pc, dp, vp)
  }

  predicate SameLayout(dp: Phase, vp: Phase) {
    dp.Reserved? ==> LayoutId(vp) == LayoutId(dp)
  }

  /** ... and the part that a turn reads that does not call the source. */
  ghost predicate Going(o: Operation, x: Lone, env: Env, dp: Phase, vp: Phase) {
    && Given(o) && x.flow.ctx == o.ctx && x.flow.job == E.RecallJob(o.expected, o.key) && CanTake(x, env)
    && SameLayout(dp, vp) && LocalsStand(o, x.world, x.flow.pc, dp)
  }

  predicate Kept(o: Operation, x: Lone, y: Lone, dp: Phase, vp: Phase) {
    && y.world.source == x.world.source && LocalsStand(o, y.world, y.flow.pc, dp)
    && (Wedged(y.world.disk, dp, vp) <==> Wedged(x.world.disk, dp, vp))
  }

  predicate Forward(x: Lone, y: Lone) {
    Healthy(y.world) && Rank(y.flow.pc) < Rank(x.flow.pc) && !Failed(y.flow.pc)
  }

  function Rank(pc: E.Pc): nat {
    match pc
    case Ask => 7
    case Locate(_) => 6
    case Reserve(_) => 5
    case OpenPayload(_, _) => 4
    case Fetch(_, _) => 3
    case Fetching(_, _) => 2
    case Publish(_, _) => 1
    case _ => 0
  }

  /** What a turn other than the last one leaves: no seal appears, and without a fault at a
      healthy handle it leads on. */
  ghost predicate Leads(o: Operation, x: Lone, env: Env, y: Lone, dp: Phase, vp: Phase, dq: Phase, vq: Phase) {
    && Standing(o, y.world, y.flow.pc, dq, vq)
    && (Wedged(y.world.disk, dq, vq) <==> Wedged(x.world.disk, dp, vp))
    && (!dp.Unstarted? ==> (dq, vq) == (dp, vp)) && (dq.Recalled? ==> dp.Recalled?)
    && (Healthy(x.world) && env.fault.Clean? ==> Forward(x, y))
  }

  /** No fault, and if a copy ends, it has carried the bytes. */
  predicate Smooth(o: Operation, x: Lone, env: Env, transferred: bool, dp: Phase) {
    && Healthy(x.world) && env.fault.Clean?
    && (x.flow.pc.Fetching? ==> dp.Reserved? && transferred && Carried(o, x.world, LayoutId(dp)))
  }

  lemma AskTurn(o: Operation, x: Lone, env: Env, transferred: bool, dp: Phase, vp: Phase)
    requires Moving(o, x, env, dp, vp) && x.flow.pc == E.Ask
    ensures var y := Taken(x, env, transferred);
            Kept(o, x, y, dp, vp) && (Healthy(x.world) && env.fault.Clean? ==> Forward(x, y))
  {
    AskChangesNothing(x, env, transferred);
  }

  lemma AskChangesNothing(x: Lone, env: Env, transferred: bool)
    requires x.flow.pc == E.Ask
    ensures var y := Taken(x, env, transferred);
            && y.world.source == x.world.source && y.world.disk == x.world.disk && y.world.catalog == x.world.catalog
            && y.flow == x.flow.(pc := y.flow.pc)
  {
  }

  lemma LocateTurn(o: Operation, x: Lone, anchor: ArchiveReceipt, env: Env, transferred: bool, dp: Phase, vp: Phase)
    requires Going(o, x, env, dp, vp) && x.flow.pc == E.Locate(anchor) && Archived(o, x.world)
    ensures var y := Taken(x, env, transferred);
            Kept(o, x, y, dp, vp) && (Healthy(x.world) && env.fault.Clean? ==> Forward(x, y))
  {
    LocateStands(o, x.world, Taken(x, env, transferred).world, env.fault, dp);
    if dp.Reserved? { LookupSparesRecall(o, x.world, env.fault, LayoutId(dp)); }
    if vp.Reserved? { LookupSparesRecall(o, x.world, env.fault, LayoutId(vp)); }
  }

  lemma ReserveSettles(o: Operation, w: World, y: World, env: Env, dp: Phase, vp: Phase) returns (dq: Phase, vq: Phase)
    requires Given(o) && Standing(o, w, E.Reserve(Chosen(o)), dp, vp) && HandleOk(w.source)
    requires SourceLayout(env.uuid) !in w.disk.dirs && env.uuid !in o.base.recalls
    requires var r := Call(Handle(w), w.disk, o.ctx, PrepareRecall(o.expected, Chosen(o)), env);
             y.source == Opened(r.store) && y.disk == r.disk && y.catalog == w.catalog
    ensures var r := Call(Handle(w), w.disk, o.ctx, PrepareRecall(o.expected, Chosen(o)), env);
            var pc := E.AfterReserve(Chosen(o), r.result);
            && Standing(o, y, pc, dq, vq) && (Wedged(y.disk, dq, vq) <==> Wedged(w.disk, dp, vp))
            && (!dp.Unstarted? ==> (dq, vq) == (dp, vp)) && (dq.Recalled? ==> dp.Recalled?)
            && (Healthy(w) && env.fault.Clean? ==> Healthy(y) && pc.OpenPayload?)
  {
    dq, vq := ReserveStands(o, Handle(w), w.disk, env, dp, vp);
  }

  lemma ReserveTurn(o: Operation, x: Lone, anchor: ArchiveReceipt, env: Env, transferred: bool, dp: Phase, vp: Phase)
    returns (dq: Phase, vq: Phase)
    requires Moving(o, x, env, dp, vp) && x.flow.pc == E.Reserve(anchor)
    requires SourceLayout(env.uuid) !in x.world.disk.dirs && env.uuid !in o.base.recalls
    ensures Leads(o, x, env, Taken(x, env, transferred), dp, vp, dq, vq)
  {
    dq, vq := ReserveSettles(o, x.world, Taken(x, env, transferred).world, env, dp, vp);
  }

  lemma OpenTurn(o: Operation, x: Lone, anchor: ArchiveReceipt, recall: RecallTarget, env: Env, transferred: bool,
                 dp: Phase, vp: Phase)
    requires Going(o, x, env, dp, vp) && x.flow.pc == E.OpenPayload(anchor, recall) && Archived(o, x.world)
    ensures var y := Taken(x, env, transferred);
            Kept(o, x, y, dp, vp) && (Healthy(x.world) && env.fault.Clean? ==> Forward(x, y))
  {
    LookupSparesRecall(o, x.world, env.fault, LayoutId(dp));
  }

  /** Without a fault a sealed layout fences the copy, and an unsealed one does not. */
  lemma FetchTurn(o: Operation, x: Lone, source: DataEndpoint, recall: RecallTarget, env: Env, transferred: bool,
                  dp: Phase, vp: Phase)
    requires Going(o, x, env, dp, vp) && x.flow.pc == E.Fetch(source, recall) && Archived(o, x.world)
    requires Free(x.world.disk, PayloadRoot(o, x.world.catalog)) && Free(x.world.disk, SourceLayout(LayoutId(dp)))
    ensures var y := Taken(x, env, transferred);
            && Kept(o, x, y, dp, vp)
            && (Healthy(x.world) && env.fault.Clean? ==>
                  if Wedged(x.world.disk, dp, vp) then y.flow.pc == E.Done(Err(Fenced)) else Forward(x, y))
  {
    var y := Taken(x, env, transferred);
    assert DecodeEndpoint(TargetOf(o, LayoutId(dp)).destination) == Ok(SourceLayout(LayoutId(dp)));
  }

  lemma FetchingSettles(o: Operation, w: World, f: E.Flow, session: string, transferred: bool, fault: Fault, w': World,
                        dp: Phase, vp: Phase)
    requires Given(o) && Archived(o, w) && dp.Reserved? && w.source.Opened? && Possible(w, CopyEnd(session))
    requires f.job == E.RecallJob(o.expected, o.key) && SameLayout(dp, vp)
    requires Runs(w, session, Session(PayloadRoot(o, w.catalog), SourceLayout(LayoutId(dp))))
             && !SealedLayout(w.disk, LayoutId(dp))
    requires w' == Apply(w, CopyEnd(session))
    ensures var pc := E.AfterFetching(f, TargetOf(o, LayoutId(dp)), E.ReadBack(w, session, transferred, fault));
            && LocalsStand(o, w', pc, dp) && (Wedged(w'.disk, dp, vp) <==> Wedged(w.disk, dp, vp)) && Rank(pc) < 2
            && w'.source == w.source
            && (transferred && fault.Clean? && Carried(o, w, LayoutId(dp)) ==> pc.Publish?)
  {
  }

  lemma FetchingTurn(o: Operation, x: Lone, recall: RecallTarget, session: string, env: Env, transferred: bool,
                     dp: Phase, vp: Phase)
    requires Going(o, x, env, dp, vp) && x.flow.pc == E.Fetching(recall, session) && Archived(o, x.world)
    requires !SealedLayout(x.world.disk, LayoutId(dp))
    ensures var y := Taken(x, env, transferred);
            && Kept(o, x, y, dp, vp)
            && (Smooth(o, x, env, transferred, dp) ==> Forward(x, y))
  {
    FetchingSettles(o, x.world, x.flow, session, transferred, env.fault, Taken(x, env, transferred).world, dp, vp);
  }

  lemma PublishSettles(o: Operation, w: World, y: World, env: Env, dp: Phase, vp: Phase) returns (dq: Phase, vq: Phase)
    requires Given(o) && dp.Reserved?
             && Standing(o, w, E.Publish(TargetOf(o, LayoutId(dp)), Content(o.expected)), dp, vp)
    requires w.source.Opened? && HandleOk(w.source) && Free(w.disk, SourceLayout(LayoutId(dp)))
    requires var req := CommitRecall(TargetOf(o, LayoutId(dp)), Content(o.expected));
             var r := Call(Handle(w), w.disk, o.ctx, req, env);
             y.source == Opened(r.store) && y.disk == r.disk
    ensures var req := CommitRecall(TargetOf(o, LayoutId(dp)), Content(o.expected));
            var pc := E.Replied(Call(Handle(w), w.disk, o.ctx, req, env).result);
            && Standing(o, y, pc, dq, vq) && Rank(pc) == 0
            && (Healthy(w) && env.fault.Clean? ==> Healthy(y) && !Failed(pc))
            && (Wedged(y.disk, dq, vq) ==> env.fault == SealFault(true) || env.fault.PersistFault?)
  {
    dq, vq := PublishStands(o, Handle(w), w.disk, env, dp, vp);
    if !Handle(w).poisoned {
      PublishCall(o, dp, Handle(w), w.disk, env);
    }
  }

  /** The one turn that can wedge the recall, by a fault after the seal became visible. */
  lemma PublishTurn(o: Operation, x: Lone, recall: RecallTarget, evidence: TransferEvidence, env: Env,
                    transferred: bool, dp: Phase, vp: Phase)
    returns (dq: Phase, vq: Phase)
    requires Moving(o, x, env, dp, vp) && x.flow.pc == E.Publish(recall, evidence)
             && Free(x.world.disk, SourceLayout(LayoutId(dp)))
    ensures var y := Taken(x, env, transferred);
            && Standing(o, y.world, y.flow.pc, dq, vq)
            && (Healthy(x.world) && env.fault.Clean? ==> Forward(x, y))
            && (Wedged(y.world.disk, dq, vq) ==> env.fault == SealFault(true) || env.fault.PersistFault?)
  {
    dq, vq := PublishSettles(o, x.world, Taken(x, env, transferred).world, env, dp, vp);
  }

  // ---------- what the invariant supplies to a turn ----------

  lemma FreshForBase(o: Operation, w: World, dp: Phase, uuid: string)
    requires Given(o) && At(o, dp, FileOf(w.source).durable) && Named(FileOf(w.source).durable, w.issued)
    requires DiskNamed(w.disk, w.issued) && FreshId(w, uuid)
    ensures uuid !in o.base.recalls && SourceLayout(uuid) !in w.disk.dirs
  {
    assert o.base.recalls.Keys <= FileOf(w.source).durable.recalls.Keys;
    assert SourceLayout(uuid) in w.disk.dirs ==> PathIssued(SourceLayout(uuid), w.issued);
  }

  lemma ReservedIsThere(o: Operation, x: Lone, dp: Phase)
    requires Given(o) && dp.Reserved? && At(o, dp, FileOf(x.world.source).durable)
    requires Backed(FileOf(x.world.source).durable, x.world.disk, x.world.catalog)
    ensures SourceLayout(LayoutId(dp)) in x.world.disk.dirs
    ensures SealedLayout(x.world.disk, LayoutId(dp)) ==>
              Holds(x.world.disk, SourceLayout(LayoutId(dp)), Content(o.expected))
  {
    assert RecallBacked(FileOf(x.world.source).durable, x.world.disk, LayoutId(dp));
  }

  ghost predicate Supplied(o: Operation, x: Lone, env: Env, dp: Phase, vp: Phase) {
    && Moving(o, x, env, dp, vp) && Archived(o, x.world)
    && (x.flow.pc.Reserve? ==> SourceLayout(env.uuid) !in x.world.disk.dirs && env.uuid !in o.base.recalls)
    && (x.flow.pc.Fetch? ==> Free(x.world.disk, PayloadRoot(o, x.world.catalog)))
    && (x.flow.pc.Fetch? || x.flow.pc.Publish? ==> Free(x.world.disk, SourceLayout(LayoutId(dp))))
    && (x.flow.pc.Fetching? ==> !SealedLayout(x.world.disk, LayoutId(dp)))
  }

  ghost predicate CopyOk(x: Lone) {
    x.flow.pc.Fetching? && x.flow.pc.session in x.world.sessions ==>
      SessionOk(x.world.disk, x.flow.pc.session, x.world.sessions[x.flow.pc.session])
  }

  lemma Supply(o: Operation, x: Lone, env: Env, dp: Phase, vp: Phase)
    requires Moving(o, x, env, dp, vp) && Sound(x.world) && Alone(x)
    requires Draws(x.flow.pc) ==> FreshId(x.world, env.uuid)
    requires CopyOk(x)
    ensures Supplied(o, x, env, dp, vp)
  {
    AnchorIsArchived(o, x.world, FileOf(x.world.source).durable, dp);
    match x.flow.pc
    case Reserve(_) => FreshForBase(o, x.world, dp, env.uuid);
    case Fetch(_, _) =>
      ReservedIsThere(o, x, dp);
      AloneIsFree(x, SourceLayout(LayoutId(dp)));
      AloneIsFree(x, PayloadRoot(o, x.world.catalog));
    case Publish(_, _) =>
      AloneIsFree(x, SourceLayout(LayoutId(dp)));
    case _ =>
  }

  /** One step of the workflow, whatever fault it meets. */
  lemma TakeStands(o: Operation, x: Lone, env: Env, transferred: bool, dp: Phase, vp: Phase)
      returns (dq: Phase, vq: Phase)
    requires Supplied(o, x, env, dp, vp)
    ensures var y := Taken(x, env, transferred);
            && Standing(o, y.world, y.flow.pc, dq, vq)
            && (Wedged(y.world.disk, dq, vq) && !Wedged(x.world.disk, dp, vp) ==>
                  x.flow.pc.Publish? && (env.fault == SealFault(true) || env.fault.PersistFault?))
            && (Smooth(o, x, env, transferred, dp) && !x.flow.pc.Done? ==>
                  if x.flow.pc.Fetch? && Wedged(x.world.disk, dp, vp)
                  then y.flow.pc == E.Done(Err(Fenced)) && y.world.source == x.world.source
                  else Forward(x, y))
            && (!x.flow.pc.Publish? ==>
                  (Wedged(y.world.disk, dq, vq) <==> Wedged(x.world.disk, dp, vp))
                  && (!dp.Unstarted? ==> (dq, vq) == (dp, vp)) && (dq.Recalled? ==> dp.Recalled?))
  {
    dq, vq := dp, vp;
    match x.flow.pc
    case Ask => AskTurn(o, x, env, transferred, dp, vp);
    case Locate(anchor) => LocateTurn(o, x, anchor, env, transferred, dp, vp);
    case Reserve(anchor) => dq, vq := ReserveTurn(o, x, anchor, env, transferred, dp, vp);
    case OpenPayload(anchor, recall) => OpenTurn(o, x, anchor, recall, env, transferred, dp, vp);
    case Fetch(source, recall) => FetchTurn(o, x, source, recall, env, transferred, dp, vp);
    case Fetching(recall, session) => FetchingTurn(o, x, recall, session, env, transferred, dp, vp);
    case Publish(recall, evidence) => dq, vq := PublishTurn(o, x, recall, evidence, env, transferred, dp, vp);
    case Done(_) => DoneTurn(x, env, transferred);
  }

  lemma StandIsMoving(o: Operation, x: Lone, env: Env, dp: Phase, vp: Phase)
    requires Stand(o, x, dp, vp) && CanTake(x, env)
    ensures Moving(o, x, env, dp, vp) && Sound(x.world) && Alone(x)
    ensures CopyOk(x)
  {
  }

  // ---------- the other turns ----------

  lemma ChunkStands(o: Operation, x: Lone, session: string, data: Option<Bytes>, dp: Phase, vp: Phase)
    requires Given(o) && Standing(o, x.world, x.flow.pc, dp, vp) && Alone(x)
             && Possible(x.world, CopyWrite(session, data))
    ensures var w := Apply(x.world, CopyWrite(session, data));
            Standing(o, w, x.flow.pc, dp, vp) && (Wedged(w.disk, dp, vp) <==> Wedged(x.world.disk, dp, vp))
  {
    assert session in Copies(x.flow);
  }

  lemma CrashStands(o: Operation, w: World, restart: Action, dp: Phase, vp: Phase) returns (vq: Phase)
    requires Given(o) && SourceStand(o, w.source, dp, vp)
    requires restart.Restart? && Possible(w, restart) && ReservedKnown(w.disk, dp, vp)
    ensures var w' := Apply(w, restart);
            Standing(o, w', E.Done(Err(HsmError.Unknown)), dp, vq)
                && (Wedged(w'.disk, dp, vq) ==> Wedged(w.disk, dp, vp))
    ensures vq == VisibleAfter(Crash(restart), dp, vp)
  {
    vq := if restart.renameKept then vp else dp;
  }

  /** Open recalls' layouts are there, and no collection has touched them. */
  predicate ReservedKnown(d: Disk, dp: Phase, vp: Phase) {
    && (dp.Reserved? ==> SourceLayout(LayoutId(dp)) in d.dirs && SourceLayout(LayoutId(dp)) !in d.unlinked)
    && (vp.Reserved? ==> SourceLayout(LayoutId(vp)) in d.dirs && SourceLayout(LayoutId(vp)) !in d.unlinked)
  }

  lemma StandKnowsReserved(o: Operation, w: World, dp: Phase, vp: Phase)
    requires Given(o) && SourceStand(o, w.source, dp, vp) && StateOk(FileOf(w.source).durable, w)
             && StateOk(FileOf(w.source).visible, w)
    ensures ReservedKnown(w.disk, dp, vp)
  {
    if dp.Reserved? { assert RecallBacked(FileOf(w.source).durable, w.disk, LayoutId(dp)); }
    if vp.Reserved? { assert RecallBacked(FileOf(w.source).visible, w.disk, LayoutId(vp)); }
  }

  /** What is visible after a turn that is not a step: a restart may reveal what is durable. */
  function VisibleAfter(t: Turn, dp: Phase, vp: Phase): Phase {
    if t.Crash? && t.restart.Restart? && !t.restart.renameKept then dp else vp
  }

  predicate CutAfterSeal(t: Turn) {
    t.Take? && (t.env.fault == SealFault(true) || t.env.fault.PersistFault?)
  }

  lemma OtherTurn(o: Operation, x: Lone, t: Turn, y: Lone, dp: Phase, vp: Phase) returns (dq: Phase, vq: Phase)
    requires Given(o) && Standing(o, x.world, x.flow.pc, dp, vp) && Alone(x) && LoneNext(x, t, y) && !t.Take?
    requires ReservedKnown(x.world.disk, dp, vp)
    ensures Standing(o, y.world, y.flow.pc, dq, vq) && y.flow == x.flow.(pc := y.flow.pc)
    ensures Wedged(y.world.disk, dq, vq) ==> Wedged(x.world.disk, dp, vp)
    ensures dq == (if t.Recover? then vp else dp) && vq == VisibleAfter(t, dp, vp)
  {
    dq, vq := dp, vp;
    match t
    case Again =>
    case Chunk(session, data) => ChunkStands(o, x, session, data, dp, vp);
    case Crash(restart) => vq := CrashStands(o, x.world, restart, dp, vp);
    case Drop =>
    case Recover =>
      dq := vp;
      ReopenStands(o, x.world, x.flow.pc, dp, vp);
  }

  /** Opening makes what is visible durable. */
  lemma ReopenStands(o: Operation, w: World, pc: E.Pc, dp: Phase, vp: Phase)
    requires Given(o) && Standing(o, w, pc, dp, vp) && Possible(w, Reopen)
    ensures Standing(o, Apply(w, Reopen), pc, vp, vp) && Apply(w, Reopen).disk == w.disk
  {
  }

  /** The invariant holds after any turn; and a recall is wedged by nothing but its own publish
      step, cut off after the seal became visible and before the commit was persisted. */
  lemma TurnStands(o: Operation, x: Lone, t: Turn, y: Lone, dp: Phase, vp: Phase) returns (dq: Phase, vq: Phase)
    requires Stand(o, x, dp, vp) && LoneNext(x, t, y)
    ensures Stand(o, y, dq, vq)
    ensures Wedged(y.world.disk, dq, vq) && !Wedged(x.world.disk, dp, vp) ==>
              x.flow.pc.Publish? && CutAfterSeal(t)
    ensures t.Take? && !x.flow.pc.Publish? && !dp.Unstarted? ==> (dq, vq) == (dp, vp)
    ensures !t.Take? ==> dq == (if t.Recover? then vp else dp) && vq == VisibleAfter(t, dp, vp)
  {
    TurnKeepsSystem(x, t, y);
    assert Alone(y) by { TurnKeepsAlone(x, t, y); }
    dq, vq := dp, vp;
    if t.Take? {
      StandIsMoving(o, x, t.env, dp, vp);
      if Draws(x.flow.pc) { TakeIsFresh(x, t.env); }
      Supply(o, x, t.env, dp, vp);
      dq, vq := TakeStands(o, x, t.env, t.transferred, dp, vp);
    } else {
      StandKnowsReserved(o, x.world, dp, vp);
      dq, vq := OtherTurn(o, x, t, y, dp, vp);
    }
  }

  // ---------- whole histories ----------

  /** The workflow is called for the first time on an Offline entity that has the chosen anchor. */
  ghost predicate Begun(o: Operation, x: Lone) {
    && x.flow == E.Flow(o.ctx, E.RecallJob(o.expected, o.key), E.Ask)
    && Qualify(o.ctx).Ok?
    && EntityOf(o.base, o.expected.data).Ok?
    && EntityOf(o.base, o.expected.data).value.public == o.expected && o.expected.residency.Offline?
    && (exists a | a in o.expected.anchors :: a.key == o.key)
    && !Recalling(o.base, o.expected.data)
    && StepKey(o.ctx, PrepareRecallStep) !in o.base.steps
    && StepKey(o.ctx, CommitRecallStep) !in o.base.steps
    && o.ctx.operationId !in o.base.completed
    && SystemInv(x.world) && Healthy(x.world) && Memory(x.world) == o.base
    && Alone(x)
  }

  lemma BegunIsGiven(o: Operation, e: Entity)
    requires Entities(o.base) && Qualify(o.ctx).Ok?
    requires EntityOf(o.base, o.expected.data) == Ok(e) && e.public == o.expected && o.expected.residency.Offline?
    requires exists a | a in o.expected.anchors :: a.key == o.key
    requires !Recalling(o.base, o.expected.data)
    requires StepKey(o.ctx, PrepareRecallStep) !in o.base.steps && StepKey(o.ctx, CommitRecallStep) !in o.base.steps
    requires o.ctx.operationId !in o.base.completed
    ensures Given(o)
  {
    EntityOfIsItsKey(o.base, o.expected.data);
    var i :| 0 <= i < |o.expected.anchors| && o.expected.anchors[i] == Chosen(o);
    assert Binds(o.expected.anchors[i], o.expected);
  }

  lemma BegunStands(o: Operation, x: Lone)
    requires Begun(o, x)
    ensures Stand(o, x, Unstarted, Unstarted) && Stands(o, x)
  {
    BegunIsGiven(o, EntityOf(o.base, o.expected.data).value);
  }

  /** Whatever happens to the workflow, at every moment the metadata on disk is one of the three
      states of its operation. */
  lemma HistoryStands(o: Operation, xs: seq<Lone>, ts: seq<Turn>, i: nat)
    requires LoneRun(xs, ts) && Stands(o, xs[0]) && i < |xs|
    ensures Stands(o, xs[i])
  {
    for j := 0 to i
      invariant Stands(o, xs[j])
    {
      var dp, vp :| Stand(o, xs[j], dp, vp);
      var dq, vq := TurnStands(o, xs[j], ts[j], xs[j + 1], dp, vp);
    }
  }

  // ---------- a re-run without faults ----------

  lemma FetchingIsLive(o: Operation, w: World, f: E.Flow, dp: Phase)
    requires (forall id | id in w.sessions :: SessionOk(w.disk, id, w.sessions[id]))
    requires LocalsStand(o, w, f.pc, dp) && f.pc.Fetching?
    ensures SessionLive(w, CopyId(f.pc)) && !SealedLayout(w.disk, LayoutId(dp))
    ensures w.sessions[f.pc.session].source != w.sessions[f.pc.session].destination
  {
    assert SessionOk(w.disk, f.pc.session, w.sessions[f.pc.session]);
  }

  lemma PhasesAgree(o: Operation, source: Source, dp: Phase, vp: Phase)
    requires Given(o) && SourceStand(o, source, dp, vp) && FileOf(source).durable == FileOf(source).visible
    ensures dp == vp
  {
    var k := StepKey(o.ctx, PrepareRecallStep);
    assert k in FileOf(source).durable.steps <==> !dp.Unstarted?;
    assert k in FileOf(source).visible.steps <==> !vp.Unstarted?;
    assert o.ctx.operationId in FileOf(source).durable.completed <==> dp.Recalled?;
  }

  /** The workflow can finish, or a sealed layout is about to fence it. */
  ghost predicate Ready(o: Operation, x: Lone, dp: Phase) {
    && Stand(o, x, dp, dp) && Healthy(x.world)
    && (x.flow.pc.Fetching? ==> Carried(o, x.world, LayoutId(dp)))
    && (Wedged(x.world.disk, dp, dp) ==> !x.flow.pc.Fetching? && !x.flow.pc.Publish?)
  }

  predicate Fences(x: Lone, dp: Phase) {
    x.flow.pc.Fetch? && Wedged(x.world.disk, dp, dp)
  }

  lemma CleanTakeMoves(o: Operation, x: Lone, env: Env, dp: Phase) returns (dq: Phase, vq: Phase)
    requires Ready(o, x, dp) && CanTake(x, env) && env.fault.Clean? && !x.flow.pc.Done?
    ensures var y := Taken(x, env, true);
            && Standing(o, y.world, y.flow.pc, dq, vq)
            && (if Fences(x, dp) then y.flow.pc == E.Done(Err(Fenced)) && y.world.source == x.world.source
                else Forward(x, y))
            && (Wedged(y.world.disk, dq, vq) ==> Wedged(x.world.disk, dp, dp))
            && (!x.flow.pc.Publish? && Wedged(x.world.disk, dp, dp) ==>
                 Wedged(y.world.disk, dq, vq) && (dq, vq) == (dp, dp))
            && (!x.flow.pc.Publish? && dq.Recalled? ==> dp.Recalled?)
  {
    StandIsMoving(o, x, env, dp, dp);
    if Draws(x.flow.pc) { TakeIsFresh(x, env); }
    Supply(o, x, env, dp, dp);
    dq, vq := TakeStands(o, x, env, true, dp, dp);
  }

  lemma CleanTakeStands(o: Operation, x: Lone, uuid: string, dp: Phase) returns (dq: Phase)
    requires Ready(o, x, dp) && FreshId(x.world, uuid) && !x.flow.pc.Done?
    ensures CanTake(x, Env(Clean, uuid))
    ensures var y := Taken(x, Env(Clean, uuid), true);
            && Stand(o, y, dq, dq)
            && (if Fences(x, dp) then y.flow.pc == E.Done(Err(Fenced)) && y.world.source == x.world.source
                else Forward(x, y))
            && (Wedged(y.world.disk, dq, dq) <==> Wedged(x.world.disk, dp, dp))
            && (Wedged(x.world.disk, dp, dp) ==> dq == dp) && (!x.flow.pc.Publish? && dq.Recalled? ==> dp.Recalled?)
  {
    var env := Env(Clean, uuid);
    if x.flow.pc.Fetching? { FetchingIsLive(o, x.world, x.flow, dp); }
    NothingBlocks(x, env);
    TakeKeeps(x, env, true);
    var vq;
    dq, vq := CleanTakeMoves(o, x, env, dp);
    PhasesAgree(o, Taken(x, env, true).world.source, dq, vq);
  }

  lemma DeliveryStands(o: Operation, y: Lone, uuid: string, dp: Phase)
    requires Stand(o, y, dp, dp) && y.flow.pc.Fetching? && CopyId(y.flow.pc) == uuid
    ensures var z := y.(world := Delivered(y.world, uuid));
            && Stand(o, z, dp, dp) && Carried(o, z.world, LayoutId(dp)) && z.world.source == y.world.source
            && (Wedged(z.world.disk, dp, dp) <==> Wedged(y.world.disk, dp, dp))
  {
    FetchingIsLive(o, y.world, y.flow, dp);
    DeliveredIsChunk(y, uuid);
    var z := y.(world := Delivered(y.world, uuid));
    var data := y.world.disk.dirs[y.world.sessions[uuid].source].data;
    TurnKeepsSystem(y, Chunk(uuid, data), z);
    TurnKeepsAlone(y, Chunk(uuid, data), z);
    ChunkStands(o, y, uuid, data, dp, dp);
  }

  lemma CleanStepStands(o: Operation, x: Lone, y: Lone, z: Lone, uuid: string, dp: Phase)
    requires Stand(o, y, dp, dp) && Forward(x, y)
             && (y.flow.pc.Fetching? ==> CopyId(y.flow.pc) == uuid && !Wedged(y.world.disk, dp, dp))
    requires Wedged(y.world.disk, dp, dp) ==> !y.flow.pc.Publish?
    requires z == if Copies(y.flow) == {} then y else y.(world := Delivered(y.world, uuid))
    ensures Ready(o, z, dp) && Forward(x, z) && (Wedged(z.world.disk, dp, dp) <==> Wedged(y.world.disk, dp, dp))
  {
    if y.flow.pc.Fetching? {
      DeliveryStands(o, y, uuid, dp);
    }
  }

  /** A copy is begun under its own UUID by Fetch only, and only Fetching leads to Publish. */
  lemma CopySession(x: Lone, uuid: string)
    requires CanTake(x, Env(Clean, uuid)) && x.flow.job.RecallJob? && !x.flow.pc.Done?
    ensures var y := Taken(x, Env(Clean, uuid), true);
            && (y.flow.pc.Fetching? ==> x.flow.pc.Fetch? && CopyId(y.flow.pc) == uuid)
            && (y.flow.pc.Publish? ==> x.flow.pc.Fetching?)
  {
  }

  lemma RankIsPositive(x: Lone)
    requires x.flow.job.RecallJob? && E.WellFormed(x.flow) && !x.flow.pc.Done?
    ensures Rank(x.flow.pc) > 0
  {
  }

  /** How a re-run ends. */
  ghost predicate Ended(o: Operation, z: Lone, wedged: bool, dp: Phase, dq: Phase) {
    && Stand(o, z, dq, dq) && Healthy(z.world)
    && if wedged then z.flow.pc == E.Done(Err(Fenced)) && dq == dp && Wedged(z.world.disk, dq, dq)
       else EndedOk(z.flow.pc)
  }

  lemma RerunStops(x: Lone, y: Lone, uuids: seq<string>)
    requires uuids != [] && !x.flow.pc.Done? && y.flow.pc.Done? && Clean1(x, uuids[0]) == y
    ensures Rerun(x, uuids) == y
  {
    assert Rerun(x, uuids) == Rerun(y, uuids[1..]);
  }

  lemma FencedEnds(o: Operation, x: Lone, uuids: seq<string>, dp: Phase)
    requires Ready(o, x, dp) && FreshIds(x.world, uuids) && uuids != [] && Fences(x, dp)
    ensures Ended(o, Rerun(x, uuids), true, dp, dp)
  {
    var y := Clean1(x, uuids[0]);
    var dq := CleanTakeStands(o, x, uuids[0], dp);
    RerunStops(x, y, uuids);
  }

  lemma {:induction false} RerunEnds(o: Operation, x: Lone, uuids: seq<string>, dp: Phase) returns (dq: Phase)
    requires Ready(o, x, dp) && FreshIds(x.world, uuids) && Rank(x.flow.pc) <= |uuids|
    requires x.flow.pc.Done? ==> !Failed(x.flow.pc) && !Wedged(x.world.disk, dp, dp)
    ensures Ended(o, Rerun(x, uuids), Wedged(x.world.disk, dp, dp), dp, dq)
    decreases uuids
  {
    dq := dp;
    if !x.flow.pc.Done? {
      RankIsPositive(x);
      if Fences(x, dp) {
        FencedEnds(o, x, uuids, dp);
      } else {
        var y, z := Clean1(x, uuids[0]), CleanStep(x, uuids[0]);
        var dm := CleanTakeStands(o, x, uuids[0], dp);
        CopySession(x, uuids[0]);
        CleanStepStands(o, x, y, z, uuids[0], dm);
        CleanStepIssues(x, uuids);
        dq := RerunEnds(o, z, uuids[1..], dm);
      }
    }
  }

  // ---------- the characterisation ----------

  /** As a caller could see it: an open recall of the data key whose layout shows a seal. */
  predicate SealedRecall(w: World, data: DataKey) {
    var recalls := Memory(w).recalls;
    exists l | l in recalls :: recalls[l].target.data == data && SealedLayout(w.disk, l)
  }

  lemma WedgedIsSealedRecall(o: Operation, w: World, p: Phase)
    requires Given(o) && w.source.Opened? && At(o, p, Memory(w))
    ensures SealedRecall(w, o.expected.data) <==> Wedged(w.disk, p, p)
  {
    var recalls := Memory(w).recalls;
    if p.Reserved? {
      assert recalls[LayoutId(p)].target == TargetOf(o, LayoutId(p));
      assert forall l | l in recalls && l != LayoutId(p) :: recalls[l] == o.base.recalls[l];
    }
  }

  /** After any history of faults, crashes and re-runs, once the workflow is down and the storage
      healthy, a re-run without faults recalls the entity if and only if the recall's layout is not
      sealed. If it is, the re-run is fenced and leaves the metadata as it was. */
  lemma RecallConvergesIffUnsealed(o: Operation, xs: seq<Lone>, ts: seq<Turn>, uuids: seq<string>)
      returns (layoutId: string)
    requires LoneRun(xs, ts) && Begun(o, xs[0])
    requires var x := xs[|ts|]; x.flow.pc.Done? && Healthy(x.world) && FreshIds(x.world, uuids) && 7 <= |uuids|
    ensures Given(o)
    ensures var x := xs[|ts|];
            var z := Rerun(x.(flow := x.flow.(pc := E.Ask)), uuids);
            if SealedRecall(x.world, o.expected.data)
            then z.flow.pc == E.Done(Err(Fenced)) && z.world.source == x.world.source
                 && x.world.source == Opened(ClearStore(StateAt(o, Reserved(layoutId))))
            else z.flow.pc == E.Done(Ok(Attached(Before(o), layoutId).public))
                 && z.world.source == Opened(ClearStore(StateAt(o, Recalled(layoutId))))
  {
    var x := xs[|ts|];
    BegunStands(o, xs[0]);
    HistoryStands(o, xs, ts, |ts|);
    var dp, vp :| Stand(o, x, dp, vp);
    PhasesAgree(o, x.world.source, dp, vp);
    WedgedIsSealedRecall(o, x.world, dp);
    var again := x.(flow := x.flow.(pc := E.Ask));
    AgainIsReady(o, x, again, dp);
    var dq := RerunEnds(o, again, uuids, dp);
    layoutId := LayoutId(dq);
    EndedMeans(o, Rerun(again, uuids), Wedged(x.world.disk, dp, dp), dp, dq);
    if Wedged(x.world.disk, dp, dp) { HealthySource(o, x.world, dp, vp); }
  }

  lemma AgainIsReady(o: Operation, x: Lone, again: Lone, dp: Phase)
    requires Stand(o, x, dp, dp) && Healthy(x.world) && x.flow.pc.Done? && again == x.(flow := x.flow.(pc := E.Ask))
    ensures Ready(o, again, dp) && again.world == x.world
  {
  }

  lemma HealthySource(o: Operation, w: World, p: Phase, q: Phase)
    requires Given(o) && Healthy(w) && HandleOk(w.source) && SourceStand(o, w.source, p, q)
    ensures w.source == Opened(ClearStore(StateAt(o, p)))
  {
  }

  lemma EndedMeans(o: Operation, z: Lone, wedged: bool, dp: Phase, dq: Phase)
    requires Ended(o, z, wedged, dp, dq)
    ensures !dq.Unstarted?
    ensures z.world.source == Opened(ClearStore(StateAt(o, dq)))
    ensures if wedged then z.flow.pc == E.Done(Err(Fenced)) && dq == dp && dq.Reserved?
            else z.flow.pc == E.Done(Ok(Attached(Before(o), LayoutId(dq)).public)) && dq.Recalled?
  {
    HealthySource(o, z.world, dq, dq);
  }

  // ---------- inside the window ----------

  /** The window's layout holds exactly the entity's content, unlocked and durable. */
  lemma SealedIsFilled(o: Operation, x: Lone, dp: Phase)
    requires Stand(o, x, dp, dp) && x.flow.pc.Done? && dp.Reserved? && SealedLayout(x.world.disk, LayoutId(dp))
    ensures Filled(o, x.world.disk, LayoutId(dp))
  {
    ReservedIsThere(o, x, dp);
    AloneIsFree(x, SourceLayout(LayoutId(dp)));
  }

  /** The entity stays Offline with its anchors, and every other operation's prepare_recall is
      refused as Busy; so no new recall can pass the window. */
  lemma OthersAreBusy(o: Operation, st: Store, d: Disk, l: string, other: OperationContext, anchor: ArchiveReceipt,
                      env: Env)
    requires Given(o) && At(o, Reserved(l), st.state) && !st.poisoned && env.fault.Clean?
    requires Qualify(other).Ok? && StepKey(other, PrepareRecallStep) !in st.state.steps && anchor in o.expected.anchors
    ensures Call(st, d, other, PrepareRecall(o.expected, anchor), env).result == Err(Busy)
    ensures EntityOf(st.state, o.expected.data) == Ok(Before(o)) && Before(o).public == o.expected
  {
    assert st.state.recalls[l].target.data == o.expected.data;
  }

  /** The owner's commit_recall, called directly with the entity's content as evidence, publishes. */
  lemma DirectCommitPublishes(o: Operation, st: Store, d: Disk, l: string, env: Env)
    requires Given(o) && At(o, Reserved(l), st.state) && !st.poisoned && env.fault.Clean? && Filled(o, d, l)
    ensures var r := Call(st, d, o.ctx, CommitRecall(TargetOf(o, l), Content(o.expected)), env);
            r.result == Ok(StateReply(Attached(Before(o), l).public)) && r.store == ClearStore(StateAt(o, Recalled(l)))
  {
    PublishCall(o, Reserved(l), st, d, env);
  }
}
