/**
 The release workflow, run alone without faults from any healthy moment of any run: exactly when it
 releases, exactly why it is refused otherwise, and that a release cut off anywhere is finished by
 running it again.
 */
module Releases {
  import opened Managed
  import opened Files
  import opened SourceState
  import opened SourceInvariants
  import opened System
  import E = Engine
  import opened Lone
  import Cat = Catalog

  // ---------- what a release is, and what stands against it ----------

  /** The metadata after a release. */
  function Released(s: State, ctx: OperationContext, e: Entity): State {
    var p := e.public;
    var f := Detach(e);
    s.(entities := s.entities[p.data.entity.entity := f],
       gc := s.gc + if e.published.Some? then [e.published.value] else [],
       completed := s.completed[ctx.operationId := Completed(ctx, p.data, ManagedAction.Release, f.public)],
       steps := s.steps[StepKey(ctx, ReleaseStep) := SavedStep(ReleaseData(p), Ok(StateReply(f.public)))])
  }

  predicate Releasable(s: State, e: Entity) {
    && EntityOf(s, e.public.data) == Ok(e) && e.published.Some? && e.public.anchors != []
    && !Viewed(s, e.public.data) && !Recalling(s, e.public.data)
  }

  /** The operation has not called its step, and its ID is unused. */
  predicate Fresh(s: State, ctx: OperationContext) {
    Qualify(ctx).Ok? && ctx.operationId !in s.completed && StepKey(ctx, ReleaseStep) !in s.steps
  }

  /** The entity an observation is of. */
  function Subject(s: State, p: EntityState): Entity {
    if EntityOf(s, p.data).Ok? then EntityOf(s, p.data).value else NOTHING
  }

  predicate Known(s: State, p: EntityState) {
    KnownKey(s, p.data.entity) && p.data.entity.entity in s.entities
  }

  /** The observation the release was asked for is the entity's state, and it has anchors. */
  predicate Current(s: State, p: EntityState) {
    EntityOf(s, p.data).Ok? && Subject(s, p).public == p && p.anchors != []
  }

  predicate Locked(d: Disk, e: Entity) {
    e.published.Some? && SourceLayout(e.published.value) in d.dirs
    && d.dirs[SourceLayout(e.published.value)].holder.Some?
  }

  /** Why the storage refuses to detach a current entity, if it does. */
  function Refusal(s: State, d: Disk, e: Entity): Option<HsmError> {
    if Viewed(s, e.public.data) || Recalling(s, e.public.data) || Locked(d, e) then Some(Busy)
    else if e.public.residency.Offline? then Some(Conflict)
    else None
  }

  /** A refusal is recorded like any other answer. */
  function Refused(s: State, ctx: OperationContext, p: EntityState, error: HsmError): State {
    s.(steps := s.steps[StepKey(ctx, ReleaseStep) := SavedStep(ReleaseData(p), Err(error))])
  }

  /** The layout of a published entity is there. */
  predicate Present(d: Disk, e: Entity) {
    e.published.Some? ==> SourceLayout(e.published.value) in d.dirs
  }

  lemma ReleaseCall(st: Store, d: Disk, ctx: OperationContext, e: Entity, env: Env)
    requires !st.poisoned && Fresh(st.state, ctx) && Current(st.state, e.public) && env.fault.Clean?
    requires Subject(st.state, e.public) == e
    requires Present(d, e) && (e.public.residency.Offline? <==> e.published.None?)
    ensures Call(st, d, ctx, ReleaseData(e.public), env)
            == match Refusal(st.state, d, e)
               case None => Called(ClearStore(Released(st.state, ctx, e)), d, Ok(StateReply(Detach(e).public)))
               case Some(error) => Called(ClearStore(Refused(st.state, ctx, e.public, error)), d, Err(error))
  {
  }

  // ---------- the workflow's steps ----------

  function At(w: World, ctx: OperationContext, p: EntityState, pc: E.Pc): Lone {
    Lone(w, E.Flow(ctx, E.ReleaseJob(p), pc))
  }

  lemma AskStep(w: World, ctx: OperationContext, p: EntityState, uuid: string)
    requires Healthy(w) && Fresh(Memory(w), ctx)
    ensures CleanStep(At(w, ctx, p, E.Ask), uuid)
            == At(w, ctx, p, if KnownKey(Memory(w), p.data.entity) then E.Observe else E.Done(Err(NotFound)))
  {
  }

  lemma ObserveStep(w: World, ctx: OperationContext, p: EntityState, uuid: string)
    requires Healthy(w) && Entities(Memory(w)) && KnownKey(Memory(w), p.data.entity)
    ensures CleanStep(At(w, ctx, p, E.Observe), uuid)
            == At(w, ctx, p, if !Known(Memory(w), p) then E.Done(Err(NotFound))
                             else if Current(Memory(w), p) then E.Verify(0)
                             else E.Done(Err(Conflict)))
  {
    var id := p.data.entity.entity;
    if id in Memory(w).entities {
      assert EntityOk(Memory(w), id, Memory(w).entities[id]);
    }
  }

  /** The first anchor is committed as recorded, and asking for it leaves the disk as it is. */
  lemma FirstAnchorIsCommitted(s: State, c: Cat.Catalog, d: Disk, p: EntityState)
    requires Entities(s) && Backed(s, d, c) && Cat.CatalogInv(c, d) && Current(s, p)
    ensures var a, r := p.anchors[0], Cat.Inspect(c, d, p.anchors[0].key, Clean);
            r.result == Ok(Committed(a)) && r.disk == d && E.SoundAnchor(p, a)
  {
    var id, a := p.data.entity.entity, p.anchors[0];
    assert EntityOk(s, id, Subject(s, p)) && EntityBacked(d, c, Subject(s, p));
    assert Cat.Reports(c, a.key, a);
    assert Cat.Backs(c.id, d, a.key, c.linked[a.key]);
    var root := DecodeEndpoint(c.linked[a.key].payload).value;
    assert d.dirs[root := d.dirs[root].(synced := true)] == d.dirs;
  }

  function Verified(w: World, p: EntityState): World {
    var key := if p.anchors == [] then NO_RECEIPT.key else p.anchors[0].key;
    var r := Cat.Inspect(w.catalog, w.disk, key, Clean);
    AfterArchive(w, r, {}, StatusReceipts(r.result))
  }

  lemma VerifyStep(w: World, ctx: OperationContext, p: EntityState, uuid: string)
    requires w.source.Opened? && p.anchors != []
    requires Cat.Inspect(w.catalog, w.disk, p.anchors[0].key, Clean).result == Ok(Committed(p.anchors[0]))
    ensures CleanStep(At(w, ctx, p, E.Verify(0)), uuid) == At(Verified(w, p), ctx, p, E.Detach)
  {
    var x, a := At(w, ctx, p, E.Verify(0)), DoInspect(p.anchors[0].key, Env(Clean, uuid));
    assert E.CallOf(x.flow, a.env) == a;
    StepIs(x, uuid, a, E.Detach);
  }

  /** The world after the storage has answered the release. */
  function Answered(w: World, ctx: OperationContext, p: EntityState, uuid: string): World {
    var s, e := Memory(w), Subject(Memory(w), p);
    var next := match Refusal(s, w.disk, e)
                case None => Released(s, ctx, e)
                case Some(error) => Refused(s, ctx, p, error);
    w.(source := Opened(ClearStore(next)), issued := w.issued + {uuid})
  }

  function AnswerTo(w: World, p: EntityState): Result<EntityState> {
    var e := Subject(Memory(w), p);
    match Refusal(Memory(w), w.disk, e)
    case None => Ok(Detach(e).public)
    case Some(error) => Err(error)
  }

  lemma DetachStep(w: World, ctx: OperationContext, p: EntityState, uuid: string)
    requires Healthy(w) && Fresh(Memory(w), ctx) && Current(Memory(w), p) && FreshId(w, uuid)
    requires var e := Subject(Memory(w), p); Present(w.disk, e) && (p.residency.Offline? <==> e.published.None?)
    ensures CleanStep(At(w, ctx, p, E.Detach), uuid) == At(Answered(w, ctx, p, uuid), ctx, p, E.Done(AnswerTo(w, p)))
  {
    ReleaseCall(Handle(w), w.disk, ctx, Subject(Memory(w), p), Env(Clean, uuid));
  }

  lemma SubjectIsPresent(s: State, c: Cat.Catalog, d: Disk, p: EntityState)
    requires Entities(s) && Backed(s, d, c) && Current(s, p)
    ensures var e := Subject(s, p); Present(d, e) && (p.residency.Offline? <==> e.published.None?)
  {
    var id := p.data.entity.entity;
    assert EntityOk(s, id, Subject(s, p)) && EntityBacked(d, c, Subject(s, p));
  }

  /** How the release workflow ends, and what it leaves. NotFound for an unknown entity and Conflict
      for a stale observation or one without anchors, and nothing is recorded; Busy while the data is
      pinned or a copy holds the layout's lock, Conflict for an entity that is Offline already, each
      recorded for good. In every other case it releases: exactly then the entity goes Offline, keeps
      its anchors and queues its layout. */
  predicate Decided(w: World, ctx: OperationContext, p: EntityState, z: Lone) {
    var s, e := Memory(w), Subject(Memory(w), p);
    && z.world.disk == w.disk && z.world.sessions == w.sessions
    && if !Known(s, p) then z.flow.pc == E.Done(Err(NotFound)) && z.world.source == w.source
       else if !Current(s, p) then z.flow.pc == E.Done(Err(Conflict)) && z.world.source == w.source
       else
         match Refusal(s, w.disk, e)
         case Some(error) =>
           z.flow.pc == E.Done(Err(error)) && z.world.source == Opened(ClearStore(Refused(s, ctx, p, error)))
         case None =>
           && z.flow.pc == E.Done(Ok(Detach(e).public))
           && z.world.source == Opened(ClearStore(Released(s, ctx, e)))
  }

  /** The release workflow, run without faults at any healthy moment of any run, whatever copies run
      beside it. */
  lemma ReleaseDecides(w: World, ctx: OperationContext, p: EntityState, uuids: seq<string>)
    requires SystemInv(w) && Healthy(w) && Fresh(Memory(w), ctx) && FreshIds(w, uuids) && 4 <= |uuids|
    ensures Decided(w, ctx, p, Rerun(At(w, ctx, p, E.Ask), uuids))
  {
    if KnownKey(Memory(w), p.data.entity) {
      AskedDecides(w, ctx, p, uuids);
      ObservedDecides(w, ctx, p, uuids[1..]);
    } else {
      UnknownDecides(w, ctx, p, uuids);
    }
  }

  lemma AskedDecides(w: World, ctx: OperationContext, p: EntityState, uuids: seq<string>)
    requires Healthy(w) && Fresh(Memory(w), ctx) && KnownKey(Memory(w), p.data.entity) && uuids != []
    ensures Rerun(At(w, ctx, p, E.Ask), uuids) == Rerun(At(w, ctx, p, E.Observe), uuids[1..])
  {
    AskStep(w, ctx, p, uuids[0]);
    RerunSteps(At(w, ctx, p, E.Ask), uuids, At(w, ctx, p, E.Observe));
  }

  lemma UnknownDecides(w: World, ctx: OperationContext, p: EntityState, uuids: seq<string>)
    requires Healthy(w) && Fresh(Memory(w), ctx) && !KnownKey(Memory(w), p.data.entity) && uuids != []
    ensures Decided(w, ctx, p, Rerun(At(w, ctx, p, E.Ask), uuids))
  {
    AskStep(w, ctx, p, uuids[0]);
    RerunSteps(At(w, ctx, p, E.Ask), uuids, At(w, ctx, p, E.Done(Err(NotFound))));
  }

  lemma ObservedDecides(w: World, ctx: OperationContext, p: EntityState, uuids: seq<string>)
    requires Entities(Memory(w)) && Backed(Memory(w), w.disk, w.catalog) && Cat.CatalogInv(w.catalog, w.disk)
    requires Healthy(w) && Fresh(Memory(w), ctx) && KnownKey(Memory(w), p.data.entity)
    requires 3 <= |uuids| && FreshId(w, uuids[2])
    ensures Decided(w, ctx, p, Rerun(At(w, ctx, p, E.Observe), uuids))
  {
    ObserveStep(w, ctx, p, uuids[0]);
    var y := CleanStep(At(w, ctx, p, E.Observe), uuids[0]);
    RerunSteps(At(w, ctx, p, E.Observe), uuids, y);
    if Current(Memory(w), p) { CurrentDecides(w, ctx, p, uuids[1..]); }
  }

  lemma CurrentDecides(w: World, ctx: OperationContext, p: EntityState, uuids: seq<string>)
    requires Entities(Memory(w)) && Backed(Memory(w), w.disk, w.catalog) && Cat.CatalogInv(w.catalog, w.disk)
    requires Healthy(w) && Fresh(Memory(w), ctx) && Current(Memory(w), p) && 2 <= |uuids| && FreshId(w, uuids[1])
    ensures Decided(w, ctx, p, Rerun(At(w, ctx, p, E.Verify(0)), uuids))
  {
    var w' := Verified(w, p);
    FirstAnchorIsCommitted(Memory(w), w.catalog, w.disk, p);
    VerifyStep(w, ctx, p, uuids[0]);
    RerunSteps(At(w, ctx, p, E.Verify(0)), uuids, At(w', ctx, p, E.Detach));
    SubjectIsPresent(Memory(w), w.catalog, w.disk, p);
    VerifiedDecides(w, w', ctx, p, uuids[1..]);
  }

  lemma VerifiedDecides(w: World, w': World, ctx: OperationContext, p: EntityState, uuids: seq<string>)
    requires w'.source == w.source && w'.disk == w.disk && w'.sessions == w.sessions && Healthy(w)
    requires Fresh(Memory(w), ctx) && Current(Memory(w), p) && uuids != [] && FreshId(w', uuids[0])
    requires var e := Subject(Memory(w), p); Present(w.disk, e) && (p.residency.Offline? <==> e.published.None?)
    ensures Decided(w, ctx, p, Rerun(At(w', ctx, p, E.Detach), uuids))
  {
    DetachStep(w', ctx, p, uuids[0]);
    var z := At(Answered(w', ctx, p, uuids[0]), ctx, p, E.Done(AnswerTo(w', p)));
    RerunSteps(At(w', ctx, p, E.Detach), uuids, z);
    AnswerDecides(w, w', ctx, p, uuids[0]);
  }

  lemma AnswerDecides(w: World, w': World, ctx: OperationContext, p: EntityState, uuid: string)
    requires Current(Memory(w), p) && w'.source == w.source && w'.disk == w.disk && w'.sessions == w.sessions
    ensures Decided(w, ctx, p, At(Answered(w', ctx, p, uuid), ctx, p, E.Done(AnswerTo(w', p))))
  {
  }

  /** Nothing stands against the release of a releasable entity but a lock. */
  lemma NothingRefuses(s: State, d: Disk, e: Entity)
    requires Entities(s) && Releasable(s, e) && !Locked(d, e)
    ensures Refusal(s, d, e) == None
  {
    assert EntityOk(s, e.public.data.entity.entity, e);
  }

  /** An observed, anchored, unpinned entity whose layout no copy holds is released. */
  lemma ReleaseSucceeds(w: World, ctx: OperationContext, e: Entity, uuids: seq<string>)
    requires SystemInv(w) && Healthy(w) && Fresh(Memory(w), ctx) && FreshIds(w, uuids) && 4 <= |uuids|
    requires Releasable(Memory(w), e) && !Locked(w.disk, e)
    ensures var z := Rerun(At(w, ctx, e.public, E.Ask), uuids);
            && z.flow.pc == E.Done(Ok(Detach(e).public))
            && z.world.source == Opened(ClearStore(Released(Memory(w), ctx, e)))
  {
    ReleaseDecides(w, ctx, e.public, uuids);
    assert Refusal(Memory(w), w.disk, e) == None by { NothingRefuses(Memory(w), w.disk, e); }
  }

  // ---------- a release cut off anywhere ----------

  /** A version of the metadata file: before the release, or after it. */
  predicate Version(s: State, ctx: OperationContext, e: Entity, t: State) {
    t == s || t == Released(s, ctx, e)
  }

  /** The file while the release goes on: what is visible is never behind what is durable. */
  predicate FileStands(s: State, ctx: OperationContext, e: Entity, file: Replaceable<State>) {
    Version(s, ctx, e, file.durable) && Version(s, ctx, e, file.visible)
    && (file.durable == s || file.visible == file.durable)
  }

  ghost predicate Stand(s: State, ctx: OperationContext, e: Entity, x: Lone) {
    && Fresh(s, ctx) && Releasable(s, e)
    && x.flow.ctx == ctx && x.flow.job == E.ReleaseJob(e.public)
    && SystemInv(x.world) && E.FlowOk(x.world, x.flow) && Alone(x)
    && FileStands(s, ctx, e, FileOf(x.world.source))
  }

  /** The workflow is called for the first time. */
  ghost predicate Begun(s: State, ctx: OperationContext, e: Entity, x: Lone) {
    && x == At(x.world, ctx, e.public, E.Ask) && SystemInv(x.world) && Healthy(x.world) && Alone(x)
    && Memory(x.world) == s && Fresh(s, ctx) && Releasable(s, e)
  }

  /** The one call of the storage that changes anything. */
  lemma DetachStands(s: State, ctx: OperationContext, e: Entity, st: Store, d: Disk, env: Env)
    requires Fresh(s, ctx) && Releasable(s, e) && HandleOk(Opened(st)) && FileStands(s, ctx, e, st.file)
    requires !Locked(d, e)
    ensures FileStands(s, ctx, e, Call(st, d, ctx, ReleaseData(e.public), env).store.file)
  {
  }

  lemma TakeStands(s: State, ctx: OperationContext, e: Entity, x: Lone, env: Env, transferred: bool)
    requires Fresh(s, ctx) && Releasable(s, e) && x.flow.ctx == ctx && x.flow.job == E.ReleaseJob(e.public)
    requires HandleOk(x.world.source) && Alone(x) && CanTake(x, env)
    requires FileStands(s, ctx, e, FileOf(x.world.source))
    ensures FileStands(s, ctx, e, FileOf(Taken(x, env, transferred).world.source))
  {
    if x.flow.pc.Detach? {
      if SourceLayout(e.published.value) in x.world.disk.dirs { AloneIsFree(x, SourceLayout(e.published.value)); }
      DetachStands(s, ctx, e, Handle(x.world), x.world.disk, env);
      assert E.CallOf(x.flow, env) == DoCall(ctx, ReleaseData(e.public), env);
    } else {
      OnlyDetachWrites(x, env, transferred);
    }
  }

  lemma OnlyDetachWrites(x: Lone, env: Env, transferred: bool)
    requires CanTake(x, env) && x.flow.job.ReleaseJob? && !x.flow.pc.Detach?
    ensures Taken(x, env, transferred).world.source == x.world.source
  {
  }

  lemma TurnStands(s: State, ctx: OperationContext, e: Entity, x: Lone, t: Turn, y: Lone)
    requires Stand(s, ctx, e, x) && LoneNext(x, t, y)
    ensures Stand(s, ctx, e, y)
  {
    TurnKeepsSystem(x, t, y);
    assert Alone(y) by { TurnKeepsAlone(x, t, y); }
    if t.Take? {
      TakeStands(s, ctx, e, x, t.env, t.transferred);
    } else {
      OtherTurnStands(s, ctx, e, x, t, y);
    }
  }

  lemma OtherTurnStands(s: State, ctx: OperationContext, e: Entity, x: Lone, t: Turn, y: Lone)
    requires FileStands(s, ctx, e, FileOf(x.world.source)) && LoneNext(x, t, y) && !t.Take?
    ensures FileStands(s, ctx, e, FileOf(y.world.source)) && y.flow == x.flow.(pc := y.flow.pc)
  {
  }

  lemma BegunStands(s: State, ctx: OperationContext, e: Entity, x: Lone)
    requires Begun(s, ctx, e, x)
    ensures Stand(s, ctx, e, x)
  {
  }

  /** Whatever faults and restarts a release meets, at every moment the metadata on disk is the state
      before it or the state after it, nothing else. */
  lemma HistoryStands(s: State, ctx: OperationContext, e: Entity, xs: seq<Lone>, ts: seq<Turn>, i: nat)
    requires LoneRun(xs, ts) && Begun(s, ctx, e, xs[0]) && i < |xs|
    ensures Stand(s, ctx, e, xs[i])
  {
    BegunStands(s, ctx, e, xs[0]);
    for j := 0 to i
      invariant Stand(s, ctx, e, xs[j])
    {
      TurnStands(s, ctx, e, xs[j], ts[j], xs[j + 1]);
    }
  }

  /** The release is done, once. */
  lemma ReleaseConverges(s: State, ctx: OperationContext, e: Entity, xs: seq<Lone>, ts: seq<Turn>, uuids: seq<string>)
    requires LoneRun(xs, ts) && Begun(s, ctx, e, xs[0])
    requires var x := xs[|ts|]; x.flow.pc.Done? && Healthy(x.world) && FreshIds(x.world, uuids) && 4 <= |uuids|
    ensures var z := Rerun(xs[|ts|].(flow := xs[|ts|].flow.(pc := E.Ask)), uuids);
            && z.flow.pc == E.Done(Ok(Detach(e).public))
            && z.world.source == Opened(ClearStore(Released(s, ctx, e)))
  {
    HistoryStands(s, ctx, e, xs, ts, |ts|);
    StandFacts(s, ctx, e, xs[|ts|]);
    VersionConverges(s, ctx, e, xs[|ts|].world, uuids);
  }

  lemma StandFacts(s: State, ctx: OperationContext, e: Entity, x: Lone)
    requires HandleOk(x.world.source) && Healthy(x.world) && FileStands(s, ctx, e, FileOf(x.world.source))
    requires x.flow.ctx == ctx && x.flow.job == E.ReleaseJob(e.public) && x.flow.pc.Done? && Alone(x)
    ensures !Locked(x.world.disk, e) && Version(s, ctx, e, Memory(x.world))
    ensures x.(flow := x.flow.(pc := E.Ask)) == At(x.world, ctx, e.public, E.Ask)
  {
    assert !Locked(x.world.disk, e) by { NotLocked(x, e); }
  }

  lemma VersionConverges(s: State, ctx: OperationContext, e: Entity, w: World, uuids: seq<string>)
    requires SystemInv(w) && Healthy(w) && Fresh(s, ctx) && Releasable(s, e) && Version(s, ctx, e, Memory(w))
    requires !Locked(w.disk, e) && FreshIds(w, uuids) && 4 <= |uuids|
    ensures var z := Rerun(At(w, ctx, e.public, E.Ask), uuids);
            && z.flow.pc == E.Done(Ok(Detach(e).public))
            && z.world.source == Opened(ClearStore(Released(s, ctx, e)))
  {
    if Memory(w) == s {
      ReleaseSucceeds(w, ctx, e, uuids);
    } else {
      ReleasedAnswers(s, ctx, e, w, uuids);
    }
  }

  lemma NotLocked(x: Lone, e: Entity)
    requires Alone(x) && Copies(x.flow) == {}
    ensures !Locked(x.world.disk, e)
  {
    if Locked(x.world.disk, e) { AloneIsFree(x, SourceLayout(e.published.value)); }
  }

  lemma ReleasedAnswers(s: State, ctx: OperationContext, e: Entity, w: World, uuids: seq<string>)
    requires Fresh(s, ctx) && Releasable(s, e) && Healthy(w) && HandleOk(w.source) && uuids != []
    requires Memory(w) == Released(s, ctx, e)
    ensures var z := Rerun(At(w, ctx, e.public, E.Ask), uuids);
            z.flow.pc == E.Done(Ok(Detach(e).public)) && z.world.source == Opened(ClearStore(Released(s, ctx, e)))
  {
    var x, y := At(w, ctx, e.public, E.Ask), At(w, ctx, e.public, E.Done(Ok(Detach(e).public)));
    StepIs(x, uuids[0], Idle, y.flow.pc);
    RerunSteps(x, uuids, y);
  }
}
