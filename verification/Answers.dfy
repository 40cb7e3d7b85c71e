/**
 What the storage's handle answers, over whole runs: an observation is exactly what the metadata
 records, `completed` exactly what has completed, and after a failed metadata write the handle
 answers nothing more until it is reopened.
 */
module Answers {
  import opened Managed
  import opened Files
  import opened SourceState
  import opened SourceInvariants
  import opened SourceSteps
  import opened System
  import opened SystemSafety
  import opened SystemTheorems
  import opened Engine
  import opened Outcomes

  // ---------- observations ----------

  /** At a healthy moment an observation is the entity's durable record, in every residency, and
      NotFound exactly if there is none. */
  lemma InspectIsTheRecord(w: World, key: EntityKey)
    requires HandleOk(w.source) && Healthy(w)
    ensures var s := FileOf(w.source).durable;
            && (KnownKey(s, key) && key.entity in s.entities ==>
                  Inspect(Handle(w), key) == Ok(s.entities[key.entity].public))
            && (Inspect(Handle(w), key) == Err(NotFound) <==> !KnownKey(s, key) || key.entity !in s.entities)
  {
  }

  /** An entity, once imported, is observed at every later healthy moment, Online, Dual or Offline:
      under its key and with the imported content, at the revision its completed operations have
      brought it to, with the residency its layout shows and with anchors the archive still holds. */
  lemma ImportedIsObserved(ws: seq<World>, acts: seq<Action>, i: nat, j: nat, id: string, bytes: Bytes, env: Env)
      returns (e: Entity)
    requires Run(ws, acts) && i < j < |ws| && acts[i] == DoImport(id, bytes, env) && Healthy(ws[j])
    requires Import(Handle(ws[i]), ws[i].disk, id, bytes, env).result.Ok?
    ensures var data := Import(Handle(ws[i]), ws[i].disk, id, bytes, env).result.value.data;
            var p := e.public;
            && Inspect(Handle(ws[j]), data.entity) == Ok(p) && p.data == data && Content(p) == Measure(bytes)
            && id in FileOf(ws[j].source).durable.entities && FileOf(ws[j].source).durable.entities[id] == e
            && p.revision == 1 + |Operations(FileOf(ws[j].source).durable, data)|
            && (p.residency.Offline? <==> e.published.None?) && (p.residency.Online? <==> p.anchors == [])
            && forall a | a in p.anchors :: ArchiveCopy(ws[j].disk, ws[j].catalog, a, bytes)
  {
    ImportedStays(ws, acts, i, j, id, bytes, env);
    var s := FileOf(ws[j].source).durable;
    e := s.entities[id];
    assert ws[i + 1] == Apply(ws[i], acts[i]);
    ImportIsNeverLost(ws, acts, i, j, id, bytes, env, s);
    HealthyStateSurvives(ws, acts, i + 1, j);
    ImportIsRemembered(ws[i], id, bytes, env);
    RecordIsObserved(ws, acts, j, id);
  }

  lemma ImportIsRemembered(w: World, id: string, bytes: Bytes, env: Env)
    requires Enabled(w, DoImport(id, bytes, env)) && Import(Handle(w), w.disk, id, bytes, env).result.Ok?
    ensures var e := NewEntity(Memory(w), id, env.uuid, bytes);
            var w' := Apply(w, DoImport(id, bytes, env));
            && Import(Handle(w), w.disk, id, bytes, env).result == Ok(e.public)
            && Healthy(w') && id in Memory(w').entities && Memory(w').entities[id] == e
  {
    var touch, next := ImportWrites(Handle(w), w.disk, id, bytes, env);
  }

  lemma RecordIsObserved(ws: seq<World>, acts: seq<Action>, j: nat, id: string)
    requires Run(ws, acts) && j < |ws| && Healthy(ws[j]) && id in FileOf(ws[j].source).durable.entities
    ensures var s := FileOf(ws[j].source).durable;
            var p := s.entities[id].public;
            && Inspect(Handle(ws[j]), p.data.entity) == Ok(p)
            && p.revision == 1 + |Operations(s, p.data)|
            && (p.residency.Offline? <==> s.entities[id].published.None?)
            && (p.residency.Online? <==> p.anchors == [])
  {
    var s := FileOf(ws[j].source).durable;
    assert HandleOk(ws[j].source) && Entities(s) && Revisions(s) by { RunKeepsInv(ws, acts, j); }
    assert EntityOk(s, id, s.entities[id]);
    InspectIsTheRecord(ws[j], s.entities[id].public.data.entity);
  }

  /** Every version of the metadata after an action is one from before it, or `t`. */
  predicate Reveals(w: World, u: World, t: State) {
    && FileOf(u.source).durable in {FileOf(w.source).durable, FileOf(w.source).visible, t}
    && FileOf(u.source).visible in {FileOf(w.source).durable, FileOf(w.source).visible, t}
  }

  /** What an action may write: no entity but the imported one is new, and every completed operation
      is on an entity of this storage. */
  ghost predicate Writes(w: World, a: Action, t: State) {
    && (forall id | id in t.entities :: id in Memory(w).entities || (a.DoImport? && a.id == id))
    && (Located(Memory(w)) ==> Located(t))
  }

  /** Every completed operation is on an entity of this storage. */
  ghost predicate Located(s: State) {
    forall op | op in s.completed :: KnownKey(s, s.completed[op].data.entity)
  }

  /** No entity is new and every completed operation stays on an entity of this storage. */
  ghost predicate AddsNone(s: State, t: State) {
    t.entities.Keys <= s.entities.Keys && (Located(s) ==> Located(t))
  }

  lemma TerminatesAddsNone(s: State, t: State, ctx: OperationContext, req: Request, f: Entity)
    requires Terminates(s, t, ctx, req, f)
    ensures AddsNone(s, t)
  {
  }

  lemma PrepareAddsNone(s: State, d: Disk, ctx: OperationContext, req: Request, env: Env)
    requires !Terminal(NameOf(req))
    ensures AddsNone(s, After(s, d, ctx, req, env))
  {
  }

  lemma AttemptAddsNone(st: Store, d: Disk, ctx: OperationContext, req: Request, env: Env)
    requires Inv(st.state) && Attempted(st, d, ctx, req, env).Some?
    ensures AddsNone(st.state, Attempted(st, d, ctx, req, env).value)
  {
    if Effect(st.state, d, ctx, req, env).result.Ok? {
      if Terminal(NameOf(req)) {
        var f := EffectTerminates(st.state, d, ctx, req, env);
        TerminatesAddsNone(st.state, After(st.state, d, ctx, req, env), ctx, req, f);
      } else {
        PrepareAddsNone(st.state, d, ctx, req, env);
      }
    }
  }

  lemma CallReveals(w: World, ctx: OperationContext, req: Request, env: Env) returns (t: State)
    requires HandleOk(w.source) && Inv(FileOf(w.source).durable) && Possible(w, DoCall(ctx, req, env))
    ensures Reveals(w, Apply(w, DoCall(ctx, req, env)), t) && AddsNone(Memory(w), t)
  {
    t := Memory(w);
    var next := Attempted(Handle(w), w.disk, ctx, req, env);
    CallWrites(Handle(w), w.disk, ctx, req, env);
    if next.Some? {
      t := next.value;
      AttemptAddsNone(Handle(w), w.disk, ctx, req, env);
    }
  }

  lemma ImportReveals(w: World, id: string, bytes: Bytes, env: Env) returns (t: State)
    requires HandleOk(w.source) && Possible(w, DoImport(id, bytes, env))
    ensures Reveals(w, Apply(w, DoImport(id, bytes, env)), t) && Writes(w, DoImport(id, bytes, env), t)
  {
    t := Memory(w);
    var touch, next := ImportWrites(Handle(w), w.disk, id, bytes, env);
    if next.Some? { t := next.value; }
  }

  lemma StepReveals(w: World, a: Action) returns (t: State)
    requires HandleOk(w.source) && Inv(FileOf(w.source).durable) && Possible(w, a)
    ensures Reveals(w, Apply(w, a), t) && Writes(w, a, t)
  {
    t := Memory(w);
    match a
    case DoImport(id, bytes, env) => t := ImportReveals(w, id, bytes, env);
    case DoCall(ctx, req, env) => t := CallReveals(w, ctx, req, env);
    case DoCollect(env) => t := CollectReveals(w, env);
    case _ => OthersReveal(w, a, t);
  }

  lemma CollectReveals(w: World, env: Env) returns (t: State)
    requires HandleOk(w.source) && Possible(w, DoCollect(env))
    ensures Reveals(w, Apply(w, DoCollect(env)), t) && AddsNone(Memory(w), t)
  {
    t := Memory(w).(gc := []);
  }

  lemma OthersReveal(w: World, a: Action, t: State)
    requires !a.DoImport? && !a.DoCall? && !a.DoCollect?
    ensures Reveals(w, Apply(w, a), t)
  {
  }

  /** Whatever is observed was imported: NotFound is the answer to every key of another storage or
      namespace, and to every ID nobody has imported. */
  lemma ObservedWasImported(ws: seq<World>, acts: seq<Action>, j: nat, key: EntityKey)
    requires Run(ws, acts) && j < |ws| && Healthy(ws[j])
    ensures Inspect(Handle(ws[j]), key) != Err(NotFound) ==>
              && KnownKey(FileOf(ws[0].source).durable, key)
              && exists i | 0 <= i < j :: acts[i].DoImport? && acts[i].id == key.entity
  {
    assert HandleOk(ws[j].source) by { RunKeepsInv(ws, acts, j); }
    InspectIsTheRecord(ws[j], key);
    if Inspect(Handle(ws[j]), key) != Err(NotFound) {
      RunGrows(ws, acts, 0, j);
      EntitiesWereImported(ws, acts, j, key.entity);
    }
  }

  /** Some version of the metadata file has the entity. */
  predicate Shown(w: World, id: string) {
    id in FileOf(w.source).durable.entities || id in FileOf(w.source).visible.entities
  }

  lemma ShownWasShownOrImported(w: World, a: Action, id: string)
    requires HandleOk(w.source) && Inv(FileOf(w.source).durable) && Possible(w, a) && Shown(Apply(w, a), id)
    ensures Shown(w, id) || (a.DoImport? && a.id == id)
  {
    var t := StepReveals(w, a);
  }

  lemma {:induction false} EntitiesWereImported(ws: seq<World>, acts: seq<Action>, j: nat, id: string)
    requires Run(ws, acts) && j < |ws|
    requires Shown(ws[j], id)
    ensures exists i | 0 <= i < j :: acts[i].DoImport? && acts[i].id == id
  {
    if j > 0 {
      var w := ws[j - 1];
      assert HandleOk(w.source) && Inv(FileOf(w.source).durable) by { RunKeepsInv(ws, acts, j - 1); }
      ShownWasShownOrImported(w, acts[j - 1], id);
      if Shown(w, id) {
        EntitiesWereImported(ws, acts, j - 1, id);
      }
    }
  }

  // ---------- imports and reads ----------

  /** A clean import, at any healthy moment, takes exactly the nonempty IDs that are not taken; it
      refuses a taken one as Conflict and leaves its entity alone. */
  lemma ImportDecides(w: World, id: string, bytes: Bytes, uuid: string)
    requires SystemInv(w) && Healthy(w) && FreshId(w, uuid)
    ensures var r := Import(Handle(w), w.disk, id, bytes, Env(Clean, uuid));
            && (r.result.Ok? <==> id != "" && id !in Memory(w).entities)
            && (r.result == Err(Conflict) <==> id != "" && id in Memory(w).entities)
            && (r.result.Err? ==> r.store == Handle(w) && r.disk == w.disk)
  {
    assert SourceLayout(uuid) in w.disk.dirs ==> PathIssued(SourceLayout(uuid), w.issued);
  }

  /** A clean read, at any healthy moment: the bytes of every entity that is not Offline, Conflict
      for exactly those that are, NotFound for every key without an entity. */
  lemma ReadDecides(w: World, key: EntityKey)
    requires SystemInv(w) && Healthy(w)
    ensures var s, r := Memory(w), Read(Handle(w), w.disk, key, Clean);
            && (r == Err(NotFound) <==> !KnownKey(s, key) || key.entity !in s.entities)
            && (KnownKey(s, key) && key.entity in s.entities ==>
                  var p := s.entities[key.entity].public;
                  if p.residency.Offline? then r == Err(Conflict) else r.Ok? && Measure(r.value) == Content(p))
  {
    RecordIsRead(w, key);
  }

  lemma RecordIsRead(w: World, key: EntityKey)
    requires Healthy(w) && Entities(Memory(w)) && Backed(Memory(w), w.disk, w.catalog)
    ensures var s, r := Memory(w), Read(Handle(w), w.disk, key, Clean);
            && (r == Err(NotFound) <==> !KnownKey(s, key) || key.entity !in s.entities)
            && (KnownKey(s, key) && key.entity in s.entities ==>
                  var p := s.entities[key.entity].public;
                  if p.residency.Offline? then r == Err(Conflict) else r.Ok? && Measure(r.value) == Content(p))
  {
    var s := Memory(w);
    if key.entity in s.entities {
      assert EntityOk(s, key.entity, s.entities[key.entity]);
      assert EntityBacked(w.disk, w.catalog, s.entities[key.entity]);
    }
  }

  // ---------- outcomes ----------

  /** `completed`, at a healthy moment: the recorded state exactly to the operation that has
      completed, None exactly while the ID is unused, and Conflict to any other use of it. */
  lemma CompletedIsTheRecord(w: World, op: string, data: DataKey, action: ManagedAction, state: EntityState)
    requires HandleOk(w.source) && Healthy(w) && op != "" && Ledger(FileOf(w.source).durable)
    ensures var s := FileOf(w.source).durable;
            var r := QueryCompleted(Handle(w), Context(op), data, action);
            && (!KnownKey(s, data.entity) <==> r == Err(NotFound))
            && (KnownKey(s, data.entity) ==>
                  && (r == Ok(None) <==> op !in s.completed)
                  && (r == Ok(Some(state)) <==>
                        op in s.completed && s.completed[op] == Completed(Context(op), data, action, state))
                  && (r == Err(Conflict) <==>
                        op in s.completed && (s.completed[op].data != data || s.completed[op].action != action)))
  {
    assert op in FileOf(w.source).durable.completed ==> CompletedOk(FileOf(w.source).durable, op);
  }

  ghost predicate SystemLocated(w: World) {
    Located(FileOf(w.source).durable) && Located(FileOf(w.source).visible)
  }

  lemma RunLocates(ws: seq<World>, acts: seq<Action>, i: nat)
    requires Run(ws, acts) && i < |ws|
    ensures SystemLocated(ws[i])
  {
    for k := 0 to i
      invariant SystemLocated(ws[k])
    {
      assert HandleOk(ws[k].source) && Inv(FileOf(ws[k].source).durable) by { RunKeepsInv(ws, acts, k); }
      var t := StepReveals(ws[k], acts[k]);
    }
  }

  /** Once a workflow has ended well, `completed` answers its operation with that state, at every
      later healthy moment and to whoever asks. */
  lemma OutcomeIsAnswered(cs: seq<Cluster>, es: seq<Event>, i: nat, j: nat, pid: string, state: EntityState)
    requires ClusterRun(cs, es) && cs[0].world.catalog.id != "" && i <= j < |cs| && Healthy(cs[j].world)
    requires pid in cs[i].flows && cs[i].flows[pid].pc == Done(Ok(state))
    ensures var f := cs[i].flows[pid];
            QueryCompleted(Handle(cs[j].world), f.ctx, JobData(f.job), JobAction(f.job)) == Ok(Some(state))
  {
    var f, w := cs[i].flows[pid], cs[j].world;
    assert CompletedIn(FileOf(cs[i].world.source).durable, f.ctx, f.job, state) by { OutcomesHold(cs, es, i); }
    ClusterRefinesSystem(cs, es);
    RunGrows(Worlds(cs), Actions(cs, es), i, j);
    RunLocates(Worlds(cs), Actions(cs, es), j);
    assert HandleOk(w.source) && Ledger(FileOf(w.source).durable) by { RunKeepsInv(Worlds(cs), Actions(cs, es), j); }
    CompletedIsAnswered(w, f.ctx, f.job, state);
  }

  lemma CompletedIsAnswered(w: World, ctx: OperationContext, job: Job, state: EntityState)
    requires HandleOk(w.source) && Healthy(w) && Located(FileOf(w.source).durable) && Ledger(FileOf(w.source).durable)
    requires CompletedIn(FileOf(w.source).durable, ctx, job, state)
    ensures QueryCompleted(Handle(w), ctx, JobData(job), JobAction(job)) == Ok(Some(state))
  {
    var op := ctx.operationId;
    var k := StepKey(Context(op), TerminalName(JobAction(job)));
    assert CompletedOk(FileOf(w.source).durable, op);
    assert SavedOk(k, FileOf(w.source).durable.steps[k]);
  }

  lemma OutcomesHold(cs: seq<Cluster>, es: seq<Event>, i: nat)
    requires ClusterRun(cs, es) && cs[0].world.catalog.id != "" && i < |cs|
    ensures OutcomeInv(cs[i])
  {
    FirstOutcomesHold(cs[0]);
    for k := 0 to i
      invariant OutcomeInv(cs[k])
    {
      ClusterStepKeepsOutcomes(cs[k], es[k], cs[k + 1]);
    }
  }

  lemma FirstOutcomesHold(c: Cluster)
    requires Init(c.world) && c.flows == map[] && c.world.catalog.id != ""
    ensures OutcomeInv(c)
  {
    InitEstablishesInv(c.world);
  }

  // ---------- a failed metadata write ----------

  /** The handle answers every call and every question with an error, and none changes anything. */
  ghost predicate Silent(st: Store, d: Disk) {
    && (forall ctx, req, env :: Call(st, d, ctx, req, env).result.Err? && Call(st, d, ctx, req, env).store == st)
    && (forall id, bytes, env ::
          Import(st, d, id, bytes, env).result.Err? && Import(st, d, id, bytes, env).store == st)
    && (forall fault :: CollectGarbage(st, d, fault) == Collected(st, d, Err(HsmError.Unknown)))
    && (forall key :: Inspect(st, key) == Err(HsmError.Unknown))
    && (forall key, fault :: Read(st, d, key, fault) == Err(HsmError.Unknown))
    && (forall ctx, data, action :: QueryCompleted(st, ctx, data, action).Err?)
  }

  /** An action of the storage, its write of the metadata file failing as `fault` says, or not. */
  function Meeting(a: Action, fault: Fault): Action {
    match a
    case DoImport(id, bytes, env) => DoImport(id, bytes, env.(fault := fault))
    case DoCall(ctx, req, env) => DoCall(ctx, req, env.(fault := fault))
    case DoCollect(env) => DoCollect(env.(fault := fault))
    case _ => a
  }

  predicate WriteFails(a: Action) {
    match a
    case DoImport(_, _, env) => env.fault.PersistFault?
    case DoCall(_, _, env) => env.fault.PersistFault?
    case DoCollect(env) => env.fault.PersistFault?
    case _ => false
  }

  /** The answer such an action gets is an error. */
  predicate AnsweredErr(w: World, a: Action) {
    match a
    case DoImport(id, bytes, env) => Import(Handle(w), w.disk, id, bytes, env).result.Err?
    case DoCall(ctx, req, env) => Call(Handle(w), w.disk, ctx, req, env).result.Err?
    case DoCollect(env) => CollectGarbage(Handle(w), w.disk, env.fault).result.Err?
    case _ => false
  }

  lemma EffectMeetsNoPersistFault(s: State, d: Disk, ctx: OperationContext, req: Request, env: Env)
    requires env.fault.PersistFault?
    ensures Effect(s, d, ctx, req, env) == Effect(s, d, ctx, req, env.(fault := Clean))
  {
  }

  lemma {:induction false} RemovalMeetsNoPersistFault(d: Disk, layouts: seq<string>, at: nat, fault: Fault)
    requires fault.PersistFault?
    ensures RemoveAll(d, layouts, at, fault) == RemoveAll(d, layouts, at, Clean)
    decreases layouts
  {
    if layouts != [] {
      RemovalMeetsNoPersistFault(RemoveOne(d, layouts[0], false, fault).0, layouts[1..], at + 1, fault);
    }
  }

  /** The metadata file would be written: the memory would change, or a collection would succeed. */
  ghost predicate WouldWrite(w: World, a: Action) {
    || Memory(Apply(w, Meeting(a, Clean))) != Memory(w)
    || (a.DoCollect? && CollectGarbage(Handle(w), w.disk, Clean).result.Ok?)
  }

  lemma FailedCallsSilence(st: Store, d: Disk, ctx: OperationContext, req: Request, env: Env)
    requires !st.poisoned
    ensures var r := Call(st, d, ctx, req, env);
            && (r.store.poisoned <==>
                  env.fault.PersistFault? && Call(st, d, ctx, req, env.(fault := Clean)).store.state != st.state)
            && (r.store.poisoned ==> r.result.Err?)
  {
    if env.fault.PersistFault? { EffectMeetsNoPersistFault(st.state, d, ctx, req, env); }
  }

  lemma FailedImportsSilence(st: Store, d: Disk, id: string, bytes: Bytes, env: Env)
    requires !st.poisoned
    ensures var r := Import(st, d, id, bytes, env);
            && (r.store.poisoned <==>
                  env.fault.PersistFault? && Import(st, d, id, bytes, env.(fault := Clean)).store.state != st.state)
            && (r.store.poisoned ==> r.result.Err?)
  {
  }

  lemma FailedCollectionsSilence(st: Store, d: Disk, fault: Fault)
    requires !st.poisoned
    ensures var r, clean := CollectGarbage(st, d, fault), CollectGarbage(st, d, Clean);
            && (r.store.poisoned <==> fault.PersistFault? && clean.result.Ok?)
            && (r.store.poisoned ==> r.result.Err?) && (clean.store.state != st.state ==> clean.result.Ok?)
  {
    if fault.PersistFault? { RemovalMeetsNoPersistFault(d, st.state.gc, 0, fault); }
  }

  /** A failed write of the metadata file silences the handle, and nothing else does: no other
      failure, no refusal and no action of anybody else. */
  lemma FailedWritesSilence(w: World, a: Action)
    requires Healthy(w) && Possible(w, a) && Apply(w, a).source.Opened?
    ensures Handle(Apply(w, a)).poisoned <==> WriteFails(a) && WouldWrite(w, a)
    ensures Handle(Apply(w, a)).poisoned ==> AnsweredErr(w, a)
  {
    match a
    case DoCall(ctx, req, env) => FailedCallsSilence(Handle(w), w.disk, ctx, req, env);
    case DoImport(id, bytes, env) => FailedImportsSilence(Handle(w), w.disk, id, bytes, env);
    case DoCollect(env) => FailedCollectionsSilence(Handle(w), w.disk, env.fault);
    case _ =>
  }

  lemma StaysSilent(w: World, a: Action)
    requires Handle(w).poisoned && !a.Reopen?
    ensures Handle(Apply(w, a)).poisoned
  {
  }

  /** Where a call, an import or a collection would have changed the metadata and the write of the
      metadata file fails, before the rename or after it, the caller gets an error and the handle
      is silent at every later moment until the storage is reopened. */
  lemma SilentUntilReopened(ws: seq<World>, acts: seq<Action>, i: nat, j: nat)
    requires Run(ws, acts) && i < j < |ws| && Healthy(ws[i]) && WriteFails(acts[i])
    requires WouldWrite(ws[i], acts[i])
    requires forall k | i < k < j :: !acts[k].Reopen?
    ensures AnsweredErr(ws[i], acts[i])
    ensures !Healthy(ws[j]) && Silent(Handle(ws[j]), ws[j].disk)
  {
    FailedWritesSilence(ws[i], acts[i]);
    for k := i + 1 to j
      invariant Handle(ws[k]).poisoned
    {
      StaysSilent(ws[k], acts[k]);
    }
  }
}
