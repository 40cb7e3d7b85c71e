/**
 The archive and recall workflows, called for the first time at a quiet moment and run without
 faults: exactly when each succeeds, and with which error, and leaving what behind, it is refused
 otherwise. Releases does the same for release.
 */
module Decisions {
  import opened Managed
  import opened Files
  import opened SourceState
  import opened SourceInvariants
  import opened System
  import opened Lone
  import E = Engine
  import A = ArchiveRecovery
  import R = RecallRecovery
  import L = Lifecycle
  import Cat = Catalog

  /** No entity, operation, pin or queued layout of the metadata has changed. */
  predicate Untouched(s: State, t: State) {
    t.entities == s.entities && t.completed == s.completed && t.recalls == s.recalls && t.gc == s.gc
  }

  // ---------- recall ----------

  function RecallAt(w: World, ctx: OperationContext, p: EntityState, key: ArchiveKey, pc: E.Pc): Lone {
    Lone(w, E.Flow(ctx, E.RecallJob(p, key), pc))
  }

  predicate FreshRecall(s: State, ctx: OperationContext) {
    && Qualify(ctx).Ok? && ctx.operationId !in s.completed
    && StepKey(ctx, PrepareRecallStep) !in s.steps && StepKey(ctx, CommitRecallStep) !in s.steps
  }

  /** The observation is the entity's state, which is Offline, has an anchor under the key, and is in
      nobody's recall. */
  predicate Recallable(s: State, p: EntityState, key: ArchiveKey) {
    && EntityOf(s, p.data).Ok? && EntityOf(s, p.data).value.public == p && p.residency.Offline?
    && (exists a | a in p.anchors :: a.key == key) && !Recalling(s, p.data)
  }

  /** What the engine finds wrong with the observation by itself. */
  function Misfit(p: EntityState, key: ArchiveKey): Option<HsmError> {
    if !p.residency.Offline? then Some(Conflict)
    else
      match E.FindAnchor(p.anchors, key)
      case None => Some(NotFound)
      case Some(a) => if E.CheckReceipt(a, p.data, key, p.length, p.digest) then None else Some(Integrity)
  }

  function Chosen(p: EntityState, key: ArchiveKey): ArchiveReceipt {
    if E.FindAnchor(p.anchors, key).Some? then E.FindAnchor(p.anchors, key).value else NO_RECEIPT
  }

  /** The first thing that stands against a recall. */
  function RecallRefusal(s: State, c: Cat.Catalog, p: EntityState, key: ArchiveKey): HsmError {
    if !KnownKey(s, p.data.entity) then NotFound
    else if Misfit(p, key).Some? then Misfit(p, key).value
    else if !Cat.OwnKey(c.id, key) then Invalid
    else if key !in c.linked || c.linked[key].receipt != Chosen(p, key) then Integrity
    else if p.data.entity.entity !in s.entities then NotFound
    else if s.entities[p.data.entity.entity].public != p then Conflict
    else Busy
  }

  lemma RecallAsks(w: World, ctx: OperationContext, p: EntityState, key: ArchiveKey, uuid: string)
    requires Healthy(w) && FreshRecall(Memory(w), ctx)
    ensures CleanStep(RecallAt(w, ctx, p, key, E.Ask), uuid)
            == RecallAt(w, ctx, p, key, if !KnownKey(Memory(w), p.data.entity) then E.Done(Err(NotFound))
                                        else if Misfit(p, key).Some? then E.Done(Err(Misfit(p, key).value))
                                        else E.Locate(Chosen(p, key)))
  {
    var x := RecallAt(w, ctx, p, key, E.Ask);
    StepIs(x, uuid, Idle, E.Next(w, x.flow, Env(Clean, uuid), true));
  }

  /** The world after the lookup of the key. */
  function Looked(w: World, key: ArchiveKey): World {
    var r := Cat.Inspect(w.catalog, w.disk, key, Clean);
    AfterArchive(w, r, {}, StatusReceipts(r.result))
  }

  lemma RecallLocates(w: World, ctx: OperationContext, p: EntityState, key: ArchiveKey, a: ArchiveReceipt, uuid: string)
    requires w.source.Opened? && Cat.CatalogInv(w.catalog, w.disk)
    ensures var c := w.catalog;
            CleanStep(RecallAt(w, ctx, p, key, E.Locate(a)), uuid)
            == RecallAt(Looked(w, key), ctx, p, key,
                        if !Cat.OwnKey(c.id, key) then E.Done(Err(Invalid))
                        else if key !in c.linked || c.linked[key].receipt != a then E.Done(Err(Integrity))
                        else E.Reserve(a))
  {
    Cat.LookupAnswers(w.catalog, w.disk, key);
    var x := RecallAt(w, ctx, p, key, E.Locate(a));
    StepIs(x, uuid, DoInspect(key, Env(Clean, uuid)), E.Next(w, x.flow, Env(Clean, uuid), true));
  }

  /** A reservation the source refuses is recorded as such, and nothing else. */
  lemma ReserveRefuses(st: Store, d: Disk, ctx: OperationContext, p: EntityState, a: ArchiveReceipt, env: Env)
    requires !st.poisoned && FreshRecall(st.state, ctx) && env.fault.Clean? && KnownKey(st.state, p.data.entity)
    requires Entities(st.state) && p.residency.Offline? && a in p.anchors && !Recallable(st.state, p, a.key)
    ensures var id := p.data.entity.entity;
            var error := if id !in st.state.entities then NotFound
                         else if st.state.entities[id].public != p then Conflict else Busy;
            var req := PrepareRecall(p, a);
            Call(st, d, ctx, req, env)
            == Called(ClearStore(Record(st.state, KeyOf(ctx, req), SavedStep(req, Err(error)))), d, Err(error))
  {
    if p.data.entity.entity in st.state.entities {
      assert EntityOk(st.state, p.data.entity.entity, st.state.entities[p.data.entity.entity]);
    }
  }

  /** How a recall ends that is refused. */
  predicate RecallRefused(w: World, p: EntityState, key: ArchiveKey, z: Lone) {
    && z.flow.pc == E.Done(Err(RecallRefusal(Memory(w), w.catalog, p, key)))
    && Untouched(Memory(w), Memory(z.world)) && Memory(z.world).views == Memory(w).views && z.world.disk == w.disk
  }

  lemma RefusedByEngine(w: World, ctx: OperationContext, p: EntityState, key: ArchiveKey, uuids: seq<string>)
    requires Healthy(w) && FreshRecall(Memory(w), ctx) && uuids != []
    requires !KnownKey(Memory(w), p.data.entity) || Misfit(p, key).Some?
    ensures RecallRefused(w, p, key, Rerun(RecallAt(w, ctx, p, key, E.Ask), uuids))
  {
    var x := RecallAt(w, ctx, p, key, E.Ask);
    RecallAsks(w, ctx, p, key, uuids[0]);
    RerunSteps(x, uuids, CleanStep(x, uuids[0]));
  }

  lemma RefusedByArchive(w: World, ctx: OperationContext, p: EntityState, key: ArchiveKey, uuids: seq<string>)
    requires Healthy(w) && Cat.CatalogInv(w.catalog, w.disk) && 1 <= |uuids|
    requires KnownKey(Memory(w), p.data.entity) && Misfit(p, key).None?
    requires !Cat.OwnKey(w.catalog.id, key) || key !in w.catalog.linked
             || w.catalog.linked[key].receipt != Chosen(p, key)
    ensures RecallRefused(w, p, key, Rerun(RecallAt(w, ctx, p, key, E.Locate(Chosen(p, key))), uuids))
  {
    var x := RecallAt(w, ctx, p, key, E.Locate(Chosen(p, key)));
    RecallLocates(w, ctx, p, key, Chosen(p, key), uuids[0]);
    RerunSteps(x, uuids, CleanStep(x, uuids[0]));
    Cat.LookupAnswers(w.catalog, w.disk, key);
  }

  lemma RecallReserves(
    w: World, ctx: OperationContext, p: EntityState, key: ArchiveKey, a: ArchiveReceipt, uuid: string)
    requires Healthy(w) && FreshRecall(Memory(w), ctx) && Entities(Memory(w)) && FreshId(w, uuid)
    requires KnownKey(Memory(w), p.data.entity) && p.residency.Offline? && a in p.anchors && a.key == key
    requires !Recallable(Memory(w), p, key)
    ensures var z := CleanStep(RecallAt(w, ctx, p, key, E.Reserve(a)), uuid);
            var id := p.data.entity.entity;
            && z.flow.pc == E.Done(Err(if id !in Memory(w).entities then NotFound
                                       else if Memory(w).entities[id].public != p then Conflict else Busy))
            && Untouched(Memory(w), Memory(z.world)) && Memory(z.world).views == Memory(w).views
            && z.world.disk == w.disk
  {
    var x, env := RecallAt(w, ctx, p, key, E.Reserve(a)), Env(Clean, uuid);
    ReserveRefuses(Handle(w), w.disk, ctx, p, a, env);
    assert E.CallOf(x.flow, env) == DoCall(ctx, PrepareRecall(p, a), env);
    StepIs(x, uuid, DoCall(ctx, PrepareRecall(p, a), env), E.Next(w, x.flow, env, true));
  }

  lemma RefusedBySource(w: World, w': World, ctx: OperationContext, p: EntityState, key: ArchiveKey, uuids: seq<string>)
    requires Healthy(w) && FreshRecall(Memory(w), ctx) && Entities(Memory(w))
    requires w'.source == w.source && w'.disk == w.disk && uuids != [] && FreshId(w', uuids[0])
    requires KnownKey(Memory(w), p.data.entity) && Misfit(p, key).None? && !Recallable(Memory(w), p, key)
    requires Cat.OwnKey(w.catalog.id, key) && key in w.catalog.linked && w.catalog.linked[key].receipt == Chosen(p, key)
    ensures RecallRefused(w, p, key, Rerun(RecallAt(w', ctx, p, key, E.Reserve(Chosen(p, key))), uuids))
  {
    var x := RecallAt(w', ctx, p, key, E.Reserve(Chosen(p, key)));
    RecallReserves(w', ctx, p, key, Chosen(p, key), uuids[0]);
    RerunSteps(x, uuids, CleanStep(x, uuids[0]));
  }

  lemma LocatedRefused(w: World, ctx: OperationContext, p: EntityState, key: ArchiveKey, uuids: seq<string>)
    requires Healthy(w) && FreshRecall(Memory(w), ctx) && Entities(Memory(w)) && Cat.CatalogInv(w.catalog, w.disk)
    requires KnownKey(Memory(w), p.data.entity) && Misfit(p, key).None? && !Recallable(Memory(w), p, key)
    requires 2 <= |uuids| && FreshId(w, uuids[1])
    ensures RecallRefused(w, p, key, Rerun(RecallAt(w, ctx, p, key, E.Locate(Chosen(p, key))), uuids))
  {
    var a, c := Chosen(p, key), w.catalog;
    if Cat.OwnKey(c.id, key) && key in c.linked && c.linked[key].receipt == a {
      RecallLocates(w, ctx, p, key, a, uuids[0]);
      Cat.LookupAnswers(c, w.disk, key);
      RerunSteps(RecallAt(w, ctx, p, key, E.Locate(a)), uuids, RecallAt(Looked(w, key), ctx, p, key, E.Reserve(a)));
      RefusedBySource(w, Looked(w, key), ctx, p, key, uuids[1..]);
    } else {
      RefusedByArchive(w, ctx, p, key, uuids);
    }
  }

  /** A recall succeeds exactly if its observation is current, Offline, anchored under the key and in
      nobody's recall. Otherwise it is refused with the first thing that stands against it, and
      nothing but the refusal itself is recorded. */
  lemma RecallDecides(w: World, op: string, p: EntityState, key: ArchiveKey, uuids: seq<string>)
    returns (layout: string)
    requires L.Quiet(w) && L.Unused(Memory(w), op) && FreshIds(w, uuids) && 7 <= |uuids|
    ensures var z := Rerun(RecallAt(w, Context(op), p, key, E.Ask), uuids);
            if Recallable(Memory(w), p, key)
            then && z.flow.pc == E.Done(Ok(Attached(EntityOf(Memory(w), p.data).value, layout).public))
                 && z.world.source.Opened?
                 && EntityOf(Memory(z.world), p.data) == Ok(Attached(EntityOf(Memory(w), p.data).value, layout))
            else RecallRefused(w, p, key, z)
  {
    layout := "";
    if Recallable(Memory(w), p, key) {
      layout := RecallSucceeds(w, op, p, key, uuids);
    } else if !KnownKey(Memory(w), p.data.entity) || Misfit(p, key).Some? {
      RefusedByEngine(w, Context(op), p, key, uuids);
    } else {
      var x := RecallAt(w, Context(op), p, key, E.Ask);
      RecallAsks(w, Context(op), p, key, uuids[0]);
      RerunSteps(x, uuids, CleanStep(x, uuids[0]));
      LocatedRefused(w, Context(op), p, key, uuids[1..]);
    }
  }

  lemma RecallSucceeds(w: World, op: string, p: EntityState, key: ArchiveKey, uuids: seq<string>)
    returns (layout: string)
    requires L.Quiet(w) && L.Unused(Memory(w), op) && FreshIds(w, uuids) && 7 <= |uuids|
    requires Recallable(Memory(w), p, key)
    ensures var z := Rerun(RecallAt(w, Context(op), p, key, E.Ask), uuids);
            var f := Attached(EntityOf(Memory(w), p.data).value, layout);
            z.flow.pc == E.Done(Ok(f.public)) && z.world.source.Opened? && EntityOf(Memory(z.world), p.data) == Ok(f)
  {
    var e := EntityOf(Memory(w), p.data).value;
    var a :| a in p.anchors && a.key == key;
    var o := R.Operation(Memory(w), Context(op), p, key);
    L.RecallCanBegin(w, e, a, op);
    layout := L.RecallLeg(o, RecallAt(w, Context(op), p, key, E.Ask), uuids);
    L.RecalledFacts(o, layout, e);
  }

  // ---------- archive ----------

  function ArchiveAt(w: World, ctx: OperationContext, data: DataKey, key: ArchiveKey, pc: E.Pc): Lone {
    Lone(w, E.Flow(ctx, E.ArchiveJob(data, key), pc))
  }

  predicate FreshArchive(w: World, ctx: OperationContext, key: ArchiveKey) {
    var s := Memory(w);
    && Qualify(ctx).Ok? && ctx.operationId !in s.completed
    && StepKey(ctx, PrepareArchiveStep) !in s.steps && StepKey(ctx, CommitArchiveStep) !in s.steps
    && Cat.AttemptOf(ctx, key) !in w.catalog.attempts
  }

  function Subject(s: State, data: DataKey): Entity {
    if EntityOf(s, data).Ok? then EntityOf(s, data).value else NOTHING
  }

  /** The source can pin the data: the entity is there, in that generation, published and unpinned. */
  predicate Pinnable(s: State, data: DataKey) {
    EntityOf(s, data).Ok? && Subject(s, data).published.Some? && !Viewed(s, data)
  }

  /** The key is the archive's, and free or taken by just this content. */
  predicate Fitting(s: State, c: Cat.Catalog, data: DataKey, key: ArchiveKey) {
    var p := Subject(s, data).public;
    Cat.OwnKey(c.id, key)
    && (key in c.linked ==> E.CheckReceipt(c.linked[key].receipt, data, key, p.length, p.digest))
  }

  /** The first thing that stands against an archive. */
  function ArchiveRefusal(s: State, c: Cat.Catalog, data: DataKey, key: ArchiveKey): HsmError {
    if EntityOf(s, data).Err? then EntityOf(s, data).error
    else if Subject(s, data).published.None? then Conflict
    else if Viewed(s, data) then Busy
    else if !Cat.OwnKey(c.id, key) then Invalid
    else Integrity
  }

  lemma ArchiveAsks(w: World, ctx: OperationContext, data: DataKey, key: ArchiveKey, uuid: string)
    requires Healthy(w) && FreshArchive(w, ctx, key)
    ensures CleanStep(ArchiveAt(w, ctx, data, key, E.Ask), uuid)
            == ArchiveAt(w, ctx, data, key, if KnownKey(Memory(w), data.entity) then E.Pin else E.Done(Err(NotFound)))
  {
    var x := ArchiveAt(w, ctx, data, key, E.Ask);
    StepIs(x, uuid, Idle, E.Next(w, x.flow, Env(Clean, uuid), true));
  }

  /** What the pin leaves: the view, or the recorded refusal. */
  function AfterPinning(w: World, ctx: OperationContext, data: DataKey, uuid: string): World {
    var r := Call(Handle(w), w.disk, ctx, PrepareArchive(data), Env(Clean, uuid));
    AfterSource(w, r.store, r.disk, {uuid})
  }

  function ViewOf(s: State, data: DataKey, uuid: string): DataView {
    var e := Subject(s, data);
    DataView(data, uuid, e.public.length, e.public.digest,
             Endpoint(if e.published.Some? then SourceLayout(e.published.value) else Absolute("")))
  }

  lemma PinAnswers(st: Store, d: Disk, c: Cat.Catalog, ctx: OperationContext, data: DataKey, key: ArchiveKey, env: Env)
    requires !st.poisoned && env.fault.Clean? && Entities(st.state)
    requires Qualify(ctx).Ok? && StepKey(ctx, PrepareArchiveStep) !in st.state.steps
    ensures var r := Call(st, d, ctx, PrepareArchive(data), env);
            r.result == if Pinnable(st.state, data) then Ok(ViewReply(ViewOf(st.state, data, env.uuid)))
                        else Err(ArchiveRefusal(st.state, c, data, key))
  {
  }

  lemma PinTouchesNothing(st: Store, d: Disk, ctx: OperationContext, data: DataKey, env: Env)
    requires !st.poisoned && env.fault.Clean?
    ensures var r := Call(st, d, ctx, PrepareArchive(data), env);
            !r.store.poisoned && Untouched(st.state, r.store.state) && r.disk == d
  {
  }

  lemma PinDecides(w: World, ctx: OperationContext, data: DataKey, key: ArchiveKey, uuid: string)
    requires Healthy(w) && FreshArchive(w, ctx, key) && Entities(Memory(w)) && FreshId(w, uuid)
    ensures var w' := AfterPinning(w, ctx, data, uuid);
            && CleanStep(ArchiveAt(w, ctx, data, key, E.Pin), uuid)
               == ArchiveAt(w', ctx, data, key,
                            if Pinnable(Memory(w), data) then E.Look(ViewOf(Memory(w), data, uuid))
                            else E.Done(Err(ArchiveRefusal(Memory(w), w.catalog, data, key))))
            && Healthy(w') && Untouched(Memory(w), Memory(w')) && w'.disk == w.disk && w'.catalog == w.catalog
  {
    PinAnswers(Handle(w), w.disk, w.catalog, ctx, data, key, Env(Clean, uuid));
    PinTouchesNothing(Handle(w), w.disk, ctx, data, Env(Clean, uuid));
    var x, a := ArchiveAt(w, ctx, data, key, E.Pin), DoCall(ctx, PrepareArchive(data), Env(Clean, uuid));
    StepIs(x, uuid, a, E.Next(w, x.flow, Env(Clean, uuid), true));
  }

  lemma LookRefuses(w: World, ctx: OperationContext, data: DataKey, key: ArchiveKey, view: DataView, uuid: string)
    requires w.source.Opened? && Cat.CatalogInv(w.catalog, w.disk)
    requires !Cat.OwnKey(w.catalog.id, key)
             || (key in w.catalog.linked
                 && !E.CheckReceipt(w.catalog.linked[key].receipt, data, key, view.length, view.digest))
    ensures CleanStep(ArchiveAt(w, ctx, data, key, E.Look(view)), uuid)
            == ArchiveAt(Looked(w, key), ctx, data, key,
                         E.Done(Err(if Cat.OwnKey(w.catalog.id, key) then Integrity else Invalid)))
  {
    Cat.LookupAnswers(w.catalog, w.disk, key);
    var x := ArchiveAt(w, ctx, data, key, E.Look(view));
    StepIs(x, uuid, DoInspect(key, Env(Clean, uuid)), E.Next(w, x.flow, Env(Clean, uuid), true));
  }

  /** How an archive ends that is refused. */
  predicate ArchiveRefused(w: World, data: DataKey, key: ArchiveKey, z: Lone) {
    && z.flow.pc == E.Done(Err(ArchiveRefusal(Memory(w), w.catalog, data, key)))
    && Untouched(Memory(w), Memory(z.world)) && z.world.disk == w.disk
  }

  lemma UnknownRefused(w: World, ctx: OperationContext, data: DataKey, key: ArchiveKey, uuids: seq<string>)
    requires Healthy(w) && FreshArchive(w, ctx, key) && !KnownKey(Memory(w), data.entity) && uuids != []
    ensures ArchiveRefused(w, data, key, Rerun(ArchiveAt(w, ctx, data, key, E.Ask), uuids))
  {
    var x := ArchiveAt(w, ctx, data, key, E.Ask);
    ArchiveAsks(w, ctx, data, key, uuids[0]);
    RerunSteps(x, uuids, CleanStep(x, uuids[0]));
  }

  lemma PinRefused(w: World, ctx: OperationContext, data: DataKey, key: ArchiveKey, uuids: seq<string>)
    requires Healthy(w) && FreshArchive(w, ctx, key) && Entities(Memory(w)) && Cat.CatalogInv(w.catalog, w.disk)
    requires 2 <= |uuids| && FreshId(w, uuids[0])
    requires !(Pinnable(Memory(w), data) && Fitting(Memory(w), w.catalog, data, key))
    ensures ArchiveRefused(w, data, key, Rerun(ArchiveAt(w, ctx, data, key, E.Pin), uuids))
  {
    var x := ArchiveAt(w, ctx, data, key, E.Pin);
    PinDecides(w, ctx, data, key, uuids[0]);
    RerunSteps(x, uuids, CleanStep(x, uuids[0]));
    if Pinnable(Memory(w), data) {
      var view := ViewOf(Memory(w), data, uuids[0]);
      LookRefused(w, AfterPinning(w, ctx, data, uuids[0]), ctx, data, key, view, uuids[1..]);
    }
  }

  lemma LookRefused(w: World, w': World, ctx: OperationContext, data: DataKey, key: ArchiveKey, view: DataView,
                    uuids: seq<string>)
    requires Healthy(w') && w'.catalog == w.catalog && w'.disk == w.disk && Cat.CatalogInv(w.catalog, w.disk)
    requires Untouched(Memory(w), Memory(w')) && uuids != []
    requires Pinnable(Memory(w), data) && !Fitting(Memory(w), w.catalog, data, key)
    requires view.length == Subject(Memory(w), data).public.length
    requires view.digest == Subject(Memory(w), data).public.digest
    ensures ArchiveRefused(w, data, key, Rerun(ArchiveAt(w', ctx, data, key, E.Look(view)), uuids))
  {
    var y := ArchiveAt(w', ctx, data, key, E.Look(view));
    LookRefuses(w', ctx, data, key, view, uuids[0]);
    Cat.LookupAnswers(w'.catalog, w'.disk, key);
    RerunSteps(y, uuids, CleanStep(y, uuids[0]));
  }

  /** An archive succeeds exactly if the data is published and unpinned and its key is the archive's,
      free or taken by just this content. Otherwise it is refused with the first thing that stands
      against it, and no entity changes; one refused by the archive leaves its view open. */
  lemma ArchiveDecides(w: World, op: string, data: DataKey, key: ArchiveKey, uuids: seq<string>)
      returns (receipt: ArchiveReceipt)
    requires L.Quiet(w) && L.Unused(Memory(w), op) && Cat.AttemptOf(Context(op), key) !in w.catalog.attempts
    requires FreshIds(w, uuids) && 9 <= |uuids|
    ensures var z := Rerun(ArchiveAt(w, Context(op), data, key, E.Ask), uuids);
            var f := Attach(Subject(Memory(w), data), receipt);
            if Pinnable(Memory(w), data) && Fitting(Memory(w), w.catalog, data, key)
            then z.flow.pc == E.Done(Ok(f.public)) && receipt.key == key && receipt.data == data
                 && z.world.source.Opened? && EntityOf(Memory(z.world), data) == Ok(f)
            else ArchiveRefused(w, data, key, z)
  {
    receipt := NO_RECEIPT;
    var x := ArchiveAt(w, Context(op), data, key, E.Ask);
    if Pinnable(Memory(w), data) && Fitting(Memory(w), w.catalog, data, key) {
      receipt := ArchiveSucceeds(w, op, data, key, uuids);
    } else if KnownKey(Memory(w), data.entity) {
      ArchiveAsks(w, Context(op), data, key, uuids[0]);
      RerunSteps(x, uuids, CleanStep(x, uuids[0]));
      PinRefused(w, Context(op), data, key, uuids[1..]);
    } else {
      UnknownRefused(w, Context(op), data, key, uuids);
    }
  }

  lemma ArchiveSucceeds(w: World, op: string, data: DataKey, key: ArchiveKey, uuids: seq<string>)
      returns (receipt: ArchiveReceipt)
    requires L.Quiet(w) && L.Unused(Memory(w), op) && Cat.AttemptOf(Context(op), key) !in w.catalog.attempts
    requires FreshIds(w, uuids) && 9 <= |uuids| && Pinnable(Memory(w), data) && Fitting(Memory(w), w.catalog, data, key)
    ensures var z := Rerun(ArchiveAt(w, Context(op), data, key, E.Ask), uuids);
            var f := Attach(Subject(Memory(w), data), receipt);
            && z.flow.pc == E.Done(Ok(f.public)) && receipt.key == key && receipt.data == data
            && z.world.source.Opened? && EntityOf(Memory(z.world), data) == Ok(f)
  {
    var o := A.Operation(Memory(w), Context(op), data, key);
    var x := ArchiveAt(w, Context(op), data, key, E.Ask);
    FittingIsBegun(w, op, data, key);
    var v;
    v, receipt := L.ArchiveLeg(o, x, uuids);
    AnchoredHasIt(o, v, receipt);
  }

  lemma FittingIsBegun(w: World, op: string, data: DataKey, key: ArchiveKey)
    requires L.Quiet(w) && L.Unused(Memory(w), op) && Cat.AttemptOf(Context(op), key) !in w.catalog.attempts
    requires Pinnable(Memory(w), data) && Fitting(Memory(w), w.catalog, data, key)
    ensures A.Begun(A.Operation(Memory(w), Context(op), data, key), ArchiveAt(w, Context(op), data, key, E.Ask))
  {
    assert key in w.catalog.linked ==> Cat.Backs(w.catalog.id, w.disk, key, w.catalog.linked[key]);
  }

  lemma AnchoredHasIt(o: A.Operation, v: string, receipt: ArchiveReceipt)
    requires A.Given(o) && A.Fits(o, receipt)
    ensures EntityOf(A.StateAt(o, A.Anchored(v, receipt)), o.data) == Ok(Attach(A.Before(o), receipt))
  {
  }
}
