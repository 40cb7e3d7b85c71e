/**
 What the system invariant means over whole runs: no data is lost, reads return what was
 imported, acknowledged results survive, the archive agrees with itself, revisions never repeat.
 */
module SystemTheorems {
  import opened Managed
  import opened Files
  import opened SourceState
  import opened SourceInvariants
  import opened SourceSteps
  import opened System
  import opened SystemSafety
  import Cat = Catalog

  ghost predicate Run(ws: seq<World>, acts: seq<Action>) {
    && |ws| == |acts| + 1
    && Init(ws[0])
    && forall i {:trigger acts[i]} | 0 <= i < |acts| :: Enabled(ws[i], acts[i]) && ws[i + 1] == Apply(ws[i], acts[i])
  }

  lemma {:induction false} RunKeepsInv(ws: seq<World>, acts: seq<Action>, i: nat)
    requires Run(ws, acts) && i < |ws|
    ensures SystemInv(ws[i])
  {
    if i == 0 {
      InitEstablishesInv(ws[0]);
    } else {
      RunKeepsInv(ws, acts, i - 1);
      StepKeepsInv(ws[i - 1], acts[i - 1]);
    }
  }

  // ---------- no data loss ----------

  predicate HoldsBytes(d: Disk, p: Path, bytes: Bytes) {
    p in d.dirs && d.dirs[p].seal.SealDurable? && d.dirs[p].synced && d.dirs[p].data == Some(bytes)
  }

  predicate OnlineCopy(d: Disk, e: Entity, bytes: Bytes) {
    e.published.Some? && HoldsBytes(d, SourceLayout(e.published.value), bytes)
  }

  predicate ArchiveCopy(d: Disk, c: Cat.Catalog, a: ArchiveReceipt, bytes: Bytes) {
    && a.key in c.durable && c.durable[a.key].receipt == a
    && DecodeEndpoint(c.durable[a.key].payload).Ok?
    && HoldsBytes(d, DecodeEndpoint(c.durable[a.key].payload).value, bytes)
  }

  /** The bytes are held durably: by the published layout, if the entity has one, and by the
      committed archive payload of every anchor; and there is at least one of the two. */
  predicate Held(w: World, e: Entity, bytes: Bytes) {
    && Measure(bytes) == Content(e.public)
    && (e.published.Some? ==> OnlineCopy(w.disk, e, bytes))
    && (forall a | a in e.public.anchors :: ArchiveCopy(w.disk, w.catalog, a, bytes))
    && (e.published.Some? || e.public.anchors != [])
  }

  function PayloadOf(d: Disk, p: Path): Bytes {
    if p in d.dirs && d.dirs[p].data.Some? then d.dirs[p].data.value else []
  }

  lemma FrozenHoldsBytes(d: Disk, p: Path, e: TransferEvidence, bytes: Bytes)
    requires Frozen(d, p, e) && Measure(bytes) == e
    ensures HoldsBytes(d, p, bytes)
  {
    DigestIsInjective(d.dirs[p].data.value, bytes);
  }

  lemma AnchorHolds(w: World, s: State, id: string, a: ArchiveReceipt)
    requires Cat.CatalogInv(w.catalog, w.disk) && Entities(s) && Backed(s, w.disk, w.catalog)
    requires id in s.entities && a in s.entities[id].public.anchors
    ensures a.key in w.catalog.durable && w.catalog.durable[a.key].receipt == a
    ensures DecodeEndpoint(w.catalog.durable[a.key].payload).Ok?
    ensures Frozen(w.disk, DecodeEndpoint(w.catalog.durable[a.key].payload).value, Content(s.entities[id].public))
  {
    var e := s.entities[id];
    assert EntityOk(s, id, e) && EntityBacked(w.disk, w.catalog, e);
    assert Cat.Reports(w.catalog, a.key, a);
    assert Cat.Backs(w.catalog.id, w.disk, a.key, w.catalog.linked[a.key]);
    var i :| 0 <= i < |e.public.anchors| && e.public.anchors[i] == a;
    assert Binds(e.public.anchors[i], e.public);
  }

  /** No metadata a restart can reveal names an entity whose bytes are gone. */
  lemma NothingIsLost(w: World, s: State, id: string) returns (bytes: Bytes)
    requires SystemInv(w) && (s == FileOf(w.source).durable || s == FileOf(w.source).visible)
    requires id in s.entities
    ensures Held(w, s.entities[id], bytes)
  {
    var e := s.entities[id];
    assert EntityOk(s, id, e) && EntityBacked(w.disk, w.catalog, e);
    if e.published.Some? {
      bytes := PayloadOf(w.disk, SourceLayout(e.published.value));
    } else {
      var a := e.public.anchors[0];
      AnchorHolds(w, s, id, a);
      bytes := PayloadOf(w.disk, DecodeEndpoint(w.catalog.durable[a.key].payload).value);
    }
    forall a | a in e.public.anchors ensures ArchiveCopy(w.disk, w.catalog, a, bytes) {
      AnchorHolds(w, s, id, a);
      FrozenHoldsBytes(w.disk, DecodeEndpoint(w.catalog.durable[a.key].payload).value, Content(e.public), bytes);
    }
  }

  // ---------- history ----------

  /** The part of the invariant that the source metadata's history needs. */
  ghost predicate SourceInv(w: World) {
    && HandleOk(w.source)
    && Inv(FileOf(w.source).durable) && Named(FileOf(w.source).durable, w.issued)
    && Evolves(FileOf(w.source).durable, FileOf(w.source).visible)
  }

  lemma CallFileEvolves(st: Store, d: Disk, ctx: OperationContext, req: Request, env: Env)
    requires HandleOk(Opened(st)) && Inv(st.state) && FreshFor(st.state, env.uuid)
    ensures Evolves(st.file.durable, Call(st, d, ctx, req, env).store.file.durable)
  {
    EvolvesReflexive(st.file.durable);
    CallWrites(st, d, ctx, req, env);
    if Attempted(st, d, ctx, req, env).Some? {
      AttemptedKeepsInv(st, d, ctx, req, env);
    }
  }

  lemma CallAdvances(w: World, ctx: OperationContext, req: Request, env: Env)
    requires SourceInv(w) && Enabled(w, DoCall(ctx, req, env))
    ensures Evolves(FileOf(w.source).durable, FileOf(Apply(w, DoCall(ctx, req, env)).source).durable)
  {
    FreshIdIsFresh(Memory(w), w, env.uuid);
    CallFileEvolves(Handle(w), w.disk, ctx, req, env);
  }

  lemma ImportFileEvolves(st: Store, d: Disk, id: string, bytes: Bytes, env: Env)
    requires HandleOk(Opened(st)) && Inv(st.state) && FreshFor(st.state, env.uuid)
    ensures Evolves(st.file.durable, Import(st, d, id, bytes, env).store.file.durable)
  {
    EvolvesReflexive(st.file.durable);
    var touch, next := ImportWrites(st, d, id, bytes, env);
    if next.Some? {
      ImportKeepsInv(st.state, id, env.uuid, bytes);
    }
  }

  lemma ImportAdvances(w: World, id: string, bytes: Bytes, env: Env)
    requires SourceInv(w) && Enabled(w, DoImport(id, bytes, env))
    ensures Evolves(FileOf(w.source).durable, FileOf(Apply(w, DoImport(id, bytes, env)).source).durable)
  {
    FreshIdIsFresh(Memory(w), w, env.uuid);
    ImportFileEvolves(Handle(w), w.disk, id, bytes, env);
  }

  lemma CollectAdvances(w: World, env: Env)
    requires SourceInv(w) && Enabled(w, DoCollect(env))
    ensures Evolves(FileOf(w.source).durable, FileOf(Apply(w, DoCollect(env)).source).durable)
  {
    EvolvesReflexive(FileOf(w.source).durable);
    if !Handle(w).poisoned {
      CollectKeepsInv(Memory(w));
      var d', persisted := CollectShape(w, env);
    }
  }

  lemma StepAdvances(w: World, a: Action)
    requires SourceInv(w) && Enabled(w, a)
    ensures Evolves(FileOf(w.source).durable, FileOf(Apply(w, a).source).durable)
  {
    match a
    case DoImport(id, bytes, env) => ImportAdvances(w, id, bytes, env);
    case DoCall(ctx, req, env) => CallAdvances(w, ctx, req, env);
    case DoCollect(env) => CollectAdvances(w, env);
    case _ =>
      EvolvesReflexive(FileOf(w.source).durable);
  }

  lemma StepKeepsReports(w: World, a: Action)
    requires Cat.CatalogInv(w.catalog, w.disk) && Enabled(w, a)
    ensures w.reported <= Apply(w, a).reported && Extends(w.catalog.durable, Apply(w, a).catalog.durable)
  {
    if a.DoInspect? || a.DoPrepare? || a.DoCommit? || a.DoResume? || a.DoOpen? {
      var m, uuid, receipts := ArchiveCallMoves(w, a);
      Cat.MoveSound(w.catalog, w.disk, m);
    }
  }

  /** What a run only adds to: the metadata's history, the receipts reported, the archive's links. */
  ghost predicate Grows(w: World, u: World) {
    && Evolves(FileOf(w.source).durable, FileOf(u.source).durable)
    && w.reported <= u.reported && Extends(w.catalog.durable, u.catalog.durable)
  }

  lemma RunGrows(ws: seq<World>, acts: seq<Action>, i: nat, j: nat)
    requires Run(ws, acts) && i <= j < |ws|
    ensures Grows(ws[i], ws[j])
  {
    EvolvesReflexive(FileOf(ws[i].source).durable);
    for k := i to j
      invariant Grows(ws[i], ws[k])
    {
      RunKeepsInv(ws, acts, k);
      StepAdvances(ws[k], acts[k]);
      StepKeepsReports(ws[k], acts[k]);
      var u := ws[k + 1];
      EvolvesTransitive(FileOf(ws[i].source).durable, FileOf(ws[k].source).durable, FileOf(u.source).durable);
      ExtendsTransitive(ws[i].catalog.durable, ws[k].catalog.durable, u.catalog.durable);
    }
  }

  /** What a healthy handle knew stays true of everything any later restart can reveal. */
  lemma HealthyStateSurvives(ws: seq<World>, acts: seq<Action>, i: nat, j: nat)
    requires Run(ws, acts) && i <= j < |ws| && Healthy(ws[i])
    ensures Evolves(Memory(ws[i]), FileOf(ws[j].source).durable)
    ensures Evolves(Memory(ws[i]), FileOf(ws[j].source).visible)
    ensures Healthy(ws[j]) ==> Evolves(Memory(ws[i]), Memory(ws[j]))
  {
    RunGrows(ws, acts, i, j);
    RunKeepsInv(ws, acts, i);
    RunKeepsInv(ws, acts, j);
    EvolvesTransitive(Memory(ws[i]), FileOf(ws[j].source).durable, FileOf(ws[j].source).visible);
  }

  /** Whatever a call answered is what every later call of that step answers, crashes or not:
      the saved result to the same request, Conflict to another. */
  lemma AnswersAreForever(ws: seq<World>, acts: seq<Action>, i: nat, j: nat, ctx: OperationContext, req: Request,
                          env: Env)
    requires Run(ws, acts) && i <= j < |ws| && Healthy(ws[i]) && Healthy(ws[j]) && Qualify(ctx).Ok?
    requires KeyOf(ctx, req) in Memory(ws[i]).steps
    ensures var saved := Memory(ws[i]).steps[KeyOf(ctx, req)];
            var again := Call(Handle(ws[j]), ws[j].disk, ctx, req, env);
            && again.result == (if req == saved.request then saved.result else Err(Conflict))
            && again.store == Handle(ws[j]) && again.disk == ws[j].disk
  {
    HealthyStateSurvives(ws, acts, i, j);
  }

  /** The operation has its view and its commit_archive is saved as a definite failure. */
  predicate ArchiveRefused(s: State, ctx: OperationContext, view: DataView) {
    var p, c := StepKey(ctx, PrepareArchiveStep), StepKey(ctx, CommitArchiveStep);
    p in s.steps && s.steps[p].result == Ok(ViewReply(view)) && c in s.steps && s.steps[c].result.Err?
  }

  predicate RecallRefused(s: State, ctx: OperationContext, target: RecallTarget) {
    var p, c := StepKey(ctx, PrepareRecallStep), StepKey(ctx, CommitRecallStep);
    p in s.steps && s.steps[p].result == Ok(TargetReply(target)) && c in s.steps && s.steps[c].result.Err?
  }

  lemma RefusedStaysOpen(s: State, t: State, ctx: OperationContext, view: DataView, target: RecallTarget)
    requires PinLedger(t) && Extends(s.steps, t.steps)
    ensures ArchiveRefused(s, ctx, view) ==> view.viewId in t.views && t.views[view.viewId] == ViewOwner(ctx, view)
    ensures RecallRefused(s, ctx, target) ==>
              target.layoutId in t.recalls && t.recalls[target.layoutId].target == target
  {
    var v, l := StepKey(ctx, PrepareArchiveStep), StepKey(ctx, PrepareRecallStep);
    assert v in t.steps ==> ViewAccounted(t, v);
    assert l in t.steps ==> RecallAccounted(t, l);
  }

  /** A refused commit pins for good. Once an operation's commit_archive, or commit_recall, is saved
      as a definite failure (a Busy transfer lock is enough), its view, or recall, is open in
      everything any later restart can reveal: prepare_archive and release, or prepare_recall, of
      the data stay Busy for every other operation. */
  lemma RefusedCommitPinsForGood(ws: seq<World>, acts: seq<Action>, i: nat, j: nat, ctx: OperationContext,
                                 view: DataView, target: RecallTarget, t: State)
    requires Run(ws, acts) && i <= j < |ws| && Healthy(ws[i])
    requires t == FileOf(ws[j].source).durable || t == FileOf(ws[j].source).visible
    ensures ArchiveRefused(Memory(ws[i]), ctx, view) ==>
              view.viewId in t.views && t.views[view.viewId] == ViewOwner(ctx, view) && Viewed(t, view.data)
    ensures RecallRefused(Memory(ws[i]), ctx, target) ==>
              target.layoutId in t.recalls && t.recalls[target.layoutId].target == target && Recalling(t, target.data)
  {
    HealthyStateSurvives(ws, acts, i, j);
    assert PinLedger(t) by { RunKeepsInv(ws, acts, j); }
    RefusedStaysOpen(Memory(ws[i]), t, ctx, view, target);
  }

  /** Two observations of an entity at the same revision are the same observation. */
  lemma RevisionsNeverRepeat(ws: seq<World>, acts: seq<Action>, i: nat, j: nat, key: EntityKey)
    requires Run(ws, acts) && i <= j < |ws|
    requires ws[i].source.Opened? && ws[j].source.Opened?
    requires Inspect(Handle(ws[i]), key).Ok? && Inspect(Handle(ws[j]), key).Ok?
    ensures var p, q := Inspect(Handle(ws[i]), key).value, Inspect(Handle(ws[j]), key).value;
            && SameContent(p, q) && p.revision <= q.revision && p.anchors <= q.anchors
            && (p.revision == q.revision ==> p == q)
            && q.revision - p.revision
               == |Operations(Memory(ws[j]), q.data)| - |Operations(Memory(ws[i]), p.data)|
  {
    HealthyStateSurvives(ws, acts, i, j);
    assert Revisions(Memory(ws[i])) by { RunKeepsInv(ws, acts, i); }
    assert Revisions(Memory(ws[j])) by { RunKeepsInv(ws, acts, j); }
  }

  /** So a whole-state compare, as in release and prepare_recall, accepts an observation only if no
      operation on the data key completed in between. */
  lemma NoActionIntervened(ws: seq<World>, acts: seq<Action>, i: nat, j: nat, key: EntityKey)
    requires Run(ws, acts) && i <= j < |ws| && ws[i].source.Opened? && ws[j].source.Opened?
    requires Inspect(Handle(ws[i]), key).Ok?
             && Inspect(Handle(ws[j]), key) == Inspect(Handle(ws[i]), key)
    ensures var data := Inspect(Handle(ws[i]), key).value.data;
            Operations(Memory(ws[j]), data) == Operations(Memory(ws[i]), data)
  {
    RevisionsNeverRepeat(ws, acts, i, j, key);
    HealthyStateSurvives(ws, acts, i, j);
    SameCountSameOperations(Memory(ws[i]), Memory(ws[j]), Inspect(Handle(ws[i]), key).value.data);
  }

  lemma SameCountSameOperations(s: State, t: State, data: DataKey)
    requires Extends(s.completed, t.completed) && |Operations(s, data)| == |Operations(t, data)|
    ensures Operations(s, data) == Operations(t, data)
  {
    var a, b := Operations(s, data), Operations(t, data);
    assert a <= b;
    assert b == a + (b - a) && |b| == |a| + |b - a|;
  }

  // ---------- content round trip ----------

  lemma ImportedStays(ws: seq<World>, acts: seq<Action>, i: nat, j: nat, id: string, bytes: Bytes, env: Env)
    requires Run(ws, acts) && i < j < |ws| && acts[i] == DoImport(id, bytes, env)
    requires Import(Handle(ws[i]), ws[i].disk, id, bytes, env).result.Ok?
    ensures id in FileOf(ws[j].source).durable.entities && id in FileOf(ws[j].source).visible.entities
    ensures Content(FileOf(ws[j].source).durable.entities[id].public) == Measure(bytes)
    ensures Content(FileOf(ws[j].source).visible.entities[id].public) == Measure(bytes)
    ensures Import(Handle(ws[i]), ws[i].disk, id, bytes, env).result.value.data.entity.entity == id
  {
    var touch, next := ImportWrites(Handle(ws[i]), ws[i].disk, id, bytes, env);
    assert ws[i + 1] == Apply(ws[i], acts[i]);
    HealthyStateSurvives(ws, acts, i + 1, j);
    assert EntityEvolves(next.value.entities[id], FileOf(ws[j].source).durable.entities[id]);
    assert EntityEvolves(next.value.entities[id], FileOf(ws[j].source).visible.entities[id]);
  }

  /** However many archive, release, collection and recall cycles and crashes lie between, a read
      that succeeds returns exactly the imported bytes. */
  lemma ReadReturnsTheImport(ws: seq<World>, acts: seq<Action>, i: nat, j: nat, id: string, bytes: Bytes, env: Env,
                             key: EntityKey, fault: Fault)
    requires Run(ws, acts) && i < j < |ws| && acts[i] == DoImport(id, bytes, env)
    requires Import(Handle(ws[i]), ws[i].disk, id, bytes, env).result.Ok?
    requires key == Import(Handle(ws[i]), ws[i].disk, id, bytes, env).result.value.data.entity
    requires ws[j].source.Opened? && Read(Handle(ws[j]), ws[j].disk, key, fault).Ok?
    ensures Read(Handle(ws[j]), ws[j].disk, key, fault).value == bytes
  {
    ImportedStays(ws, acts, i, j, id, bytes, env);
    var s := Memory(ws[j]);
    assert s == FileOf(ws[j].source).durable && EntityBacked(ws[j].disk, ws[j].catalog, s.entities[id]) by {
      RunKeepsInv(ws, acts, j);
    }
    FrozenHoldsBytes(ws[j].disk, SourceLayout(s.entities[id].published.value), Measure(bytes), bytes);
  }

  /** A healthy handle can read every entity that is not Offline. */
  lemma OnlineIsReadable(w: World, key: EntityKey)
    requires SystemInv(w) && Healthy(w) && KnownKey(Memory(w), key)
             && key.entity in Memory(w).entities
    ensures Read(Handle(w), w.disk, key, Clean).Ok? <==>
              !Memory(w).entities[key.entity].public.residency.Offline?
  {
    ReadableIffOnline(w, key);
  }

  lemma ReadableIffOnline(w: World, key: EntityKey)
    requires Healthy(w) && Entities(Memory(w)) && Backed(Memory(w), w.disk, w.catalog)
    requires KnownKey(Memory(w), key) && key.entity in Memory(w).entities
    ensures Read(Handle(w), w.disk, key, Clean).Ok? <==> !Memory(w).entities[key.entity].public.residency.Offline?
  {
    var s := Memory(w);
    assert EntityOk(s, key.entity, s.entities[key.entity]) && EntityBacked(w.disk, w.catalog, s.entities[key.entity]);
  }

  /** The bytes of an acknowledged import are durably held at every later moment, in whichever
      state a restart would reveal. */
  lemma ImportIsNeverLost(ws: seq<World>, acts: seq<Action>, i: nat, j: nat, id: string, bytes: Bytes, env: Env,
                          s: State)
    requires Run(ws, acts) && i < j < |ws| && acts[i] == DoImport(id, bytes, env)
    requires Import(Handle(ws[i]), ws[i].disk, id, bytes, env).result.Ok?
    requires s == FileOf(ws[j].source).durable || s == FileOf(ws[j].source).visible
    ensures id in s.entities && Held(ws[j], s.entities[id], bytes)
  {
    ImportedStays(ws, acts, i, j, id, bytes, env);
    RunKeepsInv(ws, acts, j);
    var held := NothingIsLost(ws[j], s, id);
    DigestIsInjective(held, bytes);
  }

  /** A layout that collection has removed, even partly, is named by no metadata that a restart can
      reveal, neither as published nor as a recall's target. */
  lemma RemovedIsUnwanted(w: World, s: State, layout: string, id: string)
    requires SystemInv(w) && (s == FileOf(w.source).durable || s == FileOf(w.source).visible)
    requires SourceLayout(layout) in w.disk.unlinked || SourceLayout(layout) !in w.disk.dirs
    ensures layout !in s.recalls && !Publishes(s, id, layout)
  {
    UnlinkedIsUnwanted(s, w, layout, id);
  }

  lemma UnlinkedIsUnwanted(s: State, w: World, layout: string, id: string)
    requires StateOk(s, w) && (SourceLayout(layout) in w.disk.unlinked || SourceLayout(layout) !in w.disk.dirs)
    ensures layout !in s.recalls && !Publishes(s, id, layout)
  {
    assert layout in s.recalls ==> RecallBacked(s, w.disk, layout);
    assert id in s.entities ==> EntityBacked(w.disk, w.catalog, s.entities[id]);
  }

  // ---------- archive agreement ----------

  /** One receipt per key forever: all receipts ever reported for a key are equal, and a later
      lookup that answers at all answers Committed with that receipt. */
  lemma ArchiveAgrees(ws: seq<World>, acts: seq<Action>, i: nat, j: nat, r: ArchiveReceipt, q: ArchiveReceipt,
                      fault: Fault)
    requires Run(ws, acts) && i <= j < |ws| && r in ws[i].reported && q in ws[j].reported && r.key == q.key
    ensures r == q
    ensures var answer := Cat.Inspect(ws[j].catalog, ws[j].disk, r.key, fault).result;
            answer.Ok? ==> answer.value == Committed(r)
    ensures fault.Clean? ==> Cat.Inspect(ws[j].catalog, ws[j].disk, r.key, fault).result.Ok?
  {
    RunGrows(ws, acts, i, j);
    RunKeepsInv(ws, acts, j);
    assert Cat.Reports(ws[j].catalog, r.key, r) && Cat.Reports(ws[j].catalog, q.key, q);
    assert Cat.Backs(ws[j].catalog.id, ws[j].disk, r.key, ws[j].catalog.linked[r.key]);
  }

  // ---------- sealed layouts ----------

  /** A durably sealed, synced layout keeps its bytes through every step, except that collection
      may remove a listed layout and a restart may disturb one already removed. */
  lemma SealedStaysFrozen(w: World, a: Action, p: Path, e: TransferEvidence)
    requires Cat.CatalogInv(w.catalog, w.disk) && (forall s | s in w.sessions :: SessionOk(w.disk, s, w.sessions[s]))
    requires Enabled(w, a) && Frozen(w.disk, p, e)
    requires !(a.DoCollect? && p.SourceLayout? && p.id in Memory(w).gc)
    requires !(a.Restart? && p in w.disk.unlinked)
    ensures Frozen(Apply(w, a).disk, p, e)
  {
    match a
    case DoImport(id, bytes, env) =>
      var touch, next := ImportWrites(Handle(w), w.disk, id, bytes, env);
      TouchKeepsDisk(w.disk, touch);
    case DoCall(ctx, req, env) =>
      CallWrites(Handle(w), w.disk, ctx, req, env);
      var touch := EffectTouches(Memory(w), w.disk, ctx, req, env);
      TouchKeepsDisk(w.disk, touch);
    case DoCollect(env) =>
      RemoveAllOnly(w.disk, Memory(w).gc, 0, env.fault);
    case CopyBegin(_, _, _, _, _) =>
    case CopyWrite(session, data) =>
      assert SessionOk(w.disk, session, w.sessions[session]);
    case CopyEnd(session) =>
      assert SessionOk(w.disk, session, w.sessions[session]);
    case Restart(_, _, _, _) =>
    case Close =>
    case Reopen =>
    case Idle =>
    case _ =>
      var m, uuid, receipts := ArchiveCallMoves(w, a);
      Cat.MoveKeepsDisk(w.catalog, w.disk, m);
  }

  /** An archive payload, once frozen, is frozen forever. */
  lemma ArchivePayloadIsForever(ws: seq<World>, acts: seq<Action>, i: nat, j: nat, id: string, e: TransferEvidence)
    requires Run(ws, acts) && i <= j < |ws| && Frozen(ws[i].disk, AttemptLayout(id), e)
    ensures Frozen(ws[j].disk, AttemptLayout(id), e)
  {
    for k := i to j
      invariant Frozen(ws[k].disk, AttemptLayout(id), e)
    {
      var w := ws[k];
      assert Cat.CatalogInv(w.catalog, w.disk) && DiskNamed(w.disk, w.issued)
             && forall s | s in w.sessions :: SessionOk(w.disk, s, w.sessions[s]) by { RunKeepsInv(ws, acts, k); }
      SealedStaysFrozen(w, acts[k], AttemptLayout(id), e);
    }
  }
}
