/**
 The global invariants of the source metadata, and that every step, import and garbage
 collection keeps them. Each recorded call also moves entities along the residency machine.
 */
module SourceInvariants {
  import opened Managed
  import opened Files
  import opened SourceState

  // ---------- entities and the residency machine ----------

  predicate Binds(a: ArchiveReceipt, p: EntityState) {
    && a.data == p.data && a.length == p.length && a.digest == p.digest
    && a.receiptId != "" && a.durabilityProfile == LOCAL_PROFILE
  }

  predicate AnchorsOk(p: EntityState) {
    && (forall i | 0 <= i < |p.anchors| :: Binds(p.anchors[i], p))
    && (forall i, j | 0 <= i < j < |p.anchors| :: p.anchors[i].key != p.anchors[j].key)
  }

  predicate EntityOk(s: State, id: string, e: Entity) {
    && id != ""
    && e.public.data == DataKey(EntityKey(s.storageId, s.ns, id), 1)
    && e.public.digest.algorithm != "" && e.public.digest.value != []
    && (e.public.residency.Offline? <==> e.published.None?)
    && (e.public.residency.Online? <==> e.public.anchors == [])
    && AnchorsOk(e.public)
  }

  ghost predicate Entities(s: State) {
    && s.storageId != "" && s.ns != ""
    && forall id | id in s.entities :: EntityOk(s, id, s.entities[id])
  }

  // ---------- pins ----------

  predicate ViewOk(s: State, v: string) {
    v in s.views &&
    var view := s.views[v].view;
    var id := view.data.entity.entity;
    && view.viewId == v
    && id in s.entities
    && var e := s.entities[id];
       && e.public.data == view.data
       && e.published.Some?
       && view.source == Endpoint(SourceLayout(e.published.value))
       && view.length == e.public.length && view.digest == e.public.digest
  }

  predicate RecallOk(s: State, l: string) {
    l in s.recalls &&
    var target := s.recalls[l].target;
    var anchor := s.recalls[l].anchor;
    var id := target.data.entity.entity;
    && target.layoutId == l
    && target.destination == Endpoint(SourceLayout(l))
    && target.archive == anchor.key
    && id in s.entities
    && var e := s.entities[id];
       && e.public.data == target.data
       && e.published.None?
       && anchor in e.public.anchors
  }

  /** At most one open view and one open recall per data key. */
  ghost predicate Pins(s: State) {
    && (forall v | v in s.views :: ViewOk(s, v))
    && (forall v, w | v in s.views && w in s.views && s.views[v].view.data == s.views[w].view.data :: v == w)
    && (forall l | l in s.recalls :: RecallOk(s, l))
    && (forall l, m | l in s.recalls && m in s.recalls && s.recalls[l].target.data == s.recalls[m].target.data ::
         l == m)
  }

  // ---------- layout ownership ----------

  predicate Publishes(s: State, id: string, layout: string) {
    id in s.entities && s.entities[id].published == Some(layout)
  }

  predicate Distinct(layouts: seq<string>) {
    forall i, j | 0 <= i < j < |layouts| :: layouts[i] != layouts[j]
  }

  ghost predicate Owned(s: State) {
    && (forall a, b, l | Publishes(s, a, l) && Publishes(s, b, l) :: a == b)
    && (forall a, l | Publishes(s, a, l) :: l !in s.recalls && l !in s.gc)
    && (forall l | l in s.recalls :: l !in s.gc)
    && Distinct(s.gc)
  }

  // ---------- the step log and the completed index ----------

  function Context(op: string): OperationContext {
    OperationContext(op, 1, 1)
  }

  predicate Terminal(name: StepName) {
    name.CommitArchiveStep? || name.ReleaseStep? || name.CommitRecallStep?
  }

  function TerminalName(action: ManagedAction): StepName {
    match action
    case Archive(_) => CommitArchiveStep
    case Release => ReleaseStep
    case Recall(_) => CommitRecallStep
  }

  /** The data key and action a terminal request completes. */
  function Completes(req: Request): (DataKey, ManagedAction) {
    match req
    case CommitArchive(view, receipt) => (view.data, Archive(receipt.key))
    case ReleaseData(expected) => (expected.data, Release)
    case CommitRecall(target, _) => (target.data, Recall(target.archive))
    case _ => (NO_STATE.data, Release)
  }

  predicate SavedOk(k: StepKey, saved: SavedStep) {
    && Qualify(k.context).Ok?
    && NameOf(saved.request) == k.name
    && match saved.result
       case Err(e) => Definite(e)
       case Ok(ViewReply(_)) => k.name.PrepareArchiveStep?
       case Ok(TargetReply(_)) => k.name.PrepareRecallStep?
       case Ok(StateReply(_)) => Terminal(k.name)
  }

  predicate Succeeded(s: State, k: StepKey) {
    k in s.steps && s.steps[k].result.Ok?
  }

  /** The completed entry of `op` is exactly one saved success. */
  predicate CompletedOk(s: State, op: string) {
    op in s.completed &&
    var c := s.completed[op];
    var k := StepKey(Context(op), TerminalName(c.action));
    && c.context == Context(op)
    && k in s.steps
    && NameOf(s.steps[k].request) == k.name
    && s.steps[k].result == Ok(StateReply(c.state))
    && Completes(s.steps[k].request) == (c.data, c.action)
  }

  predicate Indexed(s: State, k: StepKey) {
    && k.context.operationId in s.completed
    && TerminalName(s.completed[k.context.operationId].action) == k.name
  }

  ghost predicate Ledger(s: State) {
    && (forall k | k in s.steps :: SavedOk(k, s.steps[k]))
    && (forall op | op in s.completed :: CompletedOk(s, op))
    && (forall k | Succeeded(s, k) && Terminal(k.name) :: Indexed(s, k))
  }

  predicate ViewAccounted(s: State, k: StepKey) {
    k in s.steps && k.name.PrepareArchiveStep? && s.steps[k].result.Ok? && s.steps[k].result.value.ViewReply? ==>
      var view := s.steps[k].result.value.view;
      || Succeeded(s, StepKey(k.context, CommitArchiveStep))
      || (view.viewId in s.views && s.views[view.viewId] == ViewOwner(k.context, view))
  }

  predicate RecallAccounted(s: State, k: StepKey) {
    k in s.steps && k.name.PrepareRecallStep? && s.steps[k].result.Ok? && s.steps[k].result.value.TargetReply? ==>
      var target := s.steps[k].result.value.target;
      || Succeeded(s, StepKey(k.context, CommitRecallStep))
      || (target.layoutId in s.recalls && s.recalls[target.layoutId].context == k.context
          && s.recalls[target.layoutId].target == target)
  }

  /** A pin is open exactly from its prepare step to its own operation's commit step. */
  ghost predicate PinLedger(s: State) {
    && (forall v | v in s.views ::
          var k := StepKey(s.views[v].context, PrepareArchiveStep);
          k in s.steps && s.steps[k].result == Ok(ViewReply(s.views[v].view)))
    && (forall l | l in s.recalls ::
          var k := StepKey(s.recalls[l].context, PrepareRecallStep);
          k in s.steps && s.steps[k].result == Ok(TargetReply(s.recalls[l].target)))
    && (forall k | k in s.steps :: ViewAccounted(s, k) && RecallAccounted(s, k))
  }

  // ---------- revision conservation ----------

  function Operations(s: State, data: DataKey): set<string> {
    set op | op in s.completed && s.completed[op].data == data
  }

  ghost predicate Revisions(s: State) {
    && (forall id | id in s.entities ::
          s.entities[id].public.revision == 1 + |Operations(s, s.entities[id].public.data)|)
    && (forall op | op in s.completed :: s.completed[op].data.entity.entity in s.entities)
  }

  ghost predicate Inv(s: State) {
    Entities(s) && Pins(s) && Owned(s) && Ledger(s) && PinLedger(s) && Revisions(s)
  }

  // ---------- evolution ----------

  predicate ResidencyMove(p: Residency, q: Residency) {
    (p.Online? && q.Dual?) || (p.Dual? && q.Dual?) || (p.Dual? && q.Offline?) || (p.Offline? && q.Dual?)
  }

  predicate SameContent(p: EntityState, q: EntityState) {
    p.data == q.data && p.length == q.length && p.digest == q.digest
  }

  /** One completed operation's effect on its entity. */
  predicate EntityStep(e: Entity, f: Entity) {
    && SameContent(e.public, f.public)
    && f.public.revision == e.public.revision + 1
    && ResidencyMove(e.public.residency, f.public.residency)
    && e.public.anchors <= f.public.anchors
    && |f.public.anchors| <= |e.public.anchors| + 1
  }

  /** Between two moments of one history: equal revisions mean identical entities. */
  predicate EntityEvolves(e: Entity, f: Entity) {
    && SameContent(e.public, f.public)
    && e.public.revision <= f.public.revision
    && (e.public.revision == f.public.revision ==> e == f)
    && e.public.anchors <= f.public.anchors
  }

  ghost predicate Evolves(s: State, t: State) {
    && s.storageId == t.storageId && s.ns == t.ns
    && (forall id | id in s.entities :: id in t.entities && EntityEvolves(s.entities[id], t.entities[id]))
    && Extends(s.steps, t.steps)
    && Extends(s.completed, t.completed)
  }

  lemma EvolvesTransitive(s: State, t: State, u: State)
    requires Evolves(s, t) && Evolves(t, u)
    ensures Evolves(s, u)
  {
    forall id | id in s.entities ensures id in u.entities && EntityEvolves(s.entities[id], u.entities[id]) {
      assert EntityEvolves(s.entities[id], t.entities[id]) && EntityEvolves(t.entities[id], u.entities[id]);
    }
  }

  // ---------- each effect keeps the invariants ----------

  /** The state a successful effect leaves once its result is recorded. */
  function After(s: State, d: Disk, ctx: OperationContext, req: Request, env: Env): State {
    var out := Effect(s, d, ctx, req, env);
    Record(out.state, KeyOf(ctx, req), SavedStep(req, out.result))
  }

  /** A fresh UUID: not the name of any view or layout the state knows. */
  ghost predicate FreshFor(s: State, uuid: string) {
    && uuid != ""
    && uuid !in s.views && uuid !in s.recalls && uuid !in s.gc
    && forall id | id in s.entities :: s.entities[id].published != Some(uuid)
  }

  /** A fresh step's context has no completed entry under the action it is about to record. */
  lemma FirstCompletion(s: State, ctx: OperationContext, req: Request, t: State, state: EntityState)
    requires Ledger(s)
    requires Qualify(ctx).Ok? && KeyOf(ctx, req) !in s.steps && Terminal(NameOf(req))
    requires Finish(t, ctx, Completes(req).0, Completes(req).1, state).1.Ok? && t.completed == s.completed
    ensures ctx.operationId !in s.completed
  {
  }

  lemma EntityOfIsItsKey(s: State, data: DataKey)
    requires Entities(s) && EntityOf(s, data).Ok?
    ensures data.entity.entity in s.entities
    ensures s.entities[data.entity.entity] == EntityOf(s, data).value
    ensures data == DataKey(EntityKey(s.storageId, s.ns, data.entity.entity), 1)
    ensures EntityOk(s, data.entity.entity, EntityOf(s, data).value)
  {
    assert EntityOk(s, data.entity.entity, s.entities[data.entity.entity]);
  }

  /** What a terminal step records: one step, one completed entry. */
  predicate TerminalLog(s: State, t: State, ctx: OperationContext, req: Request, state: EntityState) {
    var (data, action) := Completes(req);
    && ctx.operationId !in s.completed
    && t.completed == s.completed[ctx.operationId := Completed(ctx, data, action, state)]
    && t.steps == s.steps[KeyOf(ctx, req) := SavedStep(req, Ok(StateReply(state)))]
  }

  /** What a terminal step does to the entities: one residency step of one of them. */
  predicate TerminalMove(s: State, t: State, id: string, f: Entity) {
    && id in s.entities
    && EntityStep(s.entities[id], f)
    && EntityOk(s, id, f)
    && t.entities == s.entities[id := f]
    && t.storageId == s.storageId && t.ns == s.ns
  }

  lemma AttachKeepsEntity(s: State, id: string, e: Entity, receipt: ArchiveReceipt)
    requires EntityOk(s, id, e) && e.published.Some?
    requires Binds(receipt, e.public)
    requires !exists a | a in e.public.anchors :: a.key == receipt.key && a != receipt
    ensures EntityOk(s, id, Attach(e, receipt)) && EntityStep(e, Attach(e, receipt))
    ensures receipt in Attach(e, receipt).public.anchors
  {
    var f := Attach(e, receipt);
    assert forall a | a in e.public.anchors :: a in f.public.anchors;
  }

  // The guards a successful effect has passed, and the state it leaves.

  lemma CommitArchiveGuards(s: State, d: Disk, ctx: OperationContext, view: DataView, receipt: ArchiveReceipt, env: Env)
    requires CommitArchiveEffect(s, d, ctx, view, receipt, env).result.Ok?
    ensures view.viewId in s.views && s.views[view.viewId] == ViewOwner(ctx, view)
    ensures EntityOf(s, view.data).Ok? && AcceptableReceipt(view, receipt)
    ensures !exists a | a in EntityOf(s, view.data).value.public.anchors :: a.key == receipt.key && a != receipt
    ensures var f := Attach(EntityOf(s, view.data).value, receipt);
            var mutated := s.(entities := s.entities[view.data.entity.entity := f], views := s.views - {view.viewId});
            var (next, done) := Finish(mutated, ctx, view.data, Archive(receipt.key), f.public);
            done.Ok? && CommitArchiveEffect(s, d, ctx, view, receipt, env) == Outcome(next, d, Ok(StateReply(f.public)))
  {
  }

  lemma ReleaseGuards(s: State, d: Disk, ctx: OperationContext, expected: EntityState, env: Env)
    requires ReleaseEffect(s, d, ctx, expected, env).result.Ok?
    ensures EntityOf(s, expected.data).Ok? && EntityOf(s, expected.data).value.public == expected
    ensures EntityOf(s, expected.data).value.published.Some? && expected.anchors != []
    ensures !Viewed(s, expected.data) && !Recalling(s, expected.data)
    ensures var e := EntityOf(s, expected.data).value;
            var f := Detach(e);
            var mutated :=
                s.(entities := s.entities[expected.data.entity.entity := f], gc := s.gc + [e.published.value]);
            var (next, done) := Finish(mutated, ctx, expected.data, Release, f.public);
            done.Ok? && ReleaseEffect(s, d, ctx, expected, env) == Outcome(next, d, Ok(StateReply(f.public)))
  {
  }

  lemma CommitRecallGuards(s: State, d: Disk, ctx: OperationContext, target: RecallTarget, evidence: TransferEvidence,
                           env: Env)
    requires CommitRecallEffect(s, d, ctx, target, evidence, env).result.Ok?
    ensures target.layoutId in s.recalls
    ensures s.recalls[target.layoutId].context == ctx && s.recalls[target.layoutId].target == target
    ensures EntityOf(s, target.data).Ok? && EntityOf(s, target.data).value.published.None?
    ensures var layout := SourceLayout(target.layoutId);
            var e := EntityOf(s, target.data).value;
            var f := Attached(e, target.layoutId);
            var mutated :=
                s.(entities := s.entities[target.data.entity.entity := f], recalls := s.recalls - {target.layoutId});
            var (next, done) := Finish(mutated, ctx, target.data, Recall(target.archive), f.public);
            done.Ok? && layout in d.dirs && d.dirs[layout].holder.None?
            && d.dirs[layout].data.Some?
               && Measure(d.dirs[layout].data.value) == TransferEvidence(e.public.length, e.public.digest)
            && CommitRecallEffect(s, d, ctx, target, evidence, env)
               == Outcome(next, d.(dirs := d.dirs[layout := d.dirs[layout].(synced := true, seal := SealDurable)]),
                          Ok(StateReply(f.public)))
  {
  }

  // What a terminal step does, whichever it is.

  lemma TerminalKeepsEntities(s: State, t: State, id: string, f: Entity)
    requires Entities(s) && TerminalMove(s, t, id, f)
    ensures Entities(t)
  {
    forall a | a in t.entities ensures EntityOk(t, a, t.entities[a]) {
      assert EntityOk(s, a, t.entities[a]);
    }
  }

  lemma OperationsGrow(s: State, t: State, op: string, c: Completed, key: DataKey)
    requires op !in s.completed && t.completed == s.completed[op := c]
    ensures |Operations(t, key)| == |Operations(s, key)| + (if c.data == key then 1 else 0)
  {
    if c.data == key {
      assert Operations(t, key) == Operations(s, key) + {op};
    } else {
      assert Operations(t, key) == Operations(s, key);
    }
  }

  lemma TerminalKeepsRevisions(s: State, t: State, ctx: OperationContext, req: Request, id: string, f: Entity)
    requires Revisions(s) && Terminal(NameOf(req))
    requires forall a | a in s.entities :: s.entities[a].public.data.entity.entity == a
    requires TerminalLog(s, t, ctx, req, f.public)
    requires id in s.entities && t.entities == s.entities[id := f]
    requires f.public.revision == s.entities[id].public.revision + 1
    requires Completes(req).0 == f.public.data == s.entities[id].public.data
    ensures Revisions(t)
  {
    var c := t.completed[ctx.operationId];
    forall a | a in t.entities
      ensures t.entities[a].public.revision == 1 + |Operations(t, t.entities[a].public.data)|
    {
      OperationsGrow(s, t, ctx.operationId, c, t.entities[a].public.data);
    }
  }

  lemma TerminalKeepsLedger(s: State, t: State, ctx: OperationContext, req: Request, state: EntityState)
    requires Ledger(s) && Terminal(NameOf(req)) && TerminalLog(s, t, ctx, req, state)
    requires Qualify(ctx).Ok? && KeyOf(ctx, req) !in s.steps
    ensures Ledger(t)
  {
    assert ctx == Context(ctx.operationId);
    forall op | op in t.completed ensures CompletedOk(t, op) {
      if op != ctx.operationId {
        assert CompletedOk(s, op);
      }
    }
    forall k | Succeeded(t, k) && Terminal(k.name) ensures Indexed(t, k) {
      if k != KeyOf(ctx, req) {
        assert Succeeded(s, k);
        assert Indexed(s, k);
      }
    }
  }

  // Pins, step by step.

  lemma OpenViewKeepsPins(s: State, t: State, ctx: OperationContext, view: DataView, e: Entity)
    requires Pins(s) && view.viewId !in s.views && !Viewed(s, view.data)
    requires view.data.entity.entity in s.entities && e == s.entities[view.data.entity.entity]
    requires e.public.data == view.data && e.published.Some?
    requires view.source == Endpoint(SourceLayout(e.published.value))
    requires view.length == e.public.length && view.digest == e.public.digest
    requires t.entities == s.entities && t.recalls == s.recalls
    requires t.views == s.views[view.viewId := ViewOwner(ctx, view)]
    ensures Pins(t)
  {
    forall v | v in t.views ensures ViewOk(t, v) {
      assert v == view.viewId || ViewOk(s, v);
    }
    forall l | l in t.recalls ensures RecallOk(t, l) {
      assert RecallOk(s, l);
    }
  }

  lemma CloseViewKeepsPins(s: State, t: State, v: string, id: string, f: Entity)
    requires Pins(s) && v in s.views && id == s.views[v].view.data.entity.entity
    requires id in s.entities && t.entities == s.entities[id := f]
    requires SameContent(s.entities[id].public, f.public) && f.published == s.entities[id].published
    requires t.views == s.views - {v} && t.recalls == s.recalls
    ensures Pins(t)
  {
    assert ViewOk(s, v);
    forall w | w in t.views ensures ViewOk(t, w) {
      assert ViewOk(s, w);
    }
    forall l | l in t.recalls ensures RecallOk(t, l) {
      assert RecallOk(s, l);
    }
  }

  lemma ReleaseKeepsPins(s: State, t: State, id: string, f: Entity)
    requires Pins(s) && id in s.entities && t.entities == s.entities[id := f]
    requires !Viewed(s, f.public.data) && !Recalling(s, f.public.data)
    requires f.public.data == s.entities[id].public.data
    requires t.views == s.views && t.recalls == s.recalls
    ensures Pins(t)
  {
    forall v | v in t.views ensures ViewOk(t, v) {
      assert ViewOk(s, v);
    }
    forall l | l in t.recalls ensures RecallOk(t, l) {
      assert RecallOk(s, l);
    }
  }

  lemma OpenRecallKeepsPins(s: State, t: State, ctx: OperationContext, target: RecallTarget, anchor: ArchiveReceipt,
                            e: Entity)
    requires Pins(s) && target.layoutId !in s.recalls && !Recalling(s, target.data)
    requires target.destination == Endpoint(SourceLayout(target.layoutId)) && target.archive == anchor.key
    requires target.data.entity.entity in s.entities && e == s.entities[target.data.entity.entity]
    requires e.public.data == target.data && e.published.None? && anchor in e.public.anchors
    requires t.entities == s.entities && t.views == s.views
    requires t.recalls == s.recalls[target.layoutId := RecallOwner(ctx, target, anchor)]
    ensures Pins(t)
  {
    forall v | v in t.views ensures ViewOk(t, v) {
      assert ViewOk(s, v);
    }
    forall l | l in t.recalls ensures RecallOk(t, l) {
      assert l == target.layoutId || RecallOk(s, l);
    }
  }

  lemma CloseRecallKeepsPins(s: State, t: State, l: string, id: string, f: Entity)
    requires Pins(s) && l in s.recalls && id == s.recalls[l].target.data.entity.entity
    requires id in s.entities && t.entities == s.entities[id := f]
    requires t.views == s.views && t.recalls == s.recalls - {l}
    ensures Pins(t)
  {
    assert RecallOk(s, l);
    forall v | v in t.views ensures ViewOk(t, v) {
      assert ViewOk(s, v);
    }
    forall m | m in t.recalls ensures RecallOk(t, m) {
      assert RecallOk(s, m);
    }
  }

  // Layout ownership, step by step.

  lemma SamePublishedKeepsOwned(s: State, t: State)
    requires Owned(s) && t.gc == s.gc && t.recalls == s.recalls
    requires forall a, l | Publishes(t, a, l) :: Publishes(s, a, l)
    ensures Owned(t)
  {
  }

  lemma ReleaseKeepsOwned(s: State, t: State, id: string, f: Entity)
    requires Owned(s) && id in s.entities && s.entities[id].published.Some?
    requires f.published.None? && t.entities == s.entities[id := f]
    requires t.recalls == s.recalls && t.gc == s.gc + [s.entities[id].published.value]
    ensures Owned(t)
  {
    var freed := s.entities[id].published.value;
    assert Publishes(s, id, freed);
    forall a, l | Publishes(t, a, l) ensures l !in t.recalls && l !in t.gc && Publishes(s, a, l) {
      assert Publishes(s, a, l);
    }
  }

  lemma OpenRecallKeepsOwned(s: State, t: State, l: string, owner: RecallOwner)
    requires Owned(s) && FreshFor(s, l)
    requires t.entities == s.entities && t.gc == s.gc && t.recalls == s.recalls[l := owner]
    ensures Owned(t)
  {
    forall a, m | Publishes(t, a, m) ensures m !in t.recalls && m !in t.gc && Publishes(s, a, m) {
      assert Publishes(s, a, m);
    }
  }

  lemma CloseRecallKeepsOwned(s: State, t: State, l: string, id: string, f: Entity)
    requires Owned(s) && l in s.recalls && id in s.entities
    requires f.published == Some(l) && t.entities == s.entities[id := f]
    requires t.gc == s.gc && t.recalls == s.recalls - {l}
    ensures Owned(t)
  {
    forall a, m | Publishes(t, a, m) ensures m !in t.recalls && m !in t.gc && (a == id || Publishes(s, a, m)) {
      assert a == id || Publishes(s, a, m);
    }
    forall a, b, m | Publishes(t, a, m) && Publishes(t, b, m) ensures a == b {
      assert a == id || Publishes(s, a, m);
      assert b == id || Publishes(s, b, m);
    }
  }

  // The log of a step that completes nothing.

  lemma QuietKeepsLedger(s: State, t: State, k: StepKey, saved: SavedStep)
    requires Ledger(s) && k !in s.steps && SavedOk(k, saved)
    requires Terminal(k.name) ==> saved.result.Err?
    requires t.steps == s.steps[k := saved] && t.completed == s.completed
    ensures Ledger(t)
  {
    forall op | op in t.completed ensures CompletedOk(t, op) {
      assert CompletedOk(s, op);
    }
    forall j | Succeeded(t, j) && Terminal(j.name) ensures Indexed(t, j) {
      assert Succeeded(s, j) && Indexed(s, j);
    }
  }

  // The pin ledger, step by step.

  lemma OpenViewKeepsPinLedger(s: State, t: State, k: StepKey, req: Request, view: DataView)
    requires PinLedger(s) && k !in s.steps && k.name.PrepareArchiveStep? && view.viewId !in s.views
    requires t.steps == s.steps[k := SavedStep(req, Ok(ViewReply(view)))]
    requires t.views == s.views[view.viewId := ViewOwner(k.context, view)] && t.recalls == s.recalls
    ensures PinLedger(t)
  {
    forall j | j in t.steps ensures ViewAccounted(t, j) && RecallAccounted(t, j) {
      assert j == k || (ViewAccounted(s, j) && RecallAccounted(s, j));
    }
  }

  /** Any other step: `v` and `l` are the view and recall it closes, if any. */
  lemma CloseKeepsPinLedger(s: State, t: State, k: StepKey, saved: SavedStep, v: Option<string>, l: Option<string>)
    requires PinLedger(s) && k !in s.steps
    requires saved.result.Ok? ==> Terminal(k.name)
    requires t.steps == s.steps[k := saved]
    requires v.Some? ==>
               v.value in s.views && saved.result.Ok? && k == StepKey(s.views[v.value].context, CommitArchiveStep)
    requires l.Some? ==>
               l.value in s.recalls && saved.result.Ok? && k == StepKey(s.recalls[l.value].context, CommitRecallStep)
    requires t.views == if v.Some? then s.views - {v.value} else s.views
    requires t.recalls == if l.Some? then s.recalls - {l.value} else s.recalls
    ensures PinLedger(t)
  {
    forall j | j in t.steps ensures ViewAccounted(t, j) && RecallAccounted(t, j) {
      assert j == k || (ViewAccounted(s, j) && RecallAccounted(s, j));
    }
  }

  // ---------- one recorded step keeps every invariant and moves the history on ----------

  /** Entities, ledger and revisions of a step that completes nothing. */
  lemma QuietKeeps(s: State, t: State, k: StepKey, saved: SavedStep)
    requires Entities(s) && Ledger(s) && Revisions(s) && k !in s.steps && SavedOk(k, saved)
    requires Terminal(k.name) ==> saved.result.Err?
    requires t.steps == s.steps[k := saved] && t.completed == s.completed && t.entities == s.entities
    requires t.storageId == s.storageId && t.ns == s.ns
    ensures Entities(t) && Ledger(t) && Revisions(t)
  {
    QuietKeepsLedger(s, t, k, saved);
    forall id | id in t.entities
      ensures EntityOk(t, id, t.entities[id])
      ensures t.entities[id].public.revision == 1 + |Operations(t, t.entities[id].public.data)|
    {
      assert EntityOk(s, id, s.entities[id]);
      assert Operations(t, t.entities[id].public.data) == Operations(s, t.entities[id].public.data);
    }
  }

  /** Entities, ledger and revisions of a terminal step. */
  lemma TerminalKeeps(s: State, t: State, ctx: OperationContext, req: Request, id: string, f: Entity)
    requires Entities(s) && Ledger(s) && Revisions(s) && Terminal(NameOf(req))
    requires Qualify(ctx).Ok? && KeyOf(ctx, req) !in s.steps
    requires TerminalLog(s, t, ctx, req, f.public) && TerminalMove(s, t, id, f)
    requires Completes(req).0 == f.public.data
    ensures Entities(t) && Ledger(t) && Revisions(t)
  {
    TerminalKeepsEntities(s, t, id, f);
    TerminalKeepsLedger(s, t, ctx, req, f.public);
    forall a | a in s.entities ensures s.entities[a].public.data.entity.entity == a {
      assert EntityOk(s, a, s.entities[a]);
    }
    TerminalKeepsRevisions(s, t, ctx, req, id, f);
  }

  // Each successful effect, with its result recorded, in explicit form.

  predicate SameIdentity(s: State, t: State) {
    t.storageId == s.storageId && t.ns == s.ns
  }

  predicate OpensView(s: State, t: State, ctx: OperationContext, req: Request, view: DataView, e: Entity) {
    && view.data.entity.entity in s.entities && e == s.entities[view.data.entity.entity]
    && e.public.data == view.data && e.published.Some? && !Viewed(s, view.data)
    && view.source == Endpoint(SourceLayout(e.published.value))
    && view.length == e.public.length && view.digest == e.public.digest
    && t.views == s.views[view.viewId := ViewOwner(ctx, view)]
    && t.steps == s.steps[KeyOf(ctx, req) := SavedStep(req, Ok(ViewReply(view)))]
    && t.entities == s.entities && t.recalls == s.recalls && t.completed == s.completed && t.gc == s.gc
    && SameIdentity(s, t)
  }

  lemma PrepareArchiveOpens(s: State, d: Disk, ctx: OperationContext, data: DataKey, env: Env)
    returns (view: DataView, e: Entity)
    requires Entities(s) && PrepareArchiveEffect(s, d, ctx, data, env).result.Ok?
    ensures OpensView(s, After(s, d, ctx, PrepareArchive(data), env), ctx, PrepareArchive(data), view, e)
    ensures view.viewId == env.uuid && view.data == data
  {
    EntityOfIsItsKey(s, data);
    e := EntityOf(s, data).value;
    view := DataView(data, env.uuid, e.public.length, e.public.digest, Endpoint(SourceLayout(e.published.value)));
  }

  predicate OpensRecall(s: State, t: State, ctx: OperationContext, req: Request, target: RecallTarget,
                        anchor: ArchiveReceipt, e: Entity) {
    && target.destination == Endpoint(SourceLayout(target.layoutId)) && target.archive == anchor.key
    && target.data.entity.entity in s.entities && e == s.entities[target.data.entity.entity]
    && e.public.data == target.data && e.published.None? && anchor in e.public.anchors && !Recalling(s, target.data)
    && t.recalls == s.recalls[target.layoutId := RecallOwner(ctx, target, anchor)]
    && t.steps == s.steps[KeyOf(ctx, req) := SavedStep(req, Ok(TargetReply(target)))]
    && t.entities == s.entities && t.views == s.views && t.completed == s.completed && t.gc == s.gc
    && SameIdentity(s, t)
  }

  lemma PrepareRecallOpens(s: State, d: Disk, ctx: OperationContext, expected: EntityState, anchor: ArchiveReceipt,
                           env: Env)
    returns (target: RecallTarget, e: Entity)
    requires Entities(s) && PrepareRecallEffect(s, d, ctx, expected, anchor, env).result.Ok?
    ensures var req := PrepareRecall(expected, anchor);
            OpensRecall(s, After(s, d, ctx, req, env), ctx, req, target, anchor, e)
    ensures target.layoutId == env.uuid && target.data == expected.data && e.public == expected
  {
    EntityOfIsItsKey(s, expected.data);
    e := EntityOf(s, expected.data).value;
    target := RecallTarget(expected.data, env.uuid, anchor.key, Endpoint(SourceLayout(env.uuid)));
  }

  /** A terminal step: its log entry, its entity move, and what it closes or frees. */
  predicate Terminates(s: State, t: State, ctx: OperationContext, req: Request, f: Entity) {
    && Completes(req).0 == f.public.data
    && TerminalLog(s, t, ctx, req, f.public)
    && TerminalMove(s, t, f.public.data.entity.entity, f)
    && var e := s.entities[f.public.data.entity.entity];
       match req
       case CommitArchive(view, receipt) =>
         && view.viewId in s.views && s.views[view.viewId] == ViewOwner(ctx, view)
         && f == Attach(e, receipt) && e.published.Some? && receipt in f.public.anchors
         && t.views == s.views - {view.viewId} && t.recalls == s.recalls && t.gc == s.gc
       case ReleaseData(expected) =>
         && e.published.Some? && e.public == expected && f == Detach(e)
         && !Viewed(s, f.public.data) && !Recalling(s, f.public.data)
         && t.views == s.views && t.recalls == s.recalls && t.gc == s.gc + [e.published.value]
       case CommitRecall(target, _) =>
         && target.layoutId in s.recalls && s.recalls[target.layoutId].context == ctx
         && s.recalls[target.layoutId].target == target && e.published.None? && f == Attached(e, target.layoutId)
         && t.views == s.views && t.recalls == s.recalls - {target.layoutId} && t.gc == s.gc
       case _ => false
  }

  lemma CommitArchiveTerminates(s: State, d: Disk, ctx: OperationContext, view: DataView, receipt: ArchiveReceipt,
                                env: Env)
    returns (f: Entity)
    requires Entities(s) && Ledger(s) && ViewOk(s, view.viewId)
    requires Qualify(ctx).Ok? && KeyOf(ctx, CommitArchive(view, receipt)) !in s.steps
    requires CommitArchiveEffect(s, d, ctx, view, receipt, env).result.Ok?
    ensures var req := CommitArchive(view, receipt); Terminates(s, After(s, d, ctx, req, env), ctx, req, f)
  {
    var req := CommitArchive(view, receipt);
    var id := view.data.entity.entity;
    CommitArchiveGuards(s, d, ctx, view, receipt, env);
    EntityOfIsItsKey(s, view.data);
    f := Attach(s.entities[id], receipt);
    AttachKeepsEntity(s, id, s.entities[id], receipt);
    FirstCompletion(s, ctx, req, s.(entities := s.entities[id := f], views := s.views - {view.viewId}), f.public);
  }

  lemma ReleaseTerminates(s: State, d: Disk, ctx: OperationContext, expected: EntityState, env: Env)
    returns (f: Entity)
    requires Entities(s) && Ledger(s)
    requires Qualify(ctx).Ok? && KeyOf(ctx, ReleaseData(expected)) !in s.steps
    requires ReleaseEffect(s, d, ctx, expected, env).result.Ok?
    ensures var req := ReleaseData(expected); Terminates(s, After(s, d, ctx, req, env), ctx, req, f)
  {
    var req := ReleaseData(expected);
    var id := expected.data.entity.entity;
    ReleaseGuards(s, d, ctx, expected, env);
    EntityOfIsItsKey(s, expected.data);
    var e := s.entities[id];
    f := Detach(e);
    FirstCompletion(s, ctx, req, s.(entities := s.entities[id := f], gc := s.gc + [e.published.value]), f.public);
  }

  lemma CommitRecallTerminates(s: State, d: Disk, ctx: OperationContext, target: RecallTarget,
                               evidence: TransferEvidence, env: Env)
    returns (f: Entity)
    requires Entities(s) && Ledger(s) && RecallOk(s, target.layoutId)
    requires Qualify(ctx).Ok? && KeyOf(ctx, CommitRecall(target, evidence)) !in s.steps
    requires CommitRecallEffect(s, d, ctx, target, evidence, env).result.Ok?
    ensures var req := CommitRecall(target, evidence); Terminates(s, After(s, d, ctx, req, env), ctx, req, f)
  {
    var req := CommitRecall(target, evidence);
    var id := target.data.entity.entity;
    CommitRecallGuards(s, d, ctx, target, evidence, env);
    EntityOfIsItsKey(s, target.data);
    f := Attached(s.entities[id], target.layoutId);
    FirstCompletion(s, ctx, req, s.(entities := s.entities[id := f], recalls := s.recalls - {target.layoutId}),
          f.public);
  }

  lemma OpensViewKeepsPinLedger(s: State, t: State, ctx: OperationContext, req: Request, view: DataView, e: Entity)
    requires PinLedger(s) && req.PrepareArchive? && KeyOf(ctx, req) !in s.steps
    requires OpensView(s, t, ctx, req, view, e) && view.viewId !in s.views
    ensures PinLedger(t)
  {
    OpenViewKeepsPinLedger(s, t, KeyOf(ctx, req), req, view);
  }

  lemma OpensViewKeepsRest(s: State, t: State, ctx: OperationContext, req: Request, view: DataView, e: Entity)
    requires Entities(s) && Ledger(s) && Revisions(s)
    requires Qualify(ctx).Ok? && req.PrepareArchive? && KeyOf(ctx, req) !in s.steps
    requires OpensView(s, t, ctx, req, view, e)
    ensures Entities(t) && Ledger(t) && Revisions(t)
  {
    QuietKeeps(s, t, KeyOf(ctx, req), SavedStep(req, Ok(ViewReply(view))));
  }

  lemma OpensRecallKeepsPinLedger(s: State, t: State, ctx: OperationContext, req: Request, target: RecallTarget,
                                  anchor: ArchiveReceipt, e: Entity)
    requires PinLedger(s) && req.PrepareRecall? && KeyOf(ctx, req) !in s.steps
    requires OpensRecall(s, t, ctx, req, target, anchor, e) && target.layoutId !in s.recalls
    ensures PinLedger(t)
  {
    forall j | j in t.steps ensures ViewAccounted(t, j) && RecallAccounted(t, j) {
      assert j == KeyOf(ctx, req) || (ViewAccounted(s, j) && RecallAccounted(s, j));
    }
  }

  lemma OpensRecallKeepsRest(s: State, t: State, ctx: OperationContext, req: Request, target: RecallTarget,
                             anchor: ArchiveReceipt, e: Entity)
    requires Entities(s) && Ledger(s) && Revisions(s)
    requires Qualify(ctx).Ok? && req.PrepareRecall? && KeyOf(ctx, req) !in s.steps
    requires OpensRecall(s, t, ctx, req, target, anchor, e)
    ensures Entities(t) && Ledger(t) && Revisions(t)
  {
    QuietKeeps(s, t, KeyOf(ctx, req), SavedStep(req, Ok(TargetReply(target))));
  }

  lemma OpensViewKeepsInv(s: State, t: State, ctx: OperationContext, req: Request, view: DataView, e: Entity)
    requires Inv(s) && Qualify(ctx).Ok? && req.PrepareArchive? && KeyOf(ctx, req) !in s.steps
    requires OpensView(s, t, ctx, req, view, e) && view.viewId !in s.views
    ensures Inv(t)
  {
    assert Owned(t) by { SamePublishedKeepsOwned(s, t); }
    OpenViewKeepsPins(s, t, ctx, view, e);
    OpensViewKeepsPinLedger(s, t, ctx, req, view, e);
    OpensViewKeepsRest(s, t, ctx, req, view, e);
  }

  lemma OpensRecallKeepsInv(s: State, t: State, ctx: OperationContext, req: Request, target: RecallTarget,
                            anchor: ArchiveReceipt, e: Entity)
    requires Inv(s) && Qualify(ctx).Ok? && req.PrepareRecall? && KeyOf(ctx, req) !in s.steps
    requires OpensRecall(s, t, ctx, req, target, anchor, e) && FreshFor(s, target.layoutId)
    ensures Inv(t)
  {
    OpenRecallKeepsOwned(s, t, target.layoutId, RecallOwner(ctx, target, anchor));
    OpenRecallKeepsPins(s, t, ctx, target, anchor, e);
    OpensRecallKeepsPinLedger(s, t, ctx, req, target, anchor, e);
    OpensRecallKeepsRest(s, t, ctx, req, target, anchor, e);
  }

  lemma TerminatesKeepsPins(s: State, t: State, ctx: OperationContext, req: Request, f: Entity)
    requires Pins(s) && Terminal(NameOf(req)) && Terminates(s, t, ctx, req, f)
    ensures Pins(t)
  {
    var id := f.public.data.entity.entity;
    match req
    case CommitArchive(view, _) => CloseViewKeepsPins(s, t, view.viewId, id, f);
    case ReleaseData(_) => ReleaseKeepsPins(s, t, id, f);
    case CommitRecall(target, _) => CloseRecallKeepsPins(s, t, target.layoutId, id, f);
  }

  lemma TerminatesKeepsOwned(s: State, t: State, ctx: OperationContext, req: Request, f: Entity)
    requires Owned(s) && Terminal(NameOf(req)) && Terminates(s, t, ctx, req, f)
    ensures Owned(t)
  {
    var id := f.public.data.entity.entity;
    match req
    case CommitArchive(_, _) => SamePublishedKeepsOwned(s, t);
    case ReleaseData(_) => ReleaseKeepsOwned(s, t, id, f);
    case CommitRecall(target, _) => CloseRecallKeepsOwned(s, t, target.layoutId, id, f);
  }

  lemma TerminatesKeepsPinLedger(s: State, t: State, ctx: OperationContext, req: Request, f: Entity)
    requires PinLedger(s) && Terminal(NameOf(req)) && Terminates(s, t, ctx, req, f) && KeyOf(ctx, req) !in s.steps
    ensures PinLedger(t)
  {
    CloseKeepsPinLedger(s, t, KeyOf(ctx, req), SavedStep(req, Ok(StateReply(f.public))),
                        if req.CommitArchive? then Some(req.view.viewId) else None,
                        if req.CommitRecall? then Some(req.target.layoutId) else None);
  }

  lemma TerminatesKeepsInv(s: State, t: State, ctx: OperationContext, req: Request, f: Entity)
    requires Inv(s) && Qualify(ctx).Ok? && Terminal(NameOf(req)) && KeyOf(ctx, req) !in s.steps
    requires Terminates(s, t, ctx, req, f)
    ensures Inv(t)
  {
    assert Pins(t) by { TerminatesKeepsPins(s, t, ctx, req, f); }
    assert Owned(t) by { TerminatesKeepsOwned(s, t, ctx, req, f); }
    assert PinLedger(t) by { TerminatesKeepsPinLedger(s, t, ctx, req, f); }
    assert Entities(t) && Ledger(t) && Revisions(t) by {
      TerminalKeeps(s, t, ctx, req, f.public.data.entity.entity, f);
    }
  }

  lemma FailureKeepsInv(s: State, ctx: OperationContext, req: Request, e: HsmError)
    requires Inv(s) && Qualify(ctx).Ok? && KeyOf(ctx, req) !in s.steps && Definite(e)
    ensures Inv(Record(s, KeyOf(ctx, req), SavedStep(req, Err(e))))
  {
    var k := KeyOf(ctx, req);
    var saved := SavedStep(req, Err(e));
    var t := Record(s, k, saved);
    QuietKeeps(s, t, k, saved);
    CloseKeepsPinLedger(s, t, k, saved, None, None);
    SamePublishedKeepsOwned(s, t);
    forall v | v in t.views ensures ViewOk(t, v) { assert ViewOk(s, v); }
    forall l | l in t.recalls ensures RecallOk(t, l) { assert RecallOk(s, l); }
  }
}
