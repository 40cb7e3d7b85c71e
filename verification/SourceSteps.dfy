/**
 What one storage call, import or collection does to the metadata: every invariant is kept and
 the history moves on. `Advances` is the relation between the states a handle persists.
 */
module SourceSteps {
  import opened Managed
  import opened Files
  import opened SourceState
  import opened SourceInvariants

  lemma FreshStepEvolves(s: State, t: State, k: StepKey, saved: SavedStep)
    requires k !in s.steps && t.steps == s.steps[k := saved]
    requires t.entities == s.entities && t.completed == s.completed && SameIdentity(s, t)
    ensures Evolves(s, t)
  {
  }

  lemma TerminatesEvolves(s: State, t: State, ctx: OperationContext, req: Request, f: Entity)
    requires Terminal(NameOf(req)) && KeyOf(ctx, req) !in s.steps && Terminates(s, t, ctx, req, f)
    ensures Evolves(s, t)
  {
    forall id | id in s.entities ensures id in t.entities && EntityEvolves(s.entities[id], t.entities[id]) {
    }
  }

  /** A successful first run of any step keeps the invariants and advances the history. */
  lemma EffectKeepsInv(s: State, d: Disk, ctx: OperationContext, req: Request, env: Env)
    requires Inv(s) && Qualify(ctx).Ok? && KeyOf(ctx, req) !in s.steps && FreshFor(s, env.uuid)
    requires Effect(s, d, ctx, req, env).result.Ok?
    ensures Inv(After(s, d, ctx, req, env)) && Evolves(s, After(s, d, ctx, req, env))
  {
    var t := After(s, d, ctx, req, env);
    match req
    case PrepareArchive(data) =>
      var view, e := PrepareArchiveOpens(s, d, ctx, data, env);
      OpensViewKeepsInv(s, t, ctx, req, view, e);
      FreshStepEvolves(s, t, KeyOf(ctx, req), SavedStep(req, Ok(ViewReply(view))));
    case PrepareRecall(expected, anchor) =>
      var target, e := PrepareRecallOpens(s, d, ctx, expected, anchor, env);
      OpensRecallKeepsInv(s, t, ctx, req, target, anchor, e);
      FreshStepEvolves(s, t, KeyOf(ctx, req), SavedStep(req, Ok(TargetReply(target))));
    case _ =>
      var f := EffectTerminates(s, d, ctx, req, env);
      TerminatesKeepsInv(s, t, ctx, req, f);
      TerminatesEvolves(s, t, ctx, req, f);
  }

  lemma EffectTerminates(s: State, d: Disk, ctx: OperationContext, req: Request, env: Env) returns (f: Entity)
    requires Inv(s) && Qualify(ctx).Ok? && KeyOf(ctx, req) !in s.steps && Terminal(NameOf(req))
    requires Effect(s, d, ctx, req, env).result.Ok?
    ensures Terminates(s, After(s, d, ctx, req, env), ctx, req, f)
  {
    match req
    case CommitArchive(view, receipt) =>
      assert view.viewId in s.views by { CommitArchiveGuards(s, d, ctx, view, receipt, env); }
      assert ViewOk(s, view.viewId);
      f := CommitArchiveTerminates(s, d, ctx, view, receipt, env);
    case ReleaseData(expected) =>
      f := ReleaseTerminates(s, d, ctx, expected, env);
    case CommitRecall(target, evidence) =>
      assert target.layoutId in s.recalls by { CommitRecallGuards(s, d, ctx, target, evidence, env); }
      assert RecallOk(s, target.layoutId);
      f := CommitRecallTerminates(s, d, ctx, target, evidence, env);
  }

  lemma FailureEvolves(s: State, ctx: OperationContext, req: Request, e: HsmError)
    requires KeyOf(ctx, req) !in s.steps
    ensures Evolves(s, Record(s, KeyOf(ctx, req), SavedStep(req, Err(e))))
  {
    FreshStepEvolves(s, Record(s, KeyOf(ctx, req), SavedStep(req, Err(e))), KeyOf(ctx, req), SavedStep(req, Err(e)));
  }

  // ---------- import and collection ----------

  /** The state with one more entity. */
  predicate Adds(s: State, t: State, id: string, e: Entity) {
    && id !in s.entities && t.entities == s.entities[id := e]
    && t.views == s.views && t.recalls == s.recalls && t.steps == s.steps && t.completed == s.completed && t.gc == s.gc
    && SameIdentity(s, t)
  }

  lemma ImportKeepsInv(s: State, id: string, layout: string, bytes: Bytes)
    requires Inv(s) && id != "" && id !in s.entities && FreshFor(s, layout)
    ensures var t := s.(entities := s.entities[id := NewEntity(s, id, layout, bytes)]); Inv(t) && Evolves(s, t)
  {
    var e := NewEntity(s, id, layout, bytes);
    var t := s.(entities := s.entities[id := e]);
    assert Adds(s, t, id, e);
    AddsKeepsInv(s, t, id, e, layout, bytes);
  }

  lemma AddsKeepsInv(s: State, t: State, id: string, e: Entity, layout: string, bytes: Bytes)
    requires Inv(s) && id != "" && Adds(s, t, id, e) && e == NewEntity(s, id, layout, bytes) && FreshFor(s, layout)
    ensures Inv(t) && Evolves(s, t)
  {
    AddsKeepsEntities(s, t, id, e, layout, bytes);
    AddsKeepsPins(s, t, id, e);
    AddsKeepsRevisions(s, t, id, e);
    ImportKeepsOwned(s, t, id, layout);
    SameLogKeepsLedgers(s, t);
    AddsEvolves(s, t, id, e);
  }

  lemma AddsEvolves(s: State, t: State, id: string, e: Entity)
    requires Adds(s, t, id, e)
    ensures Evolves(s, t)
  {
  }

  lemma AddsKeepsEntities(s: State, t: State, id: string, e: Entity, layout: string, bytes: Bytes)
    requires Entities(s) && id != "" && Adds(s, t, id, e) && e == NewEntity(s, id, layout, bytes)
    ensures Entities(t)
  {
    forall a | a in t.entities ensures EntityOk(t, a, t.entities[a]) {
      assert a == id || EntityOk(s, a, s.entities[a]);
    }
  }

  lemma AddsKeepsPins(s: State, t: State, id: string, e: Entity)
    requires Pins(s) && Adds(s, t, id, e)
    ensures Pins(t)
  {
    forall v | v in t.views ensures ViewOk(t, v) { assert ViewOk(s, v); }
    forall l | l in t.recalls ensures RecallOk(t, l) { assert RecallOk(s, l); }
  }

  lemma AddsKeepsRevisions(s: State, t: State, id: string, e: Entity)
    requires Revisions(s) && Adds(s, t, id, e) && e.public.revision == 1 && e.public.data.entity.entity == id
    ensures Revisions(t)
  {
    forall a | a in t.entities
      ensures t.entities[a].public.revision == 1 + |Operations(t, t.entities[a].public.data)|
    {
      var key := t.entities[a].public.data;
      assert Operations(t, key) == Operations(s, key);
      assert a == id ==> Operations(t, key) == {};
    }
  }

  lemma SameLogKeepsLedgers(s: State, t: State)
    requires Ledger(s) && PinLedger(s)
    requires t.steps == s.steps && t.completed == s.completed && t.views == s.views && t.recalls == s.recalls
    ensures Ledger(t) && PinLedger(t)
  {
    forall op | op in t.completed ensures CompletedOk(t, op) { assert CompletedOk(s, op); }
    forall k | Succeeded(t, k) && Terminal(k.name) ensures Indexed(t, k) { assert Succeeded(s, k) && Indexed(s, k); }
    forall k | k in t.steps ensures ViewAccounted(t, k) && RecallAccounted(t, k) {
      assert ViewAccounted(s, k) && RecallAccounted(s, k);
    }
  }

  lemma ImportKeepsOwned(s: State, t: State, id: string, layout: string)
    requires Owned(s) && FreshFor(s, layout) && id !in s.entities
    requires id in t.entities && t.entities == s.entities[id := t.entities[id]]
             && t.entities[id].published == Some(layout)
    requires t.recalls == s.recalls && t.gc == s.gc
    ensures Owned(t)
  {
    forall a, l | Publishes(t, a, l) ensures l !in t.recalls && l !in t.gc && (a == id || Publishes(s, a, l)) {
      assert a == id || Publishes(s, a, l);
    }
    forall a, b, l | Publishes(t, a, l) && Publishes(t, b, l) ensures a == b {
      assert a == id || Publishes(s, a, l);
      assert b == id || Publishes(s, b, l);
    }
  }

  lemma CollectKeepsInv(s: State)
    requires Inv(s)
    ensures Inv(s.(gc := [])) && Evolves(s, s.(gc := []))
  {
    var t := s.(gc := []);
    assert Ledger(t) && PinLedger(t) by { SameLogKeepsLedgers(s, t); }
    assert Owned(t) by { CollectKeepsOwned(s, t); }
    assert Entities(t) && Revisions(t) by { SameEntitiesKeeps(s, t); }
    assert Pins(t) by { SamePinsKeeps(s, t); }
  }

  lemma CollectKeepsOwned(s: State, t: State)
    requires Owned(s) && t.entities == s.entities && t.recalls == s.recalls && t.gc == []
    ensures Owned(t)
  {
    forall a, l | Publishes(t, a, l) ensures l !in t.recalls && Publishes(s, a, l) { assert Publishes(s, a, l); }
  }

  lemma SameEntitiesKeeps(s: State, t: State)
    requires Entities(s) && Revisions(s) && t.entities == s.entities && t.completed == s.completed && SameIdentity(s, t)
    ensures Entities(t) && Revisions(t)
  {
    forall a | a in t.entities
      ensures EntityOk(t, a, t.entities[a])
      ensures t.entities[a].public.revision == 1 + |Operations(t, t.entities[a].public.data)|
    {
      assert EntityOk(s, a, s.entities[a]);
      assert Operations(t, t.entities[a].public.data) == Operations(s, t.entities[a].public.data);
    }
  }

  lemma SamePinsKeeps(s: State, t: State)
    requires Pins(s) && t.entities == s.entities && t.views == s.views && t.recalls == s.recalls
    ensures Pins(t)
  {
    forall v | v in t.views ensures ViewOk(t, v) { assert ViewOk(s, v); }
    forall l | l in t.recalls ensures RecallOk(t, l) { assert RecallOk(s, l); }
  }

  // ---------- what one call writes ----------

  /** What a storage call does to the layout directories. */
  datatype Touch = Untouched | NewDir(id: string, dir: LayoutDir) | Flushed(layout: string, seal: Seal)

  predicate CanTouch(d: Disk, touch: Touch) {
    match touch
    case Untouched => true
    case NewDir(id, dir) => SourceLayout(id) !in d.dirs && dir.holder.None?
    case Flushed(layout, seal) =>
      var p := SourceLayout(layout);
      p in d.dirs && d.dirs[p].holder.None? && d.dirs[p].data.Some?
      && (seal.Unsealed? ==> d.dirs[p].seal.Unsealed?) && (d.dirs[p].seal.SealDurable? ==> seal.SealDurable?)
  }

  function Touched(d: Disk, touch: Touch): Disk {
    match touch
    case Untouched => d
    case NewDir(id, dir) => d.(dirs := d.dirs[SourceLayout(id) := dir])
    case Flushed(layout, seal) =>
      var p := SourceLayout(layout);
      if p in d.dirs then d.(dirs := d.dirs[p := d.dirs[p].(synced := true, seal := seal)]) else d
  }

  /** The recall's layout holds exactly its entity's content. */
  predicate VerifiedRecall(s: State, d: Disk, l: string) {
    && l in s.recalls && SourceLayout(l) in d.dirs && d.dirs[SourceLayout(l)].data.Some?
    && var id := s.recalls[l].target.data.entity.entity;
       && id in s.entities
       && var p := s.entities[id].public;
          Measure(d.dirs[SourceLayout(l)].data.value) == TransferEvidence(p.length, p.digest)
  }

  lemma EffectTouches(s: State, d: Disk, ctx: OperationContext, req: Request, env: Env) returns (touch: Touch)
    ensures CanTouch(d, touch) && Effect(s, d, ctx, req, env).disk == Touched(d, touch)
    ensures touch.NewDir? ==>
              touch == NewDir(env.uuid, EMPTY_LAYOUT) && req.PrepareRecall? && Effect(s, d, ctx, req, env).result.Ok?
    ensures touch.Flushed? ==>
              req.CommitRecall? && touch.layout == req.target.layoutId && VerifiedRecall(s, d, touch.layout)
    ensures Effect(s, d, ctx, req, env).result.Ok? && req.PrepareRecall? ==> touch.NewDir?
    ensures Effect(s, d, ctx, req, env).result.Ok? && req.CommitRecall? ==>
              touch == Flushed(req.target.layoutId, SealDurable)
  {
    touch := Untouched;
    match req
    case PrepareArchive(_) =>
    case CommitArchive(_, _) =>
    case ReleaseData(_) =>
    case PrepareRecall(_, _) =>
      if Effect(s, d, ctx, req, env).result.Ok? {
        touch := NewDir(env.uuid, EMPTY_LAYOUT);
      }
    case CommitRecall(target, evidence) =>
      touch := CommitRecallTouches(s, d, ctx, target, evidence, env);
  }

  lemma CommitRecallTouches(s: State, d: Disk, ctx: OperationContext, target: RecallTarget, evidence: TransferEvidence,
                            env: Env)
    returns (touch: Touch)
    ensures CanTouch(d, touch) && CommitRecallEffect(s, d, ctx, target, evidence, env).disk == Touched(d, touch)
    ensures touch.Untouched?
            || (touch.Flushed? && touch.layout == target.layoutId && VerifiedRecall(s, d, touch.layout))
    ensures CommitRecallEffect(s, d, ctx, target, evidence, env).result.Ok? ==>
              touch == Flushed(target.layoutId, SealDurable)
  {
    var layout := SourceLayout(target.layoutId);
    var out := CommitRecallEffect(s, d, ctx, target, evidence, env);
    touch := Untouched;
    if out.disk != d {
      var flushed := SyncPayload(d, layout);
      var (d', sealed) := WriteSeal(flushed, layout, env.fault);
      touch := Flushed(target.layoutId, d'.dirs[layout].seal);
      assert d'.dirs == Touched(d, touch).dirs;
    } else if out.result.Ok? {
      touch := Flushed(target.layoutId, SealDurable);
      CommitRecallGuards(s, d, ctx, target, evidence, env);
    }
  }

  /** The state an effect's outcome asks to persist: its own with the result, or the old one with a
      definite failure. */
  function Recorded(s: State, k: StepKey, req: Request, out: Outcome): Option<State> {
    if out.result.Ok? then Some(Record(out.state, k, SavedStep(req, out.result)))
    else if Definite(out.result.error) then Some(Record(s, k, SavedStep(req, Err(out.result.error))))
    else None
  }

  /** The state a call tries to persist, if it gets that far. */
  function Attempted(st: Store, d: Disk, ctx: OperationContext, req: Request, env: Env): Option<State> {
    var k := KeyOf(ctx, req);
    if Qualify(ctx).Err? || st.poisoned || k in st.state.steps then None
    else Recorded(st.state, k, req, Effect(st.state, d, ctx, req, env))
  }

  /** Every call is: touch the layouts, then persist the attempted state or nothing. */
  lemma CallWrites(st: Store, d: Disk, ctx: OperationContext, req: Request, env: Env)
    ensures var r := Call(st, d, ctx, req, env);
            var next := Attempted(st, d, ctx, req, env);
            && (next.None? ==> r.store == st)
            && (next.Some? ==> r.store == Persist(st, next.value, env.fault).0)
            && r.disk == (if Qualify(ctx).Err? || st.poisoned || KeyOf(ctx, req) in st.state.steps then d
                          else Effect(st.state, d, ctx, req, env).disk)
  {
  }

  lemma AttemptedKeepsInv(st: Store, d: Disk, ctx: OperationContext, req: Request, env: Env)
    requires Inv(st.state) && FreshFor(st.state, env.uuid) && Attempted(st, d, ctx, req, env).Some?
    ensures Inv(Attempted(st, d, ctx, req, env).value) && Evolves(st.state, Attempted(st, d, ctx, req, env).value)
  {
    var out := Effect(st.state, d, ctx, req, env);
    if out.result.Ok? {
      EffectKeepsInv(st.state, d, ctx, req, env);
    } else {
      FailureKeepsInv(st.state, ctx, req, out.result.error);
      FailureEvolves(st.state, ctx, req, out.result.error);
    }
  }

  /** Import is: a new layout in some stage of completion, then one persisted entity or nothing. */
  lemma ImportWrites(st: Store, d: Disk, id: string, bytes: Bytes, env: Env) returns (touch: Touch, next: Option<State>)
    ensures CanTouch(d, touch) && Import(st, d, id, bytes, env).disk == Touched(d, touch)
    ensures touch.Untouched? || (touch.NewDir? && touch.id == env.uuid)
    ensures next.None? ==> Import(st, d, id, bytes, env).store == st
    ensures next.Some? ==>
              && !st.poisoned && id != "" && id !in st.state.entities
              && next.value == st.state.(entities := st.state.entities[id := NewEntity(st.state, id, env.uuid, bytes)])
              && touch == NewDir(env.uuid, LayoutDir(Some(bytes), true, SealDurable, None))
              && Import(st, d, id, bytes, env).store == Persist(st, next.value, env.fault).0
    ensures Import(st, d, id, bytes, env).result.Ok? ==>
              && next.Some?
              && Import(st, d, id, bytes, env).result.value == NewEntity(st.state, id, env.uuid, bytes).public
              && Import(st, d, id, bytes, env).store == Store(Replaceable(next.value, next.value), next.value, false)
  {
    var layout := SourceLayout(env.uuid);
    touch, next := Untouched, None;
    if id != "" && !st.poisoned && id !in st.state.entities && NewLayout(d, layout, env.fault).Ok? {
      var written := LayoutDir(Some(bytes), false, Unsealed, None);
      var d1 := NewLayout(d, layout, env.fault).value;
      assert d1.dirs[layout := written] == d.dirs[layout := written];
      touch := NewDir(env.uuid, written);
      if !env.fault.SyncFault? && !env.fault.ReadFault? {
        var flushed := SyncPayload(d.(dirs := d.dirs[layout := written]), layout);
        var (d2, sealed) := WriteSeal(flushed, layout, env.fault);
        touch := NewDir(env.uuid, d2.dirs[layout]);
        assert d2.dirs == Touched(d, touch).dirs;
        if sealed.Ok? {
          next := Some(st.state.(entities := st.state.entities[id := NewEntity(st.state, id, env.uuid, bytes)]));
        }
      }
    }
  }

  // ---------- garbage collection ----------

  /** Removal touches only the listed layouts, whether or not it gets through the list. */
  lemma {:induction false} RemoveAllOnly(d: Disk, layouts: seq<string>, at: nat, fault: Fault)
    ensures var d' := RemoveAll(d, layouts, at, fault).0;
            && (forall p | p in d'.dirs :: p in d.dirs)
            && (forall p | p in d.dirs && !(p.SourceLayout? && p.id in layouts) ::
                 p in d'.dirs && d'.dirs[p] == d.dirs[p])
            && (forall p | p in d.dirs && d.dirs[p].holder.Some? :: p in d'.dirs && d'.dirs[p] == d.dirs[p])
            && (forall p | p in d'.unlinked :: p in d.unlinked || (p.SourceLayout? && p.id in layouts))
    decreases layouts
  {
    if layouts != [] {
      var (d1, removed) := RemoveOne(d, layouts[0], fault.RemoveFault? && fault.at == at, fault);
      assert forall l | l in layouts[1..] :: l in layouts;
      if removed.Ok? {
        RemoveAllOnly(d1, layouts[1..], at + 1, fault);
      }
    }
  }

  /** A removal that gets through has removed every listed layout. */
  lemma {:induction false} RemoveAllRemoves(d: Disk, layouts: seq<string>, at: nat, fault: Fault)
    requires RemoveAll(d, layouts, at, fault).1.Ok?
    ensures forall l | l in layouts :: SourceLayout(l) !in RemoveAll(d, layouts, at, fault).0.dirs
    decreases layouts
  {
    if layouts != [] {
      var (d1, removed) := RemoveOne(d, layouts[0], fault.RemoveFault? && fault.at == at, fault);
      RemoveAllRemoves(d1, layouts[1..], at + 1, fault);
      RemoveAllOnly(d1, layouts[1..], at + 1, fault);
    }
  }

  /** Collection may fail midway and be run again from the same list. */
  lemma {:induction false} RemoveAllResumes(d: Disk, layouts: seq<string>, at: nat, again: nat, fault: Fault)
    requires !exists l | l in layouts :: SourceLayout(l) in d.dirs && d.dirs[SourceLayout(l)].holder.Some?
    ensures var d' := RemoveAll(d, layouts, at, fault).0; RemoveAll(d', layouts, again, Clean).1.Ok?
    decreases layouts
  {
    var d' := RemoveAll(d, layouts, at, fault).0;
    RemoveAllOnly(d, layouts, at, fault);
    forall l | l in layouts && SourceLayout(l) in d'.dirs ensures d'.dirs[SourceLayout(l)].holder.None? {
      RemoveAllFrees(d, layouts, at, fault, SourceLayout(l));
    }
    RemoveAllSucceeds(d', layouts, again);
  }

  lemma {:induction false} RemoveAllFrees(d: Disk, layouts: seq<string>, at: nat, fault: Fault, p: Path)
    requires p in d.dirs && d.dirs[p].holder.None?
    ensures var d' := RemoveAll(d, layouts, at, fault).0; p in d'.dirs ==> d'.dirs[p].holder.None?
    decreases layouts
  {
    if layouts != [] {
      var (d1, removed) := RemoveOne(d, layouts[0], fault.RemoveFault? && fault.at == at, fault);
      if removed.Ok? {
        if p in d1.dirs {
          RemoveAllFrees(d1, layouts[1..], at + 1, fault, p);
        } else {
          RemoveAllOnly(d1, layouts[1..], at + 1, fault);
        }
      }
    }
  }

  lemma {:induction false} RemoveAllSucceeds(d: Disk, layouts: seq<string>, at: nat)
    requires forall l | l in layouts && SourceLayout(l) in d.dirs :: d.dirs[SourceLayout(l)].holder.None?
    ensures RemoveAll(d, layouts, at, Clean).1.Ok?
    decreases layouts
  {
    if layouts != [] {
      RemoveAllSucceeds(RemoveOne(d, layouts[0], false, Clean).0, layouts[1..], at + 1);
    }
  }
}
