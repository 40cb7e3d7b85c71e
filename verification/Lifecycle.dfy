/**
 The whole cycle, without faults, from any reachable quiet state: archive an entity, release it,
 recall it. It always succeeds, counts three revisions, and the recalled entity reads as before.
 */
module Lifecycle {
  import opened Managed
  import opened Files
  import opened SourceState
  import opened SourceInvariants
  import opened SourceSteps
  import opened System
  import opened SystemSafety
  import E = Engine
  import opened Lone
  import A = ArchiveRecovery
  import R = RecallRecovery
  import D = Releases
  import Cat = Catalog

  /** A healthy reachable moment with no copy under way. */
  ghost predicate Quiet(w: World) {
    SystemInv(w) && Healthy(w) && Lodged(w.disk, w.sessions) && w.sessions == map[]
  }

  /** Nothing is recorded of this operation ID. */
  predicate Unused(s: State, op: string) {
    op != "" && op !in s.completed && forall name :: StepKey(Context(op), name) !in s.steps
  }

  /** A re-run draws no UUID but those it is given. */
  lemma {:induction false} RerunIssues(x: Lone, uuids: seq<string>)
    ensures Rerun(x, uuids).world.issued <= x.world.issued + set u | u in uuids
    decreases uuids
  {
    if !x.flow.pc.Done? && uuids != [] {
      CleanStepIssuesOne(x, uuids[0]);
      RerunIssues(CleanStep(x, uuids[0]), uuids[1..]);
      assert uuids[0] in uuids && forall u | u in uuids[1..] :: u in uuids;
    }
  }

  lemma RestStaysFresh(x: Lone, uuids: seq<string>, n: nat)
    requires FreshIds(x.world, uuids) && n <= |uuids|
    ensures FreshIds(Rerun(x, uuids[..n]).world, uuids[n..])
  {
    RerunIssues(x, uuids[..n]);
    var rest := uuids[n..];
    forall i | 0 <= i < |rest| ensures FreshId(Rerun(x, uuids[..n]).world, rest[i]) {
      assert FreshId(x.world, uuids[n + i]) && rest[i] !in uuids[..n];
    }
  }

  // ---------- the three legs ----------

  lemma ArchiveEnd(o: A.Operation, z: Lone, dp: A.Phase, vp: A.Phase) returns (viewId: string, receipt: ArchiveReceipt)
    requires A.Stand(o, z, dp, vp) && Healthy(z.world) && EndedOk(z.flow.pc)
    ensures Quiet(z.world) && A.Fits(o, receipt) && viewId !in o.base.views
    ensures z.flow.pc == E.Done(Ok(Attach(A.Before(o), receipt).public))
    ensures z.world.source == Opened(ClearStore(A.StateAt(o, A.Anchored(viewId, receipt))))
  {
    viewId, receipt := A.AnchoredEnd(o, z, dp, vp);
    EndIsQuiet(z);
  }

  lemma ArchiveLeg(o: A.Operation, x: Lone, uuids: seq<string>) returns (viewId: string, receipt: ArchiveReceipt)
    requires A.Begun(o, x) && FreshIds(x.world, uuids) && 9 <= |uuids|
    ensures var z := Rerun(x, uuids);
            && Quiet(z.world) && A.Fits(o, receipt) && viewId !in o.base.views
            && z.flow.pc == E.Done(Ok(Attach(A.Before(o), receipt).public))
            && z.world.source == Opened(ClearStore(A.StateAt(o, A.Anchored(viewId, receipt))))
  {
    A.BegunStands(o, x);
    var dp, vp := A.RerunEnds(o, x, uuids, A.Unstarted, A.Unstarted);
    viewId, receipt := ArchiveEnd(o, Rerun(x, uuids), dp, vp);
  }

  lemma EndIsQuiet(z: Lone)
    requires Alone(z) && z.flow.pc.Done?
    ensures Lodged(z.world.disk, z.world.sessions) && z.world.sessions == map[]
  {
    assert forall k :: k in z.world.sessions ==> k in z.world.sessions.Keys;
  }

  lemma RecallLeg(o: R.Operation, x: Lone, uuids: seq<string>) returns (layoutId: string)
    requires R.Begun(o, x) && FreshIds(x.world, uuids) && 7 <= |uuids|
    ensures R.Given(o)
    ensures var z := Rerun(x, uuids);
            && Quiet(z.world)
            && z.flow.pc == E.Done(Ok(Attached(R.Before(o), layoutId).public))
            && z.world.source == Opened(ClearStore(R.StateAt(o, R.Recalled(layoutId))))
  {
    R.BegunStands(o, x);
    var dq := R.RerunEnds(o, x, uuids, R.Unstarted);
    R.EndedMeans(o, Rerun(x, uuids), false, R.Unstarted, dq);
    layoutId := dq.layoutId;
    EndIsQuiet(Rerun(x, uuids));
  }

  /** The release workflow, run alone from its first call. */
  ghost function Detached(w: World, p: EntityState, op: string, uuids: seq<string>): Lone {
    Rerun(D.At(w, Context(op), p, E.Ask), uuids)
  }

  lemma ReleaseLeg(w: World, op: string, e: Entity, uuids: seq<string>)
    requires Quiet(w) && Unused(Memory(w), op) && D.Releasable(Memory(w), e) && FreshIds(w, uuids) && 4 <= |uuids|
    ensures var z := Detached(w, e.public, op, uuids);
            && z.flow.pc == E.Done(Ok(Detach(e).public)) && Quiet(z.world)
            && z.world.source == Opened(ClearStore(D.Released(Memory(w), Context(op), e)))
  {
    var x := D.At(w, Context(op), e.public, E.Ask);
    PublishedIsFree(w, e);
    D.ReleaseSucceeds(w, Context(op), e, uuids);
    RerunKeeps(x, uuids);
    EndIsQuiet(Rerun(x, uuids));
  }

  lemma PublishedIsFree(w: World, e: Entity)
    requires Lodged(w.disk, w.sessions) && w.sessions == map[] && Backed(Memory(w), w.disk, w.catalog)
    requires EntityOf(Memory(w), e.public.data) == Ok(e) && e.published.Some?
    ensures SourceLayout(e.published.value) in w.disk.dirs && w.disk.dirs[SourceLayout(e.published.value)].holder.None?
  {
    assert EntityBacked(w.disk, w.catalog, Memory(w).entities[e.public.data.entity.entity]);
    assert HolderOk(w.disk, w.sessions, SourceLayout(e.published.value));
  }

  // ---------- the cycle ----------

  /** An online entity nobody is working on, a free key, and three unused operation IDs. */
  ghost predicate Ready(w: World, e: Entity, key: ArchiveKey, op1: string, op2: string, op3: string) {
    && Quiet(w) && EntityOf(Memory(w), e.public.data) == Ok(e) && e.published.Some?
    && !Viewed(Memory(w), e.public.data)
    && Cat.OwnKey(w.catalog.id, key) && key !in w.catalog.linked
    && Cat.AttemptOf(Context(op1), key) !in w.catalog.attempts
    && op1 != op2 && op1 != op3 && op2 != op3
    && Unused(Memory(w), op1) && Unused(Memory(w), op2) && Unused(Memory(w), op3)
  }

  lemma ArchiveCanBegin(w: World, e: Entity, key: ArchiveKey, op1: string, op2: string, op3: string)
    requires Ready(w, e, key, op1, op2, op3)
    ensures A.Begun(A.Operation(Memory(w), Context(op1), e.public.data, key),
                    Lone(w, E.Flow(Context(op1), E.ArchiveJob(e.public.data, key), E.Ask)))
  {
  }

  lemma AnchoredFacts(o: A.Operation, v: string, r: ArchiveReceipt, op2: string, op3: string)
    requires A.Given(o) && A.Fits(o, r) && Pins(o.base) && A.Before(o).public.data == o.data
    requires op2 != o.ctx.operationId && op3 != o.ctx.operationId && Unused(o.base, op2) && Unused(o.base, op3)
    ensures var s := A.StateAt(o, A.Anchored(v, r));
            D.Releasable(s, Attach(A.Before(o), r)) && Unused(s, op2) && Unused(s, op3)
  {
    var s := A.StateAt(o, A.Anchored(v, r));
    assert EntityOf(s, o.data) == Ok(Attach(A.Before(o), r));
    forall l | l in s.recalls ensures s.recalls[l].target.data != o.data {
      assert RecallOk(o.base, l);
    }
  }

  lemma ReleasedFacts(s: State, op: string, e: Entity, op3: string)
    requires D.Releasable(s, e) && Unused(s, op3) && op3 != op
    ensures var t := D.Released(s, Context(op), e);
            && EntityOf(t, e.public.data) == Ok(Detach(e)) && !Recalling(t, e.public.data) && Unused(t, op3)
  {
    var t := D.Released(s, Context(op), e);
    forall l | l in t.recalls ensures t.recalls[l].target.data != e.public.data {
      assert s.recalls[l].target.data != e.public.data;
    }
  }

  lemma RecallCanBegin(w: World, e: Entity, r: ArchiveReceipt, op: string)
    requires Quiet(w) && EntityOf(Memory(w), e.public.data) == Ok(e) && e.public.residency.Offline?
    requires r in e.public.anchors && !Recalling(Memory(w), e.public.data)
             && Unused(Memory(w), op)
    ensures R.Begun(R.Operation(Memory(w), Context(op), e.public, r.key),
                    Lone(w, E.Flow(Context(op), E.RecallJob(e.public, r.key), E.Ask)))
  {
  }

  lemma PublishedReads(w: World, e: Entity)
    requires Healthy(w) && Entities(Memory(w)) && Backed(Memory(w), w.disk, w.catalog)
    requires EntityOf(Memory(w), e.public.data) == Ok(e) && e.published.Some?
    ensures var r := Read(Handle(w), w.disk, e.public.data.entity, Clean);
            r.Ok? && Measure(r.value) == Content(e.public)
  {
    assert EntityBacked(w.disk, w.catalog, Memory(w).entities[e.public.data.entity.entity]);
  }

  /** The three calls of the cycle, one after another. */
  ghost function Archived(w: World, e: Entity, key: ArchiveKey, op: string, uuids: seq<string>): Lone {
    Rerun(Lone(w, E.Flow(Context(op), E.ArchiveJob(e.public.data, key), E.Ask)), uuids)
  }

  ghost function Recalled(w: World, p: EntityState, key: ArchiveKey, op: string, uuids: seq<string>): Lone {
    Rerun(Lone(w, E.Flow(Context(op), E.RecallJob(p, key), E.Ask)), uuids)
  }

  lemma FirstLeg(w: World, e: Entity, key: ArchiveKey, op1: string, op2: string, op3: string, uuids: seq<string>)
      returns (r: ArchiveReceipt)
    requires Ready(w, e, key, op1, op2, op3) && FreshIds(w, uuids) && 9 <= |uuids|
    ensures var z := Archived(w, e, key, op1, uuids);
            var f := Attach(e, r);
            && Quiet(z.world) && z.flow.pc == E.Done(Ok(f.public)) && r.key == key && r in f.public.anchors
            && D.Releasable(Memory(z.world), f) && Unused(Memory(z.world), op2)
               && Unused(Memory(z.world), op3)
  {
    var o := A.Operation(Memory(w), Context(op1), e.public.data, key);
    ArchiveCanBegin(w, e, key, op1, op2, op3);
    var v;
    v, r := ArchiveLeg(o, Lone(w, E.Flow(Context(op1), E.ArchiveJob(e.public.data, key), E.Ask)), uuids);
    AnchoredFacts(o, v, r, op2, op3);
  }

  lemma RecalledFacts(o: R.Operation, l: string, e: Entity)
    requires R.Given(o) && R.Before(o) == e && e.public == o.expected
    ensures EntityOf(R.StateAt(o, R.Recalled(l)), e.public.data) == Ok(Attached(e, l))
  {
  }

  /** The entity as the cycle's last leg leaves it. */
  predicate BackOnline(w: World, e: Entity, f: Entity) {
    && w.source.Opened? && EntityOf(Memory(w), f.public.data) == Ok(f)
    && SameContent(e.public, f.public) && f.public.revision == e.public.revision + 1 && f.published.Some?
    && f.public.residency.Dual? && f.public.anchors == e.public.anchors
  }

  lemma LastLeg(w: World, e: Entity, r: ArchiveReceipt, op: string, uuids: seq<string>) returns (f: Entity)
    requires Quiet(w) && EntityOf(Memory(w), e.public.data) == Ok(e) && e.public.residency.Offline?
    requires r in e.public.anchors && !Recalling(Memory(w), e.public.data)
             && Unused(Memory(w), op)
    requires FreshIds(w, uuids) && 7 <= |uuids|
    ensures var z := Recalled(w, e.public, r.key, op, uuids);
            Quiet(z.world) && z.flow.pc == E.Done(Ok(f.public)) && BackOnline(z.world, e, f)
  {
    var o := R.Operation(Memory(w), Context(op), e.public, r.key);
    RecallCanBegin(w, e, r, op);
    var l := RecallLeg(o, Lone(w, E.Flow(Context(op), E.RecallJob(e.public, r.key), E.Ask)), uuids);
    f := Attached(e, l);
    RecalledFacts(o, l, e);
  }

  lemma ReleaseAndRecall(w: World, f: Entity, r: ArchiveReceipt, op2: string, op3: string, uuids: seq<string>)
      returns (g: Entity)
    requires Quiet(w) && D.Releasable(Memory(w), f) && r in f.public.anchors && op2 != op3
    requires Unused(Memory(w), op2) && Unused(Memory(w), op3) && FreshIds(w, uuids) && 11 <= |uuids|
    ensures var released := Detached(w, f.public, op2, uuids[..4]);
            var z := Recalled(released.world, Detach(f).public, r.key, op3, uuids[4..]);
            && released.flow.pc == E.Done(Ok(Detach(f).public))
            && Quiet(z.world) && z.flow.pc == E.Done(Ok(g.public)) && BackOnline(z.world, Detach(f), g)
  {
    SecondLeg(w, f, op2, op3, uuids);
    g := LastLeg(Detached(w, f.public, op2, uuids[..4]).world, Detach(f), r, op3, uuids[4..]);
  }

  lemma SecondLeg(w: World, f: Entity, op2: string, op3: string, uuids: seq<string>)
    requires Quiet(w) && D.Releasable(Memory(w), f) && op2 != op3
    requires Unused(Memory(w), op2) && Unused(Memory(w), op3) && FreshIds(w, uuids) && 4 <= |uuids|
    ensures var z := Detached(w, f.public, op2, uuids[..4]);
            && z.flow.pc == E.Done(Ok(Detach(f).public)) && Quiet(z.world) && FreshIds(z.world, uuids[4..])
            && EntityOf(Memory(z.world), f.public.data) == Ok(Detach(f)) && !Recalling(Memory(z.world), f.public.data)
            && Unused(Memory(z.world), op3)
  {
    FrontIsFresh(w, uuids, 4);
    ReleaseLeg(w, op2, f, uuids[..4]);
    RestStaysFresh(D.At(w, Context(op2), f.public, E.Ask), uuids, 4);
    ReleasedFacts(Memory(w), op2, f, op3);
  }

  lemma FrontIsFresh(w: World, uuids: seq<string>, n: nat)
    requires FreshIds(w, uuids) && n <= |uuids|
    ensures FreshIds(w, uuids[..n])
  {
  }

  lemma CycleReads(w: World, e: Entity, r: ArchiveReceipt, z: World, g: Entity)
    requires Quiet(w) && EntityOf(Memory(w), e.public.data) == Ok(e) && e.published.Some?
    requires Quiet(z) && BackOnline(z, Detach(Attach(e, r)), g)
    ensures Read(Handle(w), w.disk, e.public.data.entity, Clean).Ok?
    ensures Read(Handle(z), z.disk, e.public.data.entity, Clean)
            == Read(Handle(w), w.disk, e.public.data.entity, Clean)
  {
    PublishedReads(w, e);
    PublishedReads(z, g);
    DigestIsInjective(Read(Handle(w), w.disk, e.public.data.entity, Clean).value,
                      Read(Handle(z), z.disk, g.public.data.entity, Clean).value);
  }

  /** Archive, release, recall: each workflow succeeds, the entity ends Dual three revisions later
      with the new anchor, and reads exactly as at the start. */
  lemma FullCycle(w: World, e: Entity, key: ArchiveKey, op1: string, op2: string, op3: string, uuids: seq<string>)
    returns (f: Entity, g: Entity)
    requires Ready(w, e, key, op1, op2, op3) && FreshIds(w, uuids) && 20 <= |uuids|
    ensures var first := Archived(w, e, key, op1, uuids[..9]);
            var released := Detached(first.world, f.public, op2, uuids[9..][..4]);
            var last := Recalled(released.world, Detach(f).public, key, op3, uuids[9..][4..]);
            && first.flow.pc == E.Done(Ok(f.public)) && f.public.residency.Dual?
            && released.flow.pc == E.Done(Ok(Detach(f).public))
            && last.flow.pc == E.Done(Ok(g.public)) && g.public.residency.Dual?
               && g.public.revision == e.public.revision + 3
            && (exists a | a in g.public.anchors :: a.key == key) && last.world.source.Opened?
            && Read(Handle(w), w.disk, e.public.data.entity, Clean).Ok?
            && Read(Handle(last.world), last.world.disk, e.public.data.entity, Clean)
               == Read(Handle(w), w.disk, e.public.data.entity, Clean)
  {
    FrontIsFresh(w, uuids, 9);
    var r := FirstLeg(w, e, key, op1, op2, op3, uuids[..9]);
    RestStaysFresh(Lone(w, E.Flow(Context(op1), E.ArchiveJob(e.public.data, key), E.Ask)), uuids, 9);
    f := Attach(e, r);
    var first := Archived(w, e, key, op1, uuids[..9]);
    g := ReleaseAndRecall(first.world, f, r, op2, op3, uuids[9..]);
    var released := Detached(first.world, f.public, op2, uuids[9..][..4]);
    CycleReads(w, e, r, Recalled(released.world, Detach(f).public, key, op3, uuids[9..][4..]).world, g);
  }

  // ---------- where the cycle starts ----------

  lemma FirstIsQuiet(w: World)
    requires Init(w)
    ensures Quiet(w)
  {
    InitEstablishesInv(w);
  }

  lemma ImportCall(st: Store, d: Disk, id: string, bytes: Bytes, env: Env)
    requires !st.poisoned && id != "" && id !in st.state.entities && env.fault.Clean?
             && SourceLayout(env.uuid) !in d.dirs
    ensures var e := NewEntity(st.state, id, env.uuid, bytes);
            var r := Import(st, d, id, bytes, env);
            r.result == Ok(e.public) && r.store == ClearStore(st.state.(entities := st.state.entities[id := e]))
  {
  }

  /** At any quiet moment an import without faults succeeds and leaves an entity the cycle can start
      with: published, in nobody's view, and its bytes readable. */
  lemma ImportLeg(w: World, id: string, bytes: Bytes, uuid: string)
    requires Quiet(w) && id != "" && id !in Memory(w).entities && FreshId(w, uuid)
    ensures var e := NewEntity(Memory(w), id, uuid, bytes);
            var w' := Apply(w, DoImport(id, bytes, Env(Clean, uuid)));
            && Quiet(w') && EntityOf(Memory(w'), e.public.data) == Ok(e)
               && !Viewed(Memory(w'), e.public.data)
            && Read(Handle(w'), w'.disk, e.public.data.entity, Clean) == Ok(bytes)
  {
    var a := DoImport(id, bytes, Env(Clean, uuid));
    NewLayoutIsFree(w, uuid);
    ImportCall(Handle(w), w.disk, id, bytes, a.env);
    StepKeepsInv(w, a);
    var touch, next := ImportWrites(Handle(w), w.disk, id, bytes, a.env);
    TouchKeepsLodged(w.disk, w.sessions, touch);
    var e := NewEntity(Memory(w), id, uuid, bytes);
    NewIsUnviewed(Memory(w), id, e);
    PublishedReads(Apply(w, a), e);
    DigestIsInjective(Read(Handle(Apply(w, a)), Apply(w, a).disk, e.public.data.entity, Clean).value, bytes);
  }

  lemma NewLayoutIsFree(w: World, uuid: string)
    requires DiskNamed(w.disk, w.issued) && FreshId(w, uuid)
    ensures SourceLayout(uuid) !in w.disk.dirs
  {
    assert SourceLayout(uuid) in w.disk.dirs ==> PathIssued(SourceLayout(uuid), w.issued);
  }

  lemma NewIsUnviewed(s: State, id: string, e: Entity)
    requires Entities(s) && Pins(s) && id !in s.entities && id != ""
             && e.public.data == DataKey(EntityKey(s.storageId, s.ns, id), 1)
    ensures var t := s.(entities := s.entities[id := e]);
            EntityOf(t, e.public.data) == Ok(e) && !Viewed(t, e.public.data)
  {
    forall v | v in s.views ensures s.views[v].view.data != e.public.data {
      assert ViewOk(s, v);
    }
  }
}
