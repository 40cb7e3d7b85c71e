/**
 That the bad situations occur: runs from an empty system that end in them.
 */
module Witnesses {
  import opened Managed
  import opened Files
  import opened SourceState
  import opened SourceInvariants
  import opened SourceSteps
  import opened System
  import opened SystemSafety
  import opened SystemTheorems
  import E = Engine
  import opened Lone
  import opened RecallWindow
  import R = RecallRecovery
  import L = Lifecycle
  import D = Releases
  import Cat = Catalog
  import opened SourceTheorems
  import opened Pinning
  import opened Unpinning
  import A = ArchiveRecovery

  // ---------- an entity to begin with ----------

  const ARCHIVE_KEY := ArchiveKey("archive", "object")

  function FirstWorld(): World {
    var s := EmptyState("storage", "namespace");
    World(Opened(ClearStore(s)), Disk(map[], {}), Cat.Catalog("archive", map[], map[], map[]), map[], {}, {})
  }

  function FirstImport(uuid: string): Action {
    DoImport("file", [], Env(Clean, uuid))
  }

  lemma OnlineIsReachable(op1: string, op2: string, op3: string) returns (w: World, e: Entity)
    requires op1 != "" && op2 != "" && op3 != "" && op1 != op2 && op1 != op3 && op2 != op3
    ensures Reachable(w) && L.Ready(w, e, ARCHIVE_KEY, op1, op2, op3)
  {
    var uuid := FreshIdExists(FirstWorld());
    e := ImportedIsReady(uuid, op1, op2, op3);
    w := Apply(FirstWorld(), FirstImport(uuid));
    FirstIsReachable(FirstWorld());
    StepIsReachable(FirstWorld(), FirstImport(uuid));
  }

  lemma ImportedIsReady(uuid: string, op1: string, op2: string, op3: string) returns (e: Entity)
    requires FreshId(FirstWorld(), uuid)
    requires op1 != "" && op2 != "" && op3 != "" && op1 != op2 && op1 != op3 && op2 != op3
    ensures e == NewEntity(Memory(FirstWorld()), "file", uuid, [])
    ensures L.Ready(Apply(FirstWorld(), FirstImport(uuid)), e, ARCHIVE_KEY, op1, op2, op3)
  {
    e := NewEntity(Memory(FirstWorld()), "file", uuid, []);
    L.FirstIsQuiet(FirstWorld());
    L.ImportLeg(FirstWorld(), "file", [], uuid);
    ImportIsFirst(FirstWorld(), uuid);
  }

  lemma ImportIsFirst(first: World, uuid: string)
    requires first == FirstWorld() && Possible(first, DoImport("file", [], Env(Clean, uuid)))
    ensures var w := Apply(first, DoImport("file", [], Env(Clean, uuid)));
            && w.catalog == first.catalog && w.source.Opened?
            && Memory(w).steps == map[] && Memory(w).completed == map[]
  {
    var touch, next := ImportWrites(Handle(first), first.disk, "file", [], Env(Clean, uuid));
  }

  lemma ArchiveIsReachable(w: World, e: Entity, op1: string, op2: string, op3: string)
      returns (z: World, r: ArchiveReceipt)
    requires Reachable(w) && L.Ready(w, e, ARCHIVE_KEY, op1, op2, op3)
    ensures Reachable(z) && L.Quiet(z) && D.Releasable(Memory(z), Attach(e, r))
    ensures r in Attach(e, r).public.anchors && r.key == ARCHIVE_KEY
    ensures L.Unused(Memory(z), op2) && L.Unused(Memory(z), op3)
  {
    var uuids := FreshIdsExist(w, 9);
    var x := Lone(w, E.Flow(Context(op1), E.ArchiveJob(e.public.data, ARCHIVE_KEY), E.Ask));
    r := L.FirstLeg(w, e, ARCHIVE_KEY, op1, op2, op3, uuids);
    z := Rerun(x, uuids).world;
    RerunLeads(x, uuids);
    LeadsReaches(x, Rerun(x, uuids));
  }

  lemma ReleaseIsReachable(w: World, f: Entity, op2: string, op3: string) returns (z: World)
    requires Reachable(w) && L.Quiet(w) && D.Releasable(Memory(w), f) && op2 != op3
    requires L.Unused(Memory(w), op2) && L.Unused(Memory(w), op3)
    ensures Reachable(z) && L.Quiet(z) && EntityOf(Memory(z), f.public.data) == Ok(Detach(f))
    ensures !Recalling(Memory(z), f.public.data) && L.Unused(Memory(z), op3)
  {
    var uuids := FreshIdsExist(w, 4);
    var x := D.At(w, Context(op2), f.public, E.Ask);
    L.ReleaseLeg(w, op2, f, uuids);
    L.ReleasedFacts(Memory(w), op2, f, op3);
    z := Rerun(x, uuids).world;
    RerunLeads(x, uuids);
    LeadsReaches(x, Rerun(x, uuids));
  }

  // ---------- the recall window ----------

  lemma JamIsReachable(w: World, e: Entity, r: ArchiveReceipt, op: string) returns (z: World)
    requires Reachable(w) && L.Quiet(w) && EntityOf(Memory(w), e.public.data) == Ok(e)
             && e.public.residency.Offline?
    requires r in e.public.anchors && !Recalling(Memory(w), e.public.data)
             && L.Unused(Memory(w), op)
    ensures Reachable(z) && Healthy(z) && Window(z, e.public.data) && R.SealedRecall(z, e.public.data)
    ensures EntityOf(Memory(z), e.public.data) == Ok(e)
  {
    var o := R.Operation(Memory(w), Context(op), e.public, r.key);
    var x := Lone(w, E.Flow(Context(op), E.RecallJob(e.public, r.key), E.Ask));
    L.RecallCanBegin(w, e, r, op);
    var y, l := AnyRecallCanBeJammed(o, x);
    LeadsReaches(x, y);
    z := y.world;
    SealedShows(o, y.world, l, e);
  }

  lemma SealedShows(o: R.Operation, w: World, l: string, e: Entity)
    requires R.Given(o) && R.SourceStand(o, w.source, R.Reserved(l), R.Reserved(l)) && DurablySealed(w.disk, l)
    requires Healthy(w) && HandleOk(w.source) && R.Before(o) == e && e.public == o.expected
    ensures Window(w, e.public.data) && R.SealedRecall(w, e.public.data)
    ensures EntityOf(Memory(w), e.public.data) == Ok(e)
  {
    WindowIsJammed(o, w, R.Reserved(l), R.Reserved(l));
    R.WedgedIsSealedRecall(o, w, R.Reserved(l));
  }

  /** An import, an archive, a release, and a recall whose metadata write fails: a run from an
      empty system to a healthy storage whose recall no re-run can finish. */
  lemma WindowIsReachable() returns (w: World, data: DataKey)
    ensures Reachable(w) && Healthy(w) && Window(w, data) && R.SealedRecall(w, data)
    ensures EntityOf(Memory(w), data).Ok?
            && EntityOf(Memory(w), data).value.public.residency.Offline?
  {
    var w1, e := OnlineIsReachable("archive", "release", "recall");
    var w2, r := ArchiveIsReachable(w1, e, "archive", "release", "recall");
    var f := Attach(e, r);
    var w3 := ReleaseIsReachable(w2, f, "release", "recall");
    data := f.public.data;
    w := JamIsReachable(w3, Detach(f), r, "recall");
  }

  // ---------- a commit refused for good ----------

  // One workflow is about to commit its archive while another client copies from the same source.

  /** An archive under way that has not been committed at the source. */
  ghost predicate Approaching(o: A.Operation, x: Lone, dp: A.Phase, vp: A.Phase) {
    && A.Stand(o, x, dp, vp) && Healthy(x.world) && !x.flow.pc.Done? && !dp.Anchored?
    && (x.flow.pc.Copying? ==> A.Carried(o, x.world, x.flow.pc.target))
  }

  lemma ApproachTurns(o: A.Operation, x: Lone, dp: A.Phase, vp: A.Phase) returns (z: Lone, dq: A.Phase, vq: A.Phase)
    requires Approaching(o, x, dp, vp) && !x.flow.pc.Attach?
    ensures Leads(x, z) && Approaching(o, z, dq, vq) && A.Rank(z.flow.pc) < A.Rank(x.flow.pc)
  {
    var uuid := FreshIdExists(x.world);
    var y := Clean1(x, uuid);
    z := CleanStep(x, uuid);
    dq, vq := A.CleanTakeStands(o, x, uuid, dp, vp);
    if y.flow.pc.Copying? { A.CopySession(x, uuid); }
    A.CleanStepStands(o, x, y, z, uuid, dq, vq);
    CleanStepLeads(x, uuid);
  }

  /** Without faults it gets to its commit_archive. */
  lemma {:induction false} AttachIsReached(o: A.Operation, x: Lone, dp: A.Phase, vp: A.Phase)
      returns (y: Lone, dq: A.Phase, vq: A.Phase)
    requires Approaching(o, x, dp, vp)
    ensures Leads(x, y) && Approaching(o, y, dq, vq) && y.flow.pc.Attach?
    decreases A.Rank(x.flow.pc)
  {
    if x.flow.pc.Attach? {
      y, dq, vq := x, dp, vp;
      LeadsNowhere(x);
    } else {
      var z;
      z, dq, vq := ApproachTurns(o, x, dp, vp);
      y, dq, vq := AttachIsReached(o, z, dq, vq);
      LeadsOn(x, z, y);
    }
  }

  /** Meanwhile another client prepares an attempt of its own, for the same view, */
  lemma ForeignAttempt(w: World, ctx: OperationContext, view: DataView, key: ArchiveKey)
      returns (y: World, uuid: string)
    requires Reachable(w) && ctx.Valid() && FreeKey(w.catalog, ctx, key)
    ensures Reachable(y) && y.source == w.source && y.sessions == w.sessions && y.reported == w.reported
    ensures uuid != "" && AttemptLayout(uuid) !in w.disk.dirs && y.disk == Cat.WithLayout(w.disk, uuid)
  {
    uuid := FreshIdExists(w);
    y := Apply(w, DoPrepare(ctx, key, view, Env(Clean, uuid)));
    assert DiskNamed(w.disk, w.issued) by { ReachableIsSound(w); }
    A.FreshLayout(w, uuid);
    StepIsReachable(w, DoPrepare(ctx, key, view, Env(Clean, uuid)));
  }

  /** and starts copying into it from the common source. */
  lemma ForeignCopy(y: World, ctx: OperationContext, view: DataView, root: Path, uuid: string) returns (z: World)
    requires Reachable(y) && ctx.Valid() && uuid !in y.sessions
    requires DecodeEndpoint(view.source) == Ok(root) && root.SourceLayout? && Free(y.disk, root)
    requires Free(y.disk, AttemptLayout(uuid)) && Open(y.disk, AttemptLayout(uuid))
    ensures Reachable(z) && z.source == y.source && z.reported == y.reported && LockHeld(z.disk, root)
  {
    var a := CopyBegin(ctx, view.source, Endpoint(AttemptLayout(uuid)), uuid, Clean);
    assert BeginCopy(y.disk, ctx, view.source, Endpoint(AttemptLayout(uuid)), Clean)
        == Ok(Session(root, AttemptLayout(uuid)));
    StepIsReachable(y, a);
    z := Apply(y, a);
  }

  /** The moment of a workflow's commit_archive. */
  predicate AboutToCommit(o: A.Operation, w: World, v: string, receipt: ArchiveReceipt) {
    && A.Given(o) && Healthy(w) && A.At(o, A.Pinned(v), Memory(w))
    && A.Fits(o, receipt) && receipt in w.reported
  }

  lemma CommitIsReachable(w: World, e: Entity, op1: string, op2: string, op3: string)
    returns (y: World, o: A.Operation, v: string, receipt: ArchiveReceipt)
    requires Reachable(w) && L.Ready(w, e, ARCHIVE_KEY, op1, op2, op3)
    ensures Reachable(y) && AboutToCommit(o, y, v, receipt) && y.sessions == map[] && Free(y.disk, A.Layout(o))
  {
    o := A.Operation(Memory(w), Context(op1), e.public.data, ARCHIVE_KEY);
    var x := Lone(w, E.Flow(Context(op1), E.ArchiveJob(e.public.data, ARCHIVE_KEY), E.Ask));
    L.ArchiveCanBegin(w, e, ARCHIVE_KEY, op1, op2, op3);
    A.BegunStands(o, x);
    var at, dp, vp := AttachIsReached(o, x, A.Unstarted, A.Unstarted);
    LeadsReaches(x, at);
    CommitFacts(o, at, dp, vp);
    LockFacts(o, at, dp);
    y, v, receipt := at.world, dp.viewId, at.flow.pc.receipt;
  }

  lemma CommitFacts(o: A.Operation, y: Lone, dp: A.Phase, vp: A.Phase)
    requires A.Given(o) && A.SourceStand(o, y.world.source, dp, vp) && HandleOk(y.world.source) && Healthy(y.world)
    requires A.LocalsStand(o, y.world, y.flow.pc, dp) && E.FlowOk(y.world, y.flow) && y.flow.pc.Attach?
    ensures dp.Pinned? && AboutToCommit(o, y.world, dp.viewId, y.flow.pc.receipt)
  {
  }

  lemma LockFacts(o: A.Operation, y: Lone, dp: A.Phase)
    requires A.Given(o) && A.At(o, dp, FileOf(y.world.source).durable)
    requires Entities(FileOf(y.world.source).durable)
             && Backed(FileOf(y.world.source).durable, y.world.disk, y.world.catalog)
    requires Alone(y) && Copies(y.flow) == {}
    ensures y.world.sessions == map[] && Free(y.world.disk, A.Layout(o))
  {
    A.LayoutIsFree(o, y, dp);
    AloneIsFree(y, A.Layout(o));
  }

  /** The world in which a workflow is about to commit while another client copies from its source. */
  lemma ContendedIsReachable(y: World, o: A.Operation, v: string, receipt: ArchiveReceipt, foreign: OperationContext)
      returns (z: World)
    requires Reachable(y) && AboutToCommit(o, y, v, receipt) && y.sessions == map[] && Free(y.disk, A.Layout(o))
             && foreign.Valid()
    ensures Reachable(z) && AboutToCommit(o, z, v, receipt) && LockHeld(z.disk, A.Layout(o))
  {
    var key := FreeKeyExists(y.catalog, foreign);
    var x, uuid := ForeignAttempt(y, foreign, A.ViewOf(o, v), key);
    z := ForeignCopy(x, foreign, A.ViewOf(o, v), A.Layout(o), uuid);
  }

  /** So there is a run from an empty system that ends in a commit_archive saved as Busy, and its
      view can never be closed again. */
  lemma RefusedCommitIsReachable() returns (w: World, ctx: OperationContext, view: DataView, receipt: ArchiveReceipt)
    ensures Reachable(w) && Healthy(w) && HasView(Memory(w), ctx, view)
    ensures var k := StepKey(ctx, CommitArchiveStep);
            k in Memory(w).steps
                && Memory(w).steps[k] == SavedStep(CommitArchive(view, receipt), Err(Busy))
    ensures !ViewCanClose(w, ctx, view)
  {
    var first, e := OnlineIsReachable("archive", "other", "recall");
    var alone, o, v, r := CommitIsReachable(first, e, "archive", "other", "recall");
    var y := ContendedIsReachable(alone, o, v, r, Context("other"));
    ctx, view, receipt := o.ctx, A.ViewOf(o, v), r;
    w := BusyWorld(o, y, v, r);
    ViewCanCloseIffUndecided(w, ctx, view);
  }

  lemma BusyWorld(o: A.Operation, y: World, v: string, receipt: ArchiveReceipt) returns (w: World)
    requires Reachable(y) && AboutToCommit(o, y, v, receipt) && LockHeld(y.disk, A.Layout(o))
    ensures Reachable(w) && Healthy(w) && HasView(Memory(w), o.ctx, A.ViewOf(o, v))
    ensures var k := StepKey(o.ctx, CommitArchiveStep);
            && k in Memory(w).steps
            && Memory(w).steps[k] == SavedStep(CommitArchive(A.ViewOf(o, v), receipt), Err(Busy))
  {
    var uuid := FreshIdExists(y);
    var a := DoCall(o.ctx, CommitArchive(A.ViewOf(o, v), receipt), Env(Clean, uuid));
    CommitIsBusyIffSourceIsHeld(Handle(y), y.disk, o.ctx, A.ViewOf(o, v), receipt, a.env, y.disk, a.env);
    AnswerIsRecorded(Handle(y), y.disk, Invocation(o.ctx, CommitArchive(A.ViewOf(o, v), receipt), a.env));
    StepIsReachable(y, a);
    w := Apply(y, a);
  }
}
