/**
 Intents that are finished: a workflow that would succeed if run alone can be carried through by one
 executor from claim to Done; so an intent whose first execution was cut off by a fault is claimed
 again and ends Done.
 */
module Retries {
  import opened Managed
  import opened Files
  import opened SourceState
  import S = SourceState
  import opened SourceInvariants
  import opened System
  import opened Engine
  import opened Lone
  import opened Intents
  import A = ArchiveRecovery
  import L = Lifecycle
  import W = Witnesses
  import Cat = Catalog

  // ---------- moves, one after another ----------

  ghost predicate FleetLeads(f: Fleet, g: Fleet) {
    exists fs, ms :: Moves(fs, ms) && fs[0] == f && fs[|ms|] == g
  }

  ghost predicate Moves(fs: seq<Fleet>, ms: seq<Move>) {
    |fs| == |ms| + 1 && forall i {:trigger ms[i]} | 0 <= i < |ms| :: FleetNext(fs[i], ms[i], fs[i + 1])
  }

  lemma LeadsToItself(f: Fleet)
    ensures FleetLeads(f, f)
  {
    var ms: seq<Move> := [];
    assert Moves([f], ms) && [f][0] == f && [f][|ms|] == f;
  }

  lemma OneMoveOn(f: Fleet, g: Fleet, m: Move, h: Fleet)
    requires FleetLeads(f, g) && FleetNext(g, m, h)
    ensures FleetLeads(f, h)
  {
    var fs, ms :| Moves(fs, ms) && fs[0] == f && fs[|ms|] == g;
    var longer, more := fs + [h], ms + [m];
    forall i {:trigger more[i]} | 0 <= i < |more| ensures FleetNext(longer[i], more[i], longer[i + 1]) {
      if i < |ms| { assert more[i] == ms[i]; }
    }
    assert Moves(longer, more) && longer[0] == f && longer[|more|] == h;
  }

  lemma LeadsAreRuns(f: Fleet, g: Fleet) returns (fs: seq<Fleet>, ms: seq<Move>)
    requires FirstFleet(f) && FleetLeads(f, g)
    ensures FleetRun(fs, ms) && fs[0] == f && fs[|ms|] == g
  {
    fs, ms :| Moves(fs, ms) && fs[0] == f && fs[|ms|] == g;
  }

  // ---------- a workflow in the fleet ----------

  /** The fleet while one workflow is where the lone one is. */
  function InFleet(f: Fleet, pid: string, x: Lone): Fleet {
    f.(cluster := Cluster(x.world, f.cluster.flows[pid := x.flow]))
  }

  lemma TakeInFleet(f: Fleet, g: Fleet, pid: string, x: Lone, env: Env, transferred: bool)
    requires FleetLeads(f, InFleet(g, pid, x)) && CanTake(x, env)
    ensures FleetLeads(f, InFleet(g, pid, Taken(x, env, transferred)))
  {
    var y := Taken(x, env, transferred);
    assert InFleet(g, pid, y).cluster.flows == InFleet(g, pid, x).cluster.flows[pid := y.flow];
    OneMoveOn(f, InFleet(g, pid, x), Run(Advance(pid, env, transferred)), InFleet(g, pid, y));
  }

  lemma DeliverInFleet(f: Fleet, g: Fleet, pid: string, x: Lone, uuid: string)
    requires FleetLeads(f, InFleet(g, pid, x))
    ensures FleetLeads(f, InFleet(g, pid, x.(world := Delivered(x.world, uuid))))
  {
    var w := x.world;
    if uuid in w.sessions && w.sessions[uuid].source in w.disk.dirs && w.sessions[uuid].destination in w.disk.dirs {
      var write := CopyWrite(uuid, w.disk.dirs[w.sessions[uuid].source].data);
      OneMoveOn(f, InFleet(g, pid, x), Run(Other(write)), InFleet(g, pid, x.(world := Delivered(w, uuid))));
    }
  }

  lemma StepInFleet(f: Fleet, g: Fleet, pid: string, x: Lone, uuid: string)
    requires FleetLeads(f, InFleet(g, pid, x))
    ensures FleetLeads(f, InFleet(g, pid, CleanStep(x, uuid)))
  {
    if CanTake(x, Env(Clean, uuid)) { TakeInFleet(f, g, pid, x, Env(Clean, uuid), true); }
    DeliverInFleet(f, g, pid, Clean1(x, uuid), uuid);
  }

  lemma {:induction false} RerunInFleet(f: Fleet, g: Fleet, pid: string, x: Lone, uuids: seq<string>)
    requires FleetLeads(f, InFleet(g, pid, x))
    ensures FleetLeads(f, InFleet(g, pid, Rerun(x, uuids)))
    decreases uuids
  {
    if !x.flow.pc.Done? && uuids != [] {
      StepInFleet(f, g, pid, x, uuids[0]);
      RerunInFleet(f, g, pid, CleanStep(x, uuids[0]), uuids[1..]);
    }
  }

  // ---------- one execution, from claim to report ----------

  /** Nobody has finished the operation, the entity is as expected, and an executor can claim it. */
  ghost predicate Open(h: Fleet, id: string, x: string, epoch: nat, claim: string, pid: string) {
    && id in h.intents && Claimable(h.intents[id], epoch)
    && x !in h.executors && claim !in h.claims && Unused(h, pid)
    && Wanted(h.cluster.world, h.intents[id])
  }

  predicate Wanted(w: World, i: Intent) {
    && w.source.Opened?
    && QueryCompleted(Handle(w), i.context, i.expected.data, i.action) == Ok(None)
    && Inspect(Handle(w), i.expected.data.entity) == Ok(i.expected)
  }

  function IntentAt(h: Fleet, id: string): Intent {
    if id in h.intents then h.intents[id]
    else Intent(NO_STATE, ManagedAction.Release, Context(""), IntentFailed, None, None)
  }

  function Staged(h: Fleet, id: string, x: string, epoch: nat, claim: string, stage: Stage): Fleet {
    var lease := Claimed(IntentAt(h, id), claim, epoch);
    h.(intents := h.intents[id := lease], executors := h.executors[x := Executor(id, lease, stage)],
       claims := h.claims + {claim})
  }

  function Start(h: Fleet, id: string): Lone {
    var i := IntentAt(h, id);
    Lone(h.cluster.world, Flow(i.context, JobOf(i), Ask))
  }

  lemma WorkStarts(f: Fleet, h: Fleet, id: string, x: string, epoch: nat, claim: string, pid: string)
    requires FleetLeads(f, h) && Open(h, id, x, epoch, claim, pid)
    ensures FleetLeads(f, InFleet(Staged(h, id, x, epoch, claim, Working(pid)), pid, Start(h, id)))
  {
    var checking := Staged(h, id, x, epoch, claim, Checking);
    var observing := Staged(h, id, x, epoch, claim, Observing);
    OneMoveOn(f, h, TakeClaim(x, id, epoch, claim), checking);
    assert checking.executors[x := observing.executors[x]] == observing.executors;
    OneMoveOn(f, checking, Check(x), observing);
    var working := InFleet(Staged(h, id, x, epoch, claim, Working(pid)), pid, Start(h, id));
    assert observing.executors[x := working.executors[x]] == working.executors;
    OneMoveOn(f, observing, Move.Observe(x, pid), working);
  }

  /** The fleet once the executor has reported. */
  function Over(h: Fleet, id: string, epoch: nat, claim: string, pid: string, y: Lone): Fleet {
    var lease := Claimed(IntentAt(h, id), claim, epoch);
    var report := if y.flow.pc.Done? then AfterWork(y.flow.pc.result) else Checking;
    Fleet(Cluster(y.world, h.cluster.flows[pid := y.flow]),
          h.intents[id := if report.Reporting? then Finished(y.world, lease, lease, report.report) else lease],
          h.executors, h.claims + {claim})
  }

  lemma WorkEnds(f: Fleet, h: Fleet, id: string, x: string, epoch: nat, claim: string, pid: string, y: Lone)
    requires x !in h.executors && y.flow.pc.Done?
    requires FleetLeads(f, InFleet(Staged(h, id, x, epoch, claim, Working(pid)), pid, y))
    ensures FleetLeads(f, Over(h, id, epoch, claim, pid, y))
  {
    var working := InFleet(Staged(h, id, x, epoch, claim, Working(pid)), pid, y);
    var reporting := InFleet(Staged(h, id, x, epoch, claim, AfterWork(y.flow.pc.result)), pid, y);
    assert working.executors[x := reporting.executors[x]] == reporting.executors;
    OneMoveOn(f, working, Await(x), reporting);
    var over := Over(h, id, epoch, claim, pid, y);
    assert reporting.executors - {x} == over.executors;
    assert reporting.intents[id := over.intents[id]] == over.intents;
    OneMoveOn(f, reporting, Finish(x), over);
  }

  /** A workflow that succeeds when run alone makes its intent Done: any executor that may claim it
      can carry it through, and leaves everything but this intent and the workflow as it was. */
  lemma IntentIsDone(f: Fleet, h: Fleet, id: string, x: string, epoch: nat, claim: string, pid: string,
                     uuids: seq<string>, state: EntityState) returns (g: Fleet)
    requires FleetLeads(f, h) && Open(h, id, x, epoch, claim, pid)
    requires var z, i := Rerun(Start(h, id), uuids), IntentAt(h, id);
             z.flow.pc == Done(Ok(state)) && z.world.source.Opened?
             && QueryCompleted(Handle(z.world), i.context, i.expected.data, i.action) == Ok(Some(state))
    ensures FleetLeads(f, g) && g.cluster.world == Rerun(Start(h, id), uuids).world && g.executors == h.executors
    ensures g.intents == h.intents[id := IntentAt(h, id).(status := IntentDone, claim := None, result := Some(state))]
  {
    var z := Rerun(Start(h, id), uuids);
    WorkStarts(f, h, id, x, epoch, claim, pid);
    RerunInFleet(f, Staged(h, id, x, epoch, claim, Working(pid)), pid, Start(h, id), uuids);
    WorkEnds(f, h, id, x, epoch, claim, pid, z);
    g := Over(h, id, epoch, claim, pid, z);
  }

  // ---------- cut off, claimed again, done ----------

  /** An archive is called for the first time, at a healthy moment. */
  ghost predicate First(o: A.Operation, x: Lone, uuid: string) {
    && A.Given(o) && x.flow == Flow(o.ctx, ArchiveJob(o.data, o.key), Ask)
    && HandleOk(x.world.source) && Healthy(x.world) && Memory(x.world) == o.base
    && FreshId(x.world, uuid) && uuid !in o.base.views && Cat.OwnKey(x.world.catalog.id, o.key)
  }

  // It asks, pins its source, and meets a fault when it looks for its key in the archive.

  function Asked(x: Lone): Lone {
    x.(flow := x.flow.(pc := Pin))
  }

  function Pinned(o: A.Operation, x: Lone, uuid: string): Lone {
    Lone(x.world.(source := Opened(ClearStore(A.StateAt(o, A.Pinned(uuid)))), issued := x.world.issued + {uuid}),
         x.flow.(pc := Look(A.ViewOf(o, uuid))))
  }

  function CutOff(o: A.Operation, x: Lone, uuid: string): Lone {
    Pinned(o, x, uuid).(flow := x.flow.(pc := Done(Err(Io))))
  }

  lemma AskStep(o: A.Operation, x: Lone, uuid: string)
    requires First(o, x, uuid)
    ensures CanTake(x, Env(Clean, uuid)) && Taken(x, Env(Clean, uuid), true) == Asked(x)
  {
  }

  lemma PinAnswers(o: A.Operation, w: World, uuid: string)
    requires A.Given(o) && Healthy(w) && HandleOk(w.source) && Memory(w) == o.base && uuid !in o.base.views
    ensures var r := Call(Handle(w), w.disk, o.ctx, PrepareArchive(o.data), Env(Clean, uuid));
            && r.store == ClearStore(A.StateAt(o, A.Pinned(uuid))) && r.disk == w.disk
            && r.result == Ok(ViewReply(A.ViewOf(o, uuid)))
  {
  }

  lemma PinStep(o: A.Operation, x: Lone, uuid: string)
    requires First(o, x, uuid)
    ensures CanTake(Asked(x), Env(Clean, uuid)) && Taken(Asked(x), Env(Clean, uuid), true) == Pinned(o, x, uuid)
  {
    PinAnswers(o, x.world, uuid);
    assert CallOf(Asked(x).flow, Env(Clean, uuid)) == DoCall(o.ctx, PrepareArchive(o.data), Env(Clean, uuid));
  }

  lemma LookStep(o: A.Operation, x: Lone, uuid: string)
    requires First(o, x, uuid)
    ensures var y, env := Pinned(o, x, uuid), Env(LookupFault, uuid);
            CanTake(y, env) && Taken(y, env, true) == CutOff(o, x, uuid)
  {
    var y, env := Pinned(o, x, uuid), Env(LookupFault, uuid);
    assert CallOf(y.flow, env) == DoInspect(o.key, env);
    assert Cat.Inspect(y.world.catalog, y.world.disk, o.key, LookupFault)
        == Cat.Answer(y.world.catalog, y.world.disk, Err(Io));
  }

  lemma BegunIsFirst(o: A.Operation, x: Lone, uuid: string)
    requires A.Begun(o, x) && FreshId(x.world, uuid)
    ensures First(o, x, uuid)
  {
    A.FreshForBase(o, x.world, A.Unstarted, uuid);
  }

  lemma CutOffIsRun(o: A.Operation, x: Lone, uuid: string) returns (xs: seq<Lone>, ts: seq<Turn>)
    requires First(o, x, uuid)
    ensures LoneRun(xs, ts) && xs[0] == x && xs[|ts|] == CutOff(o, x, uuid)
  {
    AskStep(o, x, uuid);
    PinStep(o, x, uuid);
    LookStep(o, x, uuid);
    xs := [x, Asked(x), Pinned(o, x, uuid), CutOff(o, x, uuid)];
    ts := [Take(Env(Clean, uuid), true), Take(Env(Clean, uuid), true), Take(Env(LookupFault, uuid), true)];
  }

  /** The cut-off archive, run again. */
  function Again(o: A.Operation, x: Lone, uuid: string): Lone {
    Lone(CutOff(o, x, uuid).world, x.flow)
  }

  lemma CutOffConverges(o: A.Operation, x: Lone, uuid: string, uuids: seq<string>) returns (state: EntityState)
    requires A.Begun(o, x) && FreshId(x.world, uuid)
    requires FreshIds(CutOff(o, x, uuid).world, uuids) && 9 <= |uuids|
    ensures var z := Rerun(Again(o, x, uuid), uuids);
            && z.flow.pc == Done(Ok(state)) && z.world.source.Opened?
            && QueryCompleted(Handle(z.world), o.ctx, o.data, Archive(o.key)) == Ok(Some(state))
    ensures state.revision == A.Before(o).public.revision + 1 && state.residency.Dual?
            && exists a | a in state.anchors :: a.key == o.key
  {
    BegunIsFirst(o, x, uuid);
    var xs, ts := CutOffIsRun(o, x, uuid);
    var v, receipt := A.ArchiveConverges(o, xs, ts, uuids);
    state := S.Attach(A.Before(o), receipt).public;
    AnchoredIsCompleted(o, v, receipt);
    assert receipt in state.anchors;
  }

  lemma AnchoredIsCompleted(o: A.Operation, v: string, receipt: ArchiveReceipt)
    requires A.Given(o) && A.Fits(o, receipt)
    ensures QueryCompleted(ClearStore(A.StateAt(o, A.Anchored(v, receipt))), o.ctx, o.data, Archive(o.key))
            == Ok(Some(S.Attach(A.Before(o), receipt).public))
  {
  }

  /** The intent is for this archive. */
  predicate Asks(i: Intent, o: A.Operation) {
    i.context == o.ctx && i.action == Archive(o.key) && i.expected == A.Before(o).public && i.expected.data == o.data
  }

  lemma CutOffIsWanted(o: A.Operation, x: Lone, uuid: string, i: Intent)
    requires First(o, x, uuid) && Asks(i, o)
    ensures Wanted(CutOff(o, x, uuid).world, i)
  {
  }

  /** The first executor's archive meets an I/O error, and its intent is Ready again; whoever claims
      it then makes it Done. */
  lemma CutOffIsFinished(f: Fleet, h: Fleet, id: string, o: A.Operation, x1: string, x2: string,
                         epoch1: nat, epoch2: nat, claim1: string, claim2: string, pid1: string, pid2: string,
                         uuid: string, uuids: seq<string>) returns (cut: Fleet, back: Fleet, g: Fleet)
    requires FleetLeads(f, h) && Open(h, id, x1, epoch1, claim1, pid1)
    requires x2 !in h.executors && claim2 !in h.claims && claim2 != claim1 && Unused(h, pid2) && pid2 != pid1
    requires Asks(IntentAt(h, id), o) && A.Begun(o, Start(h, id)) && FreshId(h.cluster.world, uuid)
    requires FreshIds(CutOff(o, Start(h, id), uuid).world, uuids) && 9 <= |uuids|
    ensures FleetLeads(f, cut) && x1 in cut.executors && cut.executors[x1].stage == Working(pid1)
    ensures pid1 in cut.cluster.flows && cut.cluster.flows[pid1].pc == Done(Err(Io))
    ensures FleetLeads(cut, back) && id in back.intents && back.intents[id].status.IntentReady?
    ensures FleetLeads(back, g) && id in g.intents && g.intents[id].status.IntentDone?
            && g.intents[id].result.Some? && g.intents[id].result.value.residency.Dual?
  {
    var x := Start(h, id);
    assert First(o, x, uuid) by { BegunIsFirst(o, x, uuid); }
    cut := CutInFleet(f, h, id, o, x1, epoch1, claim1, pid1, uuid);
    back := Over(h, id, epoch1, claim1, pid1, CutOff(o, x, uuid));
    LeadsToItself(cut);
    WorkEnds(cut, h, id, x1, epoch1, claim1, pid1, CutOff(o, x, uuid));
    var state := CutOffConverges(o, x, uuid, uuids);
    BackIsOpen(h, back, id, o, x2, epoch1, epoch2, claim1, claim2, pid1, pid2, uuid);
    LeadsToItself(back);
    g := IntentIsDone(back, back, id, x2, epoch2, claim2, pid2, uuids, state);
  }

  lemma BackIsOpen(h: Fleet, back: Fleet, id: string, o: A.Operation, x2: string, epoch1: nat, epoch2: nat,
                   claim1: string, claim2: string, pid1: string, pid2: string, uuid: string)
    requires id in h.intents && Asks(h.intents[id], o) && First(o, Start(h, id), uuid)
    requires x2 !in h.executors && claim2 !in h.claims && claim2 != claim1 && Unused(h, pid2) && pid2 != pid1
    requires back == Over(h, id, epoch1, claim1, pid1, CutOff(o, Start(h, id), uuid))
    ensures Open(back, id, x2, epoch2, claim2, pid2) && Start(back, id) == Again(o, Start(h, id), uuid)
    ensures IntentAt(back, id) == IntentAt(h, id).(status := IntentReady, claim := None)
  {
    CutOffIsWanted(o, Start(h, id), uuid, IntentAt(back, id));
  }

  lemma CutInFleet(f: Fleet, h: Fleet, id: string, o: A.Operation, x1: string, epoch: nat, claim: string, pid: string,
                   uuid: string) returns (cut: Fleet)
    requires FleetLeads(f, h) && Open(h, id, x1, epoch, claim, pid) && First(o, Start(h, id), uuid)
    ensures cut == InFleet(Staged(h, id, x1, epoch, claim, Working(pid)), pid, CutOff(o, Start(h, id), uuid))
    ensures FleetLeads(f, cut)
  {
    var x, working := Start(h, id), Staged(h, id, x1, epoch, claim, Working(pid));
    WorkStarts(f, h, id, x1, epoch, claim, pid);
    AskStep(o, x, uuid);
    TakeInFleet(f, working, pid, x, Env(Clean, uuid), true);
    PinStep(o, x, uuid);
    TakeInFleet(f, working, pid, Asked(x), Env(Clean, uuid), true);
    LookStep(o, x, uuid);
    TakeInFleet(f, working, pid, Pinned(o, x, uuid), Env(LookupFault, uuid), true);
    cut := InFleet(working, pid, CutOff(o, x, uuid));
  }

  // ---------- from an empty system ----------

  /** One admitted intent: archive the entity that is about to be imported. */
  function FirstIntent(e: Entity): Intent {
    Intent(e.public, Archive(W.ARCHIVE_KEY), Context("archive"), IntentReady, None, None)
  }

  /** A whole run: from an empty system and one admitted intent, through an import, an execution that
      an I/O error cuts off and a second claim, to Done. */
  lemma RetryIsReachable() returns (fs: seq<Fleet>, ms: seq<Move>, id: string, pid: string, cut: Fleet, g: Fleet)
    ensures FleetRun(fs, ms) && fs[|ms|] == g && id in g.intents && g.intents[id].status.IntentDone?
    ensures FleetLeads(fs[0], cut) && FleetLeads(cut, g)
    ensures pid in cut.cluster.flows && cut.cluster.flows[pid].pc == Done(Err(Io))
  {
    id, pid := "intent", "pid1";
    var uuid := FreshIdExists(W.FirstWorld());
    var e := W.ImportedIsReady(uuid, "archive", "release", "recall");
    var first, h := FirstMove(uuid, id, e);
    var back;
    cut, back, g := RetryFrom(first, h, id, e, h.cluster.world);
    LeadsJoin(cut, back, g);
    LeadsJoin(first, cut, g);
    fs, ms := LeadsAreRuns(first, g);
  }

  lemma FirstMove(uuid: string, id: string, e: Entity) returns (first: Fleet, h: Fleet)
    requires FreshId(W.FirstWorld(), uuid)
    ensures FirstFleet(first) && FleetLeads(first, h)
    ensures h == Fleet(Cluster(Apply(W.FirstWorld(), W.FirstImport(uuid)), map[]), map[id := FirstIntent(e)], map[], {})
  {
    first := Fleet(Cluster(W.FirstWorld(), map[]), map[id := FirstIntent(e)], map[], {});
    h := first.(cluster := Cluster(Apply(W.FirstWorld(), W.FirstImport(uuid)), map[]));
    LeadsToItself(first);
    OneMoveOn(first, first, Run(Other(W.FirstImport(uuid))), h);
  }

  lemma StartIsOpen(h: Fleet, id: string, e: Entity, w: World, o: A.Operation)
    requires L.Ready(w, e, W.ARCHIVE_KEY, "archive", "release", "recall")
    requires h == Fleet(Cluster(w, map[]), map[id := FirstIntent(e)], map[], {})
    requires o == A.Operation(Memory(w), Context("archive"), e.public.data, W.ARCHIVE_KEY)
    ensures Open(h, id, "x1", 1, "claim1", "pid1") && Asks(IntentAt(h, id), o)
    ensures A.Begun(o, Start(h, id))
  {
    L.ArchiveCanBegin(w, e, W.ARCHIVE_KEY, "archive", "release", "recall");
    ReadyIsWanted(w, e);
  }

  lemma ReadyIsWanted(w: World, e: Entity)
    requires L.Ready(w, e, W.ARCHIVE_KEY, "archive", "release", "recall")
    ensures Wanted(w, FirstIntent(e))
    ensures A.Before(A.Operation(Memory(w), Context("archive"), e.public.data, W.ARCHIVE_KEY)) == e
  {
  }

  lemma LeadsJoin(f: Fleet, g: Fleet, h: Fleet)
    requires FleetLeads(f, g) && FleetLeads(g, h)
    ensures FleetLeads(f, h)
  {
    var fs, ms :| Moves(fs, ms) && fs[0] == g && fs[|ms|] == h;
    for i := 0 to |ms|
      invariant FleetLeads(f, fs[i])
    {
      OneMoveOn(f, fs[i], ms[i], fs[i + 1]);
    }
  }

  lemma RetryFrom(first: Fleet, h: Fleet, id: string, e: Entity, w: World) returns (cut: Fleet, back: Fleet, g: Fleet)
    requires FleetLeads(first, h) && L.Ready(w, e, W.ARCHIVE_KEY, "archive", "release", "recall")
    requires h == Fleet(Cluster(w, map[]), map[id := FirstIntent(e)], map[], {})
    ensures FleetLeads(first, cut) && FleetLeads(cut, back) && FleetLeads(back, g)
    ensures "pid1" in cut.cluster.flows && cut.cluster.flows["pid1"].pc == Done(Err(Io))
    ensures id in g.intents && g.intents[id].status.IntentDone?
  {
    var o := A.Operation(Memory(w), Context("archive"), e.public.data, W.ARCHIVE_KEY);
    StartIsOpen(h, id, e, w, o);
    var uuid := FreshIdExists(w);
    var uuids := FreshIdsExist(CutOff(o, Start(h, id), uuid).world, 9);
    cut, back, g :=
      CutOffIsFinished(first, h, id, o, "x1", "x2", 1, 1, "claim1", "claim2", "pid1", "pid2", uuid, uuids);
  }
}
