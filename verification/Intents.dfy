/**
 run_intent over any history of claims, crashes and takeovers. Executors claim intents that the
 source owns, run the engine's workflows for them and report. The source's side of claiming and
 finishing is its documented contract: exclusive claims under unreused IDs, takeover only by a newer
 controller epoch, a report accepted only under the current claim, success only when the source
 itself has the operation completed. What repeated execution comes to: an operation accounts for at
 most one revision, a lease that was taken over reports into the void, and an intent one of whose
 steps was once refused is never Done, however often it is retried.
 */
module Intents {
  import opened Managed
  import opened SourceState
  import opened SourceInvariants
  import opened System
  import opened SystemSafety
  import opened SystemTheorems
  import opened Engine
  import opened Outcomes
  import opened Pinning
  import opened Answers

  datatype Status = IntentReady | IntentRunning | IntentDone | IntentFailed | IntentSuperseded

  datatype Claim = Claim(id: string, epoch: nat)

  datatype Intent = Intent(
    expected: EntityState, action: ManagedAction, context: OperationContext,
    status: Status, claim: Option<Claim>, result: Option<EntityState>)

  datatype Report = ReportDone | ReportRetry | ReportFailed | ReportSuperseded

  /** Where one executor's run_intent is. */
  datatype Stage = Checking | Observing | Working(pid: string) | Reporting(report: Report)

  datatype Executor = Executor(intent: string, lease: Intent, stage: Stage)

  /** `claims` are the claim IDs ever issued. */
  datatype Fleet = Fleet(cluster: Cluster, intents: map<string, Intent>, executors: map<string, Executor>,
                         claims: set<string>)

  datatype Move =
    | TakeClaim(x: string, id: string, epoch: nat, claim: string)
    | Check(x: string)
    | Observe(x: string, pid: string)
    | Await(x: string)
    | Finish(x: string)
    | Die(x: string)
    | Run(event: Event)

  function JobOf(lease: Intent): Job {
    match lease.action
    case Archive(key) => ArchiveJob(lease.expected.data, key)
    case Release => ReleaseJob(lease.expected)
    case Recall(key) => RecallJob(lease.expected, key)
  }

  /** A definite failure is final; an uncertain or busy one is to be tried again. */
  function ReportError(e: HsmError): Report {
    if e == HsmError.Unknown || e == Io || e == Busy then ReportRetry else ReportFailed
  }

  // ---------- the source's contract ----------

  predicate Claimable(i: Intent, epoch: nat) {
    i.status.IntentReady? || (i.status.IntentRunning? && i.claim.Some? && i.claim.value.epoch < epoch)
  }

  function Claimed(i: Intent, claim: string, epoch: nat): Intent {
    i.(status := IntentRunning, claim := Some(Claim(claim, epoch)))
  }

  /** Some(...) if the source has the operation completed as the intent's. */
  function Confirmed(w: World, i: Intent): Option<EntityState> {
    if w.source.Opened? && QueryCompleted(Handle(w), i.context, i.expected.data, i.action).Ok?
    then QueryCompleted(Handle(w), i.context, i.expected.data, i.action).value else None
  }

  function Finished(w: World, i: Intent, lease: Intent, report: Report): Intent {
    if !i.status.IntentRunning? || i.claim != lease.claim then i
    else
      match report
      case ReportDone =>
        if Confirmed(w, i).None? then i else i.(status := IntentDone, claim := None, result := Confirmed(w, i))
      case ReportRetry => i.(status := IntentReady, claim := None)
      case ReportFailed => i.(status := IntentFailed, claim := None)
      case ReportSuperseded => i.(status := IntentSuperseded, claim := None)
  }

  // ---------- transitions ----------

  /** The check of `completed` before anything else. */
  function AfterCheck(st: Store, lease: Intent): Stage {
    match QueryCompleted(st, lease.context, lease.expected.data, lease.action)
    case Err(e) => Reporting(ReportError(e))
    case Ok(Some(_)) => Reporting(ReportDone)
    case Ok(None) => Observing
  }

  function AfterObservation(st: Store, lease: Intent, pid: string): Stage {
    match Inspect(st, lease.expected.data.entity)
    case Err(e) => Reporting(ReportError(e))
    case Ok(state) => if state != lease.expected then Reporting(ReportSuperseded) else Working(pid)
  }

  function AfterWork(result: Result<EntityState>): Stage {
    Reporting(if result.Ok? then ReportDone else ReportError(result.error))
  }

  function At(f: Fleet, x: string, stage: Stage): Fleet {
    if x in f.executors then f.(executors := f.executors[x := f.executors[x].(stage := stage)]) else f
  }

  /** The workflow an executor starts. */
  function Started(f: Fleet, x: string, pid: string): Fleet {
    if x !in f.executors then f
    else
      var lease := f.executors[x].lease;
      f.(cluster := f.cluster.(flows := f.cluster.flows[pid := Flow(lease.context, JobOf(lease), Ask)]))
  }

  /** No workflow runs under this process ID, and no executor still waits for one that did. */
  ghost predicate Unused(f: Fleet, pid: string) {
    pid !in f.cluster.flows && forall x | x in f.executors :: f.executors[x].stage != Working(pid)
  }

  ghost predicate StartsUnused(f: Fleet, event: Event) {
    event.Spawn? ==> Unused(f, event.pid)
  }

  ghost predicate FleetNext(f: Fleet, m: Move, g: Fleet) {
    match m
    case TakeClaim(x, id, epoch, claim) =>
      && x !in f.executors && id in f.intents && claim !in f.claims && Claimable(f.intents[id], epoch)
      && var lease := Claimed(f.intents[id], claim, epoch);
         g == f.(intents := f.intents[id := lease],
                 executors := f.executors[x := Executor(id, lease, Checking)],
                 claims := f.claims + {claim})
    case Check(x) =>
      && x in f.executors && f.executors[x].stage.Checking? && f.cluster.world.source.Opened?
      && g == At(f, x, AfterCheck(Handle(f.cluster.world), f.executors[x].lease))
    case Observe(x, pid) =>
      && x in f.executors && f.executors[x].stage.Observing? && f.cluster.world.source.Opened? && Unused(f, pid)
      && var stage := AfterObservation(Handle(f.cluster.world), f.executors[x].lease, pid);
         g == At(if stage.Working? then Started(f, x, pid) else f, x, stage)
    case Await(x) =>
      && x in f.executors && f.executors[x].stage.Working?
      && var pid := f.executors[x].stage.pid;
         && pid in f.cluster.flows && f.cluster.flows[pid].pc.Done?
         && g == At(f, x, AfterWork(f.cluster.flows[pid].pc.result))
    case Finish(x) =>
      && x in f.executors && f.executors[x].stage.Reporting? && f.executors[x].intent in f.intents
      && var e := f.executors[x];
         var intent := Finished(f.cluster.world, f.intents[e.intent], e.lease, e.stage.report);
         g == f.(intents := f.intents[e.intent := intent], executors := f.executors - {x})
    case Die(x) => x in f.executors && g == f.(executors := f.executors - {x})
    case Run(event) =>
      && ClusterNext(f.cluster, event, g.cluster) && g == f.(cluster := g.cluster)
      && StartsUnused(f, event)
  }

  // ---------- invariant ----------

  /** The source metadata completes the intent's operation with this state. */
  predicate Effected(s: State, i: Intent, state: EntityState) {
    CompletedIn(s, i.context, JobOf(i), state)
  }

  predicate IntentOk(s: State, claims: set<string>, i: Intent) {
    && (i.status.IntentDone? ==> i.result.Some? && Effected(s, i, i.result.value))
    && (i.status.IntentRunning? ==> i.claim.Some? && i.claim.value.id in claims)
  }

  predicate SameTask(i: Intent, lease: Intent) {
    i.expected == lease.expected && i.action == lease.action && i.context == lease.context
  }

  predicate ExecutorOk(s: State, f: Fleet, x: string) {
    x in f.executors &&
    var e := f.executors[x];
    && e.intent in f.intents && SameTask(f.intents[e.intent], e.lease)
    && e.lease.claim.Some? && e.lease.claim.value.id in f.claims
    && (e.stage.Working? && e.stage.pid in f.cluster.flows ==>
          f.cluster.flows[e.stage.pid].ctx == e.lease.context && f.cluster.flows[e.stage.pid].job == JobOf(e.lease))
    && (e.stage == Reporting(ReportDone) ==>
          e.lease.context.operationId in s.completed
              && Effected(s, e.lease, s.completed[e.lease.context.operationId].state))
  }

  ghost predicate Exclusive(f: Fleet) {
    forall x, y | x in f.executors && y in f.executors && f.executors[x].lease.claim == f.executors[y].lease.claim ::
          x == y
  }

  function Durable(f: Fleet): State {
    FileOf(f.cluster.world.source).durable
  }

  /** The part of the invariant about claims and executors. */
  ghost predicate TasksOk(f: Fleet) {
    && (forall id | id in f.intents :: IntentOk(Durable(f), f.claims, f.intents[id]))
    && (forall x | x in f.executors :: ExecutorOk(Durable(f), f, x))
    && Exclusive(f)
  }

  ghost predicate FleetInv(f: Fleet) {
    OutcomeInv(f.cluster) && TasksOk(f)
  }

  // ---------- every move keeps it ----------

  lemma IntentsKept(f: Fleet, g: Fleet)
    requires (forall id | id in f.intents :: IntentOk(Durable(f), f.claims, f.intents[id])) && g.intents == f.intents
    requires f.claims <= g.claims && Extends(Durable(f).completed, Durable(g).completed)
    ensures forall id | id in g.intents :: IntentOk(Durable(g), g.claims, g.intents[id])
  {
    forall id | id in g.intents ensures IntentOk(Durable(g), g.claims, g.intents[id]) {
      assert IntentOk(Durable(f), f.claims, f.intents[id]);
    }
  }

  /** An executor that did not move, while completed operations stay and its flow keeps its job. */
  lemma ExecutorKept(f: Fleet, g: Fleet, x: string)
    requires ExecutorOk(Durable(f), f, x) && x in g.executors && g.executors[x] == f.executors[x]
    requires f.executors[x].intent in g.intents
             && SameTask(g.intents[f.executors[x].intent], f.intents[f.executors[x].intent])
    requires f.claims <= g.claims && Extends(Durable(f).completed, Durable(g).completed)
    requires f.executors[x].stage.Working? && f.executors[x].stage.pid in g.cluster.flows ==>
               var pid := f.executors[x].stage.pid;
               pid in f.cluster.flows && g.cluster.flows[pid].ctx == f.cluster.flows[pid].ctx
                   && g.cluster.flows[pid].job == f.cluster.flows[pid].job
    ensures ExecutorOk(Durable(g), g, x)
  {
  }

  lemma ClaimKeepsInv(f: Fleet, x: string, id: string, epoch: nat, claim: string, g: Fleet)
    requires TasksOk(f) && FleetNext(f, TakeClaim(x, id, epoch, claim), g)
    ensures TasksOk(g)
  {
    forall y | y in g.executors ensures ExecutorOk(Durable(g), g, y) {
      if y != x { ExecutorKept(f, g, y); }
    }
    forall i | i in g.intents ensures IntentOk(Durable(g), g.claims, g.intents[i]) {
      if i != id { assert IntentOk(Durable(f), f.claims, f.intents[i]); }
    }
    forall y, z | y in g.executors && z in g.executors
        && g.executors[y].lease.claim == g.executors[z].lease.claim ensures y == z {
      assert y != x ==> ExecutorOk(Durable(f), f, y);
      assert z != x ==> ExecutorOk(Durable(f), f, z);
    }
  }

  /** One executor moves on; nothing else changes. */
  lemma StageKeepsInv(f: Fleet, x: string, stage: Stage, g: Fleet)
    requires TasksOk(f) && x in f.executors && g == At(f, x, stage)
    requires ExecutorOk(Durable(g), g, x)
    ensures TasksOk(g)
  {
    IntentsKept(f, g);
    forall y | y in g.executors ensures ExecutorOk(Durable(g), g, y) {
      if y != x { ExecutorKept(f, g, y); }
    }
  }

  lemma AwaitIsOk(f: Fleet, x: string, g: Fleet)
    requires ExecutorOk(Durable(f), f, x) && f.executors[x].stage.Working?
             && f.executors[x].stage.pid in f.cluster.flows
    requires var flow := f.cluster.flows[f.executors[x].stage.pid];
             flow.pc.Done? && FlowSettled(Durable(f), flow) && g == At(f, x, AfterWork(flow.pc.result))
    ensures ExecutorOk(Durable(g), g, x)
  {
  }

  lemma RemovalKeepsInv(f: Fleet, x: string, g: Fleet)
    requires TasksOk(f) && x in f.executors && g.cluster == f.cluster && g.claims == f.claims
             && g.executors == f.executors - {x}
    requires g.intents.Keys == f.intents.Keys && forall i | i in f.intents :: SameTask(g.intents[i], f.intents[i])
    requires forall i | i in g.intents :: IntentOk(Durable(g), g.claims, g.intents[i])
    ensures TasksOk(g)
  {
    forall y | y in g.executors ensures ExecutorOk(Durable(g), g, y) {
      assert ExecutorOk(Durable(f), f, y);
      ExecutorKept(f, g, y);
    }
  }

  lemma FinishKeepsInv(f: Fleet, x: string, g: Fleet)
    requires TasksOk(f) && HandleOk(f.cluster.world.source) && FleetNext(f, Finish(x), g)
    ensures TasksOk(g)
  {
    var e := f.executors[x];
    forall i | i in g.intents ensures IntentOk(Durable(g), g.claims, g.intents[i]) {
      if i != e.intent { assert IntentOk(Durable(f), f.claims, f.intents[i]); }
    }
    RemovalKeepsInv(f, x, g);
  }

  lemma EventKeepsTasks(f: Fleet, event: Event, g: Fleet)
    requires TasksOk(f) && ClusterNext(f.cluster, event, g.cluster) && g == f.(cluster := g.cluster)
    requires StartsUnused(f, event)
    requires Extends(Durable(f).completed, Durable(g).completed)
    ensures TasksOk(g)
  {
    IntentsKept(f, g);
    forall x | x in g.executors ensures ExecutorOk(Durable(g), g, x) {
      ExecutorKept(f, g, x);
    }
  }

  lemma EventKeepsInv(f: Fleet, event: Event, g: Fleet)
    requires FleetInv(f) && ClusterNext(f.cluster, event, g.cluster) && g == f.(cluster := g.cluster)
    requires StartsUnused(f, event)
    ensures FleetInv(g)
  {
    ClusterStepKeepsOutcomes(f.cluster, event, g.cluster);
    ClusterStepAdvances(f.cluster, event, g.cluster);
    EventKeepsTasks(f, event, g);
  }

  /** A report of anything but success. */
  predicate Refuses(stage: Stage) {
    stage.Reporting? && stage.report != ReportDone
  }

  lemma ObserveKeepsInv(f: Fleet, x: string, pid: string, stage: Stage, g: Fleet)
    requires FleetInv(f) && x in f.executors && Unused(f, pid)
    requires (stage == Working(pid) || Refuses(stage))
    requires g == At(if stage.Working? then Started(f, x, pid) else f, x, stage)
    ensures FleetInv(g)
  {
    if stage.Working? {
      EventKeepsInv(f, Spawn(pid, f.executors[x].lease.context, JobOf(f.executors[x].lease)), Started(f, x, pid));
      StageKeepsInv(Started(f, x, pid), x, Working(pid), g);
    } else {
      StageKeepsInv(f, x, Reporting(stage.report), g);
    }
  }

  lemma ObservationShape(f: Fleet, x: string, pid: string, g: Fleet) returns (stage: Stage)
    requires FleetNext(f, Move.Observe(x, pid), g)
    ensures x in f.executors && Unused(f, pid)
    ensures (stage == Working(pid) || Refuses(stage))
    ensures g == At(if stage.Working? then Started(f, x, pid) else f, x, stage)
  {
    stage := AfterObservation(Handle(f.cluster.world), f.executors[x].lease, pid);
  }

  /** A move that leaves the stores and the workflows alone. */
  lemma TaskMoveKeepsTasks(f: Fleet, m: Move, g: Fleet)
    requires TasksOk(f) && HandleOk(f.cluster.world.source) && FleetNext(f, m, g)
    requires m.TakeClaim? || m.Check? || m.Finish? || m.Die?
    ensures TasksOk(g) && g.cluster == f.cluster
  {
    match m
    case TakeClaim(x, id, epoch, claim) => ClaimKeepsInv(f, x, id, epoch, claim, g);
    case Check(x) =>
      StageKeepsInv(f, x, AfterCheck(Handle(f.cluster.world), f.executors[x].lease), g);
    case Finish(x) => FinishKeepsInv(f, x, g);
    case Die(x) =>
      IntentsKept(f, g);
      RemovalKeepsInv(f, x, g);
  }

  lemma AwaitKeepsInv(f: Fleet, x: string, g: Fleet)
    requires FleetInv(f) && FleetNext(f, Await(x), g)
    ensures FleetInv(g)
  {
    var flow := f.cluster.flows[f.executors[x].stage.pid];
    assert FlowSettled(Durable(f), flow);
    AwaitIsOk(f, x, g);
    StageKeepsInv(f, x, AfterWork(flow.pc.result), g);
  }

  lemma MoveKeepsInv(f: Fleet, m: Move, g: Fleet)
    requires FleetInv(f) && FleetNext(f, m, g)
    ensures FleetInv(g)
  {
    match m
    case Observe(x, pid) =>
      var stage := ObservationShape(f, x, pid, g);
      ObserveKeepsInv(f, x, pid, stage, g);
    case Await(x) => AwaitKeepsInv(f, x, g);
    case Run(event) => EventKeepsInv(f, event, g);
    case _ => TaskMoveKeepsTasks(f, m, g);
  }

  // ---------- what it means ----------

  ghost predicate FleetRun(fs: seq<Fleet>, ms: seq<Move>) {
    && |fs| == |ms| + 1
    && FirstFleet(fs[0])
    && forall i {:trigger ms[i]} | 0 <= i < |ms| :: FleetNext(fs[i], ms[i], fs[i + 1])
  }

  /** A new source with admitted intents nobody has claimed. */
  ghost predicate FirstFleet(f: Fleet) {
    && Init(f.cluster.world) && f.cluster.world.catalog.id != "" && f.cluster.flows == map[]
    && f.executors == map[] && f.claims == {}
    && forall id | id in f.intents :: f.intents[id].status.IntentReady?
  }

  lemma FirstFleetOk(f: Fleet)
    requires FirstFleet(f)
    ensures FleetInv(f)
  {
    InitEstablishesInv(f.cluster.world);
  }

  lemma FleetHistory(fs: seq<Fleet>, ms: seq<Move>, i: nat)
    requires FleetRun(fs, ms) && i < |fs|
    ensures FleetInv(fs[i])
  {
    FirstFleetOk(fs[0]);
    for j := 0 to i
      invariant FleetInv(fs[j])
    {
      MoveKeepsInv(fs[j], ms[j], fs[j + 1]);
    }
  }

  /** Whatever was claimed, lost, taken over and run again: an intent is Done only if the source's
      durable metadata has its operation completed, with the result it shows; and an executor
      reports Done only then. */
  lemma DoneMeansEffected(fs: seq<Fleet>, ms: seq<Move>, i: nat, id: string, x: string)
    requires FleetRun(fs, ms) && i < |fs|
    ensures id in fs[i].intents && fs[i].intents[id].status.IntentDone? ==>
              fs[i].intents[id].result.Some?
                  && Effected(Durable(fs[i]), fs[i].intents[id], fs[i].intents[id].result.value)
    ensures x in fs[i].executors && fs[i].executors[x].stage == Reporting(ReportDone) ==>
              exists state :: Effected(Durable(fs[i]), fs[i].executors[x].lease, state)
  {
    FleetHistory(fs, ms, i);
    if id in fs[i].intents { assert IntentOk(Durable(fs[i]), fs[i].claims, fs[i].intents[id]); }
    if x in fs[i].executors && fs[i].executors[x].stage == Reporting(ReportDone) {
      assert ExecutorOk(Durable(fs[i]), fs[i], x);
      var lease := fs[i].executors[x].lease;
      assert Effected(Durable(fs[i]), lease, Durable(fs[i]).completed[lease.context.operationId].state);
    }
  }

  /** Only the executor whose claim is the current one can change an intent, and only one executor
      holds it: a lease that was taken over reports into the void. */
  lemma OnlyTheClaimHolderReports(f: Fleet, x: string, y: string, g: Fleet)
    requires TasksOk(f) && FleetNext(f, Finish(x), g)
    ensures g.intents != f.intents ==> f.intents[f.executors[x].intent].claim == f.executors[x].lease.claim
    ensures var claim := f.intents[f.executors[x].intent].claim;
            g.intents != f.intents && y in f.executors && f.executors[y].lease.claim == claim ==> y == x
  {
    var e := f.executors[x];
    if f.intents[e.intent].claim != e.lease.claim {
      assert Finished(f.cluster.world, f.intents[e.intent], e.lease, e.stage.report) == f.intents[e.intent];
      assert g.intents == f.intents;
    }
  }

  // ---------- a move is a step of the system, or none ----------

  function ActionOfMove(f: Fleet, m: Move): Action {
    if m.Run? then ActionOf(f.cluster, m.event) else Idle
  }

  lemma MoveIsAction(f: Fleet, m: Move, g: Fleet)
    requires ClusterInv(f.cluster) && FleetNext(f, m, g)
    ensures Enabled(f.cluster.world, ActionOfMove(f, m))
    ensures g.cluster.world == Apply(f.cluster.world, ActionOfMove(f, m))
  {
    if m.Run? {
      EngineIsAllowed(f.cluster, m.event, g.cluster);
      ClusterStepKeepsInv(f.cluster, m.event, g.cluster);
    }
  }

  lemma FleetEvolves(fs: seq<Fleet>, ms: seq<Move>, i: nat, j: nat)
    requires FleetRun(fs, ms) && i <= j < |fs|
    ensures Evolves(Durable(fs[i]), Durable(fs[j]))
  {
    EvolvesReflexive(Durable(fs[i]));
    for k := i to j
      invariant Evolves(Durable(fs[i]), Durable(fs[k]))
    {
      FleetHistory(fs, ms, k);
      MoveIsAction(fs[k], ms[k], fs[k + 1]);
      StepAdvances(fs[k].cluster.world, ActionOfMove(fs[k], ms[k]));
      EvolvesTransitive(Durable(fs[i]), Durable(fs[k]), Durable(fs[k + 1]));
    }
  }

  /** However many executors run an intent's workflow, a recorded outcome is there for good. */
  lemma OutcomesAreKept(fs: seq<Fleet>, ms: seq<Move>, i: nat, j: nat, lease: Intent, state: EntityState)
    requires FleetRun(fs, ms) && i <= j < |fs| && Effected(Durable(fs[i]), lease, state)
    ensures Effected(Durable(fs[j]), lease, state)
  {
    FleetEvolves(fs, ms, i, j);
  }

  // ---------- at most once ----------

  /** The operations on the data key that completed in between. */
  function NewlyCompleted(s: State, t: State, data: DataKey): set<string> {
    Operations(t, data) - Operations(s, data)
  }

  lemma DifferenceCounts(a: set<string>, b: set<string>)
    requires a <= b
    ensures |b| - |a| == |b - a| && (b - a == {} <==> |b - a| == 0)
  {
    assert b == a + (b - a) && |b| == |a| + |b - a|;
  }

  lemma RevisionsCountNewOperations(s: State, t: State, id: string)
    requires Evolves(s, t) && Revisions(s) && Revisions(t) && id in s.entities
    ensures id in t.entities
    ensures var data := s.entities[id].public.data;
            && t.entities[id].public.revision - s.entities[id].public.revision == |NewlyCompleted(s, t, data)|
            && (t.entities[id] == s.entities[id] <==> NewlyCompleted(s, t, data) == {})
  {
    var data := s.entities[id].public.data;
    assert EntityEvolves(s.entities[id], t.entities[id]);
    DifferenceCounts(Operations(s, data), Operations(t, data));
  }

  /** Effects are applied at most once. Between any two moments of any run of the fleet an entity's
      revision has risen by exactly the number of operations that newly completed on it, and the
      entity is as it was if there are none. An operation that was completed already is not among
      them, whoever has executed it again, whatever crashed, whoever took over. */
  lemma EffectsAreOnce(fs: seq<Fleet>, ms: seq<Move>, i: nat, j: nat, id: string, op: string)
    requires FleetRun(fs, ms) && i <= j < |fs| && id in Durable(fs[i]).entities
    ensures id in Durable(fs[j]).entities
    ensures var s, t := Durable(fs[i]), Durable(fs[j]);
            var ops := NewlyCompleted(s, t, s.entities[id].public.data);
            && t.entities[id].public.revision - s.entities[id].public.revision == |ops|
            && (t.entities[id] == s.entities[id] <==> ops == {})
            && (op in s.completed ==> op !in ops && op in t.completed && t.completed[op] == s.completed[op])
  {
    var s, t := Durable(fs[i]), Durable(fs[j]);
    FleetEvolves(fs, ms, i, j);
    assert Revisions(s) by { FleetHistory(fs, ms, i); }
    assert Revisions(t) by { FleetHistory(fs, ms, j); }
    RevisionsCountNewOperations(s, t, id);
  }

  /** And no more than one move of a run makes an operation completed. */
  lemma CompletionIsOnce(fs: seq<Fleet>, ms: seq<Move>, i: nat, j: nat, op: string)
    requires FleetRun(fs, ms) && i < |ms| && j < |ms|
    requires op !in Durable(fs[i]).completed && op in Durable(fs[i + 1]).completed
    requires op !in Durable(fs[j]).completed && op in Durable(fs[j + 1]).completed
    ensures i == j
  {
    if i < j {
      FleetEvolves(fs, ms, i + 1, j);
    } else if j < i {
      FleetEvolves(fs, ms, j + 1, i);
    }
  }

  // ---------- leases that were taken over ----------

  /** The claim is not the intent's current one, though it was issued. */
  predicate Lapsed(f: Fleet, id: string, claim: Option<Claim>) {
    claim.Some? && claim.value.id in f.claims && id in f.intents && f.intents[id].claim != claim
  }

  lemma LapsedStays(f: Fleet, m: Move, g: Fleet, id: string, claim: Option<Claim>)
    requires FleetNext(f, m, g) && Lapsed(f, id, claim)
    ensures Lapsed(g, id, claim)
  {
  }

  /** Once another executor has claimed an intent, or a report has closed the claim, the old lease
      can never change it again, at any later moment. */
  lemma LapsedLeaseReportsIntoTheVoid(fs: seq<Fleet>, ms: seq<Move>, i: nat, j: nat, x: string)
    requires FleetRun(fs, ms) && i <= j < |ms| && ms[j] == Finish(x) && x in fs[j].executors
    requires Lapsed(fs[i], fs[j].executors[x].intent, fs[j].executors[x].lease.claim)
    ensures fs[j + 1].intents == fs[j].intents
  {
    var e := fs[j].executors[x];
    for k := i to j
      invariant Lapsed(fs[k], e.intent, e.lease.claim)
    {
      LapsedStays(fs[k], ms[k], fs[k + 1], e.intent, e.lease.claim);
    }
    FinishOfLapsed(fs[j], x, fs[j + 1]);
  }

  lemma FinishOfLapsed(f: Fleet, x: string, g: Fleet)
    requires FleetNext(f, Finish(x), g) && Lapsed(f, f.executors[x].intent, f.executors[x].lease.claim)
    ensures g.intents == f.intents
  {
    var e := f.executors[x];
    assert Finished(f.cluster.world, f.intents[e.intent], e.lease, e.stage.report) == f.intents[e.intent];
  }

  // ---------- intents whose step was refused ----------

  /** One of the steps the action needs is saved as a failure under the context. */
  predicate StepRefused(s: State, ctx: OperationContext, action: ManagedAction) {
    match action
    case Archive(_) => Failed(s, ctx, PrepareArchiveStep) || Failed(s, ctx, CommitArchiveStep)
    case Release => Failed(s, ctx, ReleaseStep)
    case Recall(_) => Failed(s, ctx, PrepareRecallStep) || Failed(s, ctx, CommitRecallStep)
  }

  predicate Failed(s: State, ctx: OperationContext, name: StepName) {
    StepKey(ctx, name) in s.steps && s.steps[StepKey(ctx, name)].result.Err?
  }

  lemma RefusedIsNeverCompleted(s: State, t: State, issued: set<string>, ctx: OperationContext, data: DataKey,
                                action: ManagedAction, state: EntityState)
    requires Ledger(t) && Settled(t, issued) && Extends(s.steps, t.steps) && StepRefused(s, ctx, action)
    ensures !(ctx.operationId in t.completed && t.completed[ctx.operationId] == Completed(ctx, data, action, state))
  {
    var op := ctx.operationId;
    if op in t.completed && t.completed[op] == Completed(ctx, data, action, state) {
      assert CompletedOk(t, op);
      var k := StepKey(ctx, TerminalName(action));
      assert Succeeded(t, k) && ViewClosed(t, k) && RecallClosed(t, k);
      assert false;
    }
  }

  lemma FleetSettles(fs: seq<Fleet>, ms: seq<Move>, i: nat)
    requires FleetRun(fs, ms) && i < |fs|
    ensures SystemSettled(fs[i].cluster.world) && Ledger(Durable(fs[i]))
  {
    FirstSettles(fs[0].cluster.world);
    for k := 0 to i
      invariant SystemSettled(fs[k].cluster.world)
    {
      FleetHistory(fs, ms, k);
      MoveIsAction(fs[k], ms[k], fs[k + 1]);
      StepSettles(fs[k].cluster.world, ActionOfMove(fs[k], ms[k]));
    }
    FleetHistory(fs, ms, i);
  }

  lemma RefusedIsNeverEffected(fs: seq<Fleet>, ms: seq<Move>, i: nat, j: nat, task: Intent, state: EntityState)
    requires FleetRun(fs, ms) && i <= j < |fs| && StepRefused(Durable(fs[i]), task.context, task.action)
    ensures !Effected(Durable(fs[j]), task, state)
  {
    FleetEvolves(fs, ms, i, j);
    FleetSettles(fs, ms, j);
    RefusedIsNeverCompleted(Durable(fs[i]), Durable(fs[j]), fs[j].cluster.world.issued, task.context,
                            task.expected.data, task.action, state);
  }

  /** Once the source has saved a failure, say Busy, for one of the steps an intent's action needs
      under the intent's context, neither the intent is ever Done nor does any executor ever report
      it Done, though a Busy is reported as to be retried (ErrorsDecide). */
  lemma RefusedIntentIsNeverDone(fs: seq<Fleet>, ms: seq<Move>, i: nat, j: nat, task: Intent, id: string, x: string)
    requires FleetRun(fs, ms) && i <= j < |fs| && StepRefused(Durable(fs[i]), task.context, task.action)
    ensures id in fs[j].intents && SameTask(fs[j].intents[id], task) ==> !fs[j].intents[id].status.IntentDone?
    ensures x in fs[j].executors && SameTask(fs[j].executors[x].lease, task) ==>
              fs[j].executors[x].stage != Reporting(ReportDone)
  {
    DoneMeansEffected(fs, ms, j, id, x);
    forall state ensures !Effected(Durable(fs[j]), task, state) {
      RefusedIsNeverEffected(fs, ms, i, j, task, state);
    }
    SameTaskSameEffect(Durable(fs[j]), task);
  }

  lemma SameTaskSameEffect(s: State, task: Intent)
    requires forall state :: !Effected(s, task, state)
    ensures forall other, state | SameTask(other, task) :: !Effected(s, other, state)
  {
    forall other, state | SameTask(other, task) ensures !Effected(s, other, state) {
      assert Effected(s, other, state) == Effected(s, task, state);
    }
  }

  // ---------- what becomes of an intent ----------

  /** The move in which an executor learns that its intent has failed with this error: the question
      for the outcome, the observation, or the workflow. */
  predicate MeetsError(f: Fleet, m: Move, x: string, error: HsmError) {
    x in f.executors &&
    var e := f.executors[x];
    var st := Handle(f.cluster.world);
    match m
    case Check(y) =>
      y == x && QueryCompleted(st, e.lease.context, e.lease.expected.data, e.lease.action) == Err(error)
    case Observe(y, _) => y == x && Inspect(st, e.lease.expected.data.entity) == Err(error)
    case Await(y) =>
      y == x && e.stage.Working? && e.stage.pid in f.cluster.flows
      && f.cluster.flows[e.stage.pid].pc == Done(Err(error))
    case _ => false
  }

  /** ... that its operation is done: it had completed before, or the workflow has succeeded. */
  predicate MeetsSuccess(f: Fleet, m: Move, x: string) {
    x in f.executors &&
    var e := f.executors[x];
    match m
    case Check(y) =>
      var r := QueryCompleted(Handle(f.cluster.world), e.lease.context, e.lease.expected.data, e.lease.action);
      y == x && r.Ok? && r.value.Some?
    case Await(y) =>
      y == x && e.stage.Working? && e.stage.pid in f.cluster.flows
      && f.cluster.flows[e.stage.pid].pc.Done? && f.cluster.flows[e.stage.pid].pc.result.Ok?
    case _ => false
  }

  /** ... that the entity is no longer as the intent expects it. */
  predicate MeetsChange(f: Fleet, m: Move, x: string) {
    x in f.executors && m.Observe? && m.x == x &&
    var expected := f.executors[x].lease.expected;
    var r := Inspect(Handle(f.cluster.world), expected.data.entity);
    r.Ok? && r.value != expected
  }

  /** The executor neither finishes nor dies in between. */
  predicate Stays(ms: seq<Move>, i: nat, j: nat, x: string) {
    forall k | i <= k < j < |ms| :: ms[k] != Finish(x) && ms[k] != Die(x)
  }

  /** It holds the intent's current claim. */
  predicate Holds(f: Fleet, x: string) {
    x in f.executors && f.executors[x].intent in f.intents &&
    var i := f.intents[f.executors[x].intent];
    i.status.IntentRunning? && i.claim == f.executors[x].lease.claim
  }

  ghost predicate ClaimableByAll(i: Intent) {
    forall epoch :: Claimable(i, epoch)
  }

  ghost predicate ClaimableByNone(i: Intent) {
    forall epoch :: !Claimable(i, epoch)
  }

  predicate Closed(i: Intent) {
    i.status.IntentDone? || i.status.IntentFailed? || i.status.IntentSuperseded?
  }

  /** An executor about to report stays as it is. */
  lemma ReportStays(fs: seq<Fleet>, ms: seq<Move>, i: nat, j: nat, x: string, e: Executor)
    requires FleetRun(fs, ms) && i <= j < |ms| && Stays(ms, i, j, x)
    requires x in fs[i].executors && fs[i].executors[x] == e && e.stage.Reporting?
    ensures x in fs[j].executors && fs[j].executors[x] == e
  {
    for k := i to j
      invariant x in fs[k].executors && fs[k].executors[x] == e
    {
      ReportStaysOnce(fs[k], ms[k], fs[k + 1], x);
    }
  }

  lemma ReportStaysOnce(f: Fleet, m: Move, g: Fleet, x: string)
    requires FleetNext(f, m, g) && x in f.executors && f.executors[x].stage.Reporting? && m != Finish(x) && m != Die(x)
    ensures x in g.executors && g.executors[x] == f.executors[x]
  {
  }

  /** An intent that is done, failed or superseded stays so, and nobody can claim it again. */
  lemma ClosedStays(fs: seq<Fleet>, ms: seq<Move>, i: nat, j: nat, id: string)
    requires FleetRun(fs, ms) && i <= j < |fs| && id in fs[i].intents && Closed(fs[i].intents[id])
    ensures id in fs[j].intents && fs[j].intents[id] == fs[i].intents[id]
    ensures ClaimableByNone(fs[j].intents[id])
  {
    for k := i to j
      invariant id in fs[k].intents && fs[k].intents[id] == fs[i].intents[id]
    {
      ClosedStaysOnce(fs[k], ms[k], fs[k + 1], id);
    }
  }

  lemma ClosedStaysOnce(f: Fleet, m: Move, g: Fleet, id: string)
    requires FleetNext(f, m, g) && id in f.intents && Closed(f.intents[id])
    ensures id in g.intents && g.intents[id] == f.intents[id]
  {
  }

  lemma ErrorIsReported(f: Fleet, m: Move, g: Fleet, x: string, error: HsmError)
    requires FleetNext(f, m, g) && MeetsError(f, m, x, error)
    ensures x in g.executors
    ensures g.executors[x] == Executor(f.executors[x].intent, f.executors[x].lease, Reporting(ReportError(error)))
  {
  }

  /** An error is decided once and for all by its kind. One that may have taken effect, or Busy, puts
      the intent back: every controller can claim it again. Any other definite error fails it, and no
      controller can claim it at any later moment. */
  lemma ErrorsDecide(fs: seq<Fleet>, ms: seq<Move>, i: nat, j: nat, n: nat, x: string, error: HsmError)
    requires FleetRun(fs, ms) && i < j < |ms| && j < n < |fs|
    requires MeetsError(fs[i], ms[i], x, error) && Stays(ms, i + 1, j, x) && ms[j] == Finish(x) && Holds(fs[j], x)
    ensures var id := fs[i].executors[x].intent;
            if !Definite(error) || error == Busy
            then id in fs[j + 1].intents && ClaimableByAll(fs[j + 1].intents[id])
            else && id in fs[n].intents && fs[n].intents[id].status.IntentFailed?
                 && ClaimableByNone(fs[n].intents[id])
  {
    var e := fs[i].executors[x];
    ErrorIsReported(fs[i], ms[i], fs[i + 1], x, error);
    ReportStays(fs, ms, i + 1, j, x, Executor(e.intent, e.lease, Reporting(ReportError(error))));
    if Definite(error) && error != Busy { ClosedStays(fs, ms, j + 1, n, e.intent); }
  }

  lemma SuccessIsReported(f: Fleet, m: Move, g: Fleet, x: string)
    requires FleetNext(f, m, g) && MeetsSuccess(f, m, x)
    ensures x in g.executors
    ensures g.executors[x] == Executor(f.executors[x].intent, f.executors[x].lease, Reporting(ReportDone))
  {
  }

  /** Success, once met, is accepted at every healthy moment: the intent is Done for good, and shows
      the state its operation has completed with. */
  lemma SuccessDecides(fs: seq<Fleet>, ms: seq<Move>, i: nat, j: nat, n: nat, x: string)
    requires FleetRun(fs, ms) && i < j < |ms| && j < n < |fs| && Healthy(fs[j].cluster.world)
    requires MeetsSuccess(fs[i], ms[i], x) && Stays(ms, i + 1, j, x) && ms[j] == Finish(x) && Holds(fs[j], x)
    ensures var id, lease := fs[i].executors[x].intent, fs[i].executors[x].lease;
            && id in fs[n].intents && fs[n].intents[id].status.IntentDone? && fs[n].intents[id].result.Some?
            && Effected(Durable(fs[j]), lease, fs[n].intents[id].result.value)
  {
    SuccessIsKept(fs, ms, i, j, x);
    DoneIsAccepted(fs, ms, j, x);
    ClosedStays(fs, ms, j + 1, n, fs[i].executors[x].intent);
  }

  lemma SuccessIsKept(fs: seq<Fleet>, ms: seq<Move>, i: nat, j: nat, x: string)
    requires FleetRun(fs, ms) && i < j < |ms| && MeetsSuccess(fs[i], ms[i], x) && Stays(ms, i + 1, j, x)
    ensures x in fs[j].executors
    ensures fs[j].executors[x]
            == Executor(fs[i].executors[x].intent, fs[i].executors[x].lease, Reporting(ReportDone))
  {
    var e := fs[i].executors[x];
    SuccessIsReported(fs[i], ms[i], fs[i + 1], x);
    ReportStays(fs, ms, i + 1, j, x, Executor(e.intent, e.lease, Reporting(ReportDone)));
  }

  lemma DoneIsAccepted(fs: seq<Fleet>, ms: seq<Move>, j: nat, x: string)
    requires FleetRun(fs, ms) && j < |ms| && ms[j] == Finish(x) && Healthy(fs[j].cluster.world) && Holds(fs[j], x)
    requires fs[j].executors[x].stage == Reporting(ReportDone)
    ensures var id, lease := fs[j].executors[x].intent, fs[j].executors[x].lease;
            && id in fs[j + 1].intents && fs[j + 1].intents[id].status.IntentDone?
            && fs[j + 1].intents[id].result.Some?
            && Effected(Durable(fs[j]), lease, fs[j + 1].intents[id].result.value)
  {
    MomentFacts(fs, ms, j, x);
    FinishAccepts(fs[j], x, fs[j + 1]);
  }

  lemma MomentFacts(fs: seq<Fleet>, ms: seq<Move>, j: nat, x: string)
    requires FleetRun(fs, ms) && j < |fs| && x in fs[j].executors
    ensures HandleOk(fs[j].cluster.world.source) && Ledger(Durable(fs[j])) && Located(Durable(fs[j]))
    ensures ExecutorOk(Durable(fs[j]), fs[j], x)
  {
    FleetHistory(fs, ms, j);
    FleetLocates(fs, ms, j);
  }

  lemma FinishAccepts(f: Fleet, x: string, g: Fleet)
    requires Healthy(f.cluster.world) && HandleOk(f.cluster.world.source) && Ledger(Durable(f)) && Located(Durable(f))
    requires FleetNext(f, Finish(x), g) && Holds(f, x) && f.executors[x].stage == Reporting(ReportDone)
    requires ExecutorOk(Durable(f), f, x)
    ensures var id, lease := f.executors[x].intent, f.executors[x].lease;
            && id in g.intents && g.intents[id].status.IntentDone? && g.intents[id].result.Some?
            && Effected(Durable(f), lease, g.intents[id].result.value)
  {
    DoneIsConfirmed(f, x);
  }

  /** The source confirms a report of Done. */
  lemma DoneIsConfirmed(f: Fleet, x: string)
    requires Healthy(f.cluster.world) && HandleOk(f.cluster.world.source) && Ledger(Durable(f)) && Located(Durable(f))
    requires ExecutorOk(Durable(f), f, x) && f.executors[x].stage == Reporting(ReportDone)
    ensures var lease := f.executors[x].lease;
            var r := Confirmed(f.cluster.world, f.intents[f.executors[x].intent]);
            r.Some? && Effected(Durable(f), lease, r.value)
  {
    var lease := f.executors[x].lease;
    var state := Durable(f).completed[lease.context.operationId].state;
    CompletedIsAnswered(f.cluster.world, lease.context, JobOf(lease), state);
  }

  lemma FleetLocates(fs: seq<Fleet>, ms: seq<Move>, i: nat)
    requires FleetRun(fs, ms) && i < |fs|
    ensures SystemLocated(fs[i].cluster.world)
  {
    for k := 0 to i
      invariant SystemLocated(fs[k].cluster.world)
    {
      FleetHistory(fs, ms, k);
      MoveLocates(fs[k], ms[k], fs[k + 1]);
    }
  }

  lemma MoveLocates(f: Fleet, m: Move, g: Fleet)
    requires FleetInv(f) && FleetNext(f, m, g) && SystemLocated(f.cluster.world)
    ensures SystemLocated(g.cluster.world)
  {
    MoveIsAction(f, m, g);
    var t := StepReveals(f.cluster.world, ActionOfMove(f, m));
  }

  /** A change of the entity supersedes the intent for good. */
  lemma ChangeSupersedes(fs: seq<Fleet>, ms: seq<Move>, i: nat, j: nat, n: nat, x: string)
    requires FleetRun(fs, ms) && i < j < |ms| && j < n < |fs|
    requires MeetsChange(fs[i], ms[i], x) && Stays(ms, i + 1, j, x) && ms[j] == Finish(x) && Holds(fs[j], x)
    ensures var id := fs[i].executors[x].intent;
            id in fs[n].intents && fs[n].intents[id].status.IntentSuperseded?
  {
    var e := fs[i].executors[x];
    assert fs[i + 1].executors[x] == Executor(e.intent, e.lease, Reporting(ReportSuperseded));
    ReportStays(fs, ms, i + 1, j, x, Executor(e.intent, e.lease, Reporting(ReportSuperseded)));
    ClosedStays(fs, ms, j + 1, n, e.intent);
  }

  /** An executor works for its intent only after it has asked whether the operation is done and has
      seen the entity as expected; and its workflow is the one the intent's action names. */
  lemma WorkIsWanted(f: Fleet, x: string, pid: string, g: Fleet)
    requires FleetNext(f, Move.Observe(x, pid), g) && x in g.executors && g.executors[x].stage.Working?
    ensures var lease := f.executors[x].lease;
            && f.executors[x].stage.Observing? && pid in g.cluster.flows
            && Inspect(Handle(f.cluster.world), lease.expected.data.entity) == Ok(lease.expected)
            && g.cluster.flows[pid] == Flow(lease.context, JobOf(lease), Ask)
            && JobData(JobOf(lease)) == lease.expected.data && JobAction(JobOf(lease)) == lease.action
            && (!lease.action.Archive? ==> JobExpected(JobOf(lease)) == lease.expected)
  {
  }
}
