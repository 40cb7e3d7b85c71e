/**
 HsmEngine's archive, release and recall as program counters with local variables. Between two
 calls anything else may happen. Any number of workflows run beside each other and beside other
 clients; a restart, or the drop of the storage's handle, ends them all. The cluster refines the
 system: the engine never hands commit_archive a receipt the archive has not reported.
 */
module Engine {
  import opened Managed
  import opened Files
  import opened SourceState
  import opened SourceInvariants
  import opened System
  import opened SystemSafety
  import opened SystemTheorems
  import Cat = Catalog

  datatype Job =
    | ArchiveJob(data: DataKey, key: ArchiveKey)
    | ReleaseJob(expected: EntityState)
    | RecallJob(expected: EntityState, key: ArchiveKey)

  /** The call a workflow makes next, with the local variables it needs from then on. */
  datatype Pc =
    | Ask
    | Pin
    | Look(view: DataView)
    | Target(view: DataView)
    | Resume(view: DataView, target: ArchiveTarget)
    | Copy(view: DataView, target: ArchiveTarget)
    | Copying(view: DataView, target: ArchiveTarget, session: string)
    | Seal(view: DataView, target: ArchiveTarget, evidence: TransferEvidence)
    | Attach(view: DataView, receipt: ArchiveReceipt)
    | Observe
    | Verify(next: nat)
    | Detach
    | Locate(anchor: ArchiveReceipt)
    | Reserve(anchor: ArchiveReceipt)
    | OpenPayload(anchor: ArchiveReceipt, recall: RecallTarget)
    | Fetch(source: DataEndpoint, recall: RecallTarget)
    | Fetching(recall: RecallTarget, session: string)
    | Publish(recall: RecallTarget, evidence: TransferEvidence)
    | Done(result: Result<EntityState>)

  datatype Flow = Flow(ctx: OperationContext, job: Job, pc: Pc)

  predicate CheckReceipt(receipt: ArchiveReceipt, data: DataKey, key: ArchiveKey, length: nat, digest: ContentDigest) {
    && receipt.key == key && receipt.data == data && receipt.length == length && receipt.digest == digest
    && receipt.receiptId != "" && receipt.durabilityProfile != ""
  }

  function JobData(job: Job): DataKey {
    if job.ArchiveJob? then job.data else job.expected.data
  }

  function JobAction(job: Job): ManagedAction {
    match job
    case ArchiveJob(_, key) => Archive(key)
    case ReleaseJob(_) => ManagedAction.Release
    case RecallJob(_, key) => Recall(key)
  }

  function JobKey(job: Job): ArchiveKey {
    match job
    case ArchiveJob(_, key) => key
    case RecallJob(_, key) => key
    case ReleaseJob(_) => NO_RECEIPT.key
  }

  function JobExpected(job: Job): EntityState {
    match job
    case ReleaseJob(expected) => expected
    case RecallJob(expected, _) => expected
    case ArchiveJob(_, _) => NO_STATE
  }

  function AnchorAt(job: Job, i: nat): ArchiveReceipt {
    var anchors := JobExpected(job).anchors;
    if i < |anchors| then anchors[i] else NO_RECEIPT
  }

  /** The program points of each job, and the locals that are indices. */
  predicate WellFormed(f: Flow) {
    match f.pc
    case Ask => true
    case Done(_) => true
    case Observe => f.job.ReleaseJob?
    case Verify(i) => f.job.ReleaseJob? && i < |JobExpected(f.job).anchors|
    case Detach => f.job.ReleaseJob?
    case Locate(_) => f.job.RecallJob?
    case Reserve(_) => f.job.RecallJob?
    case OpenPayload(_, _) => f.job.RecallJob?
    case Fetch(_, _) => f.job.RecallJob?
    case Fetching(_, _) => f.job.RecallJob?
    case Publish(_, _) => f.job.RecallJob?
    case _ => f.job.ArchiveJob?
  }

  function CallOf(f: Flow, env: Env): Action {
    match f.pc
    case Ask => Idle
    case Pin => DoCall(f.ctx, PrepareArchive(JobData(f.job)), env)
    case Look(_) => DoInspect(JobKey(f.job), env)
    case Target(view) => DoPrepare(f.ctx, JobKey(f.job), view, env)
    case Resume(view, target) => DoResume(f.ctx, target, view, env)
    case Copy(view, target) => CopyBegin(f.ctx, view.source, target.destination, env.uuid, env.fault)
    case Copying(_, _, session) => CopyEnd(session)
    case Seal(view, target, evidence) => DoCommit(f.ctx, target, view, evidence, env)
    case Attach(view, receipt) => DoCall(f.ctx, CommitArchive(view, receipt), env)
    case Observe => Idle
    case Verify(i) => DoInspect(AnchorAt(f.job, i).key, env)
    case Detach => DoCall(f.ctx, ReleaseData(JobExpected(f.job)), env)
    case Locate(_) => DoInspect(JobKey(f.job), env)
    case Reserve(anchor) => DoCall(f.ctx, PrepareRecall(JobExpected(f.job), anchor), env)
    case OpenPayload(anchor, _) => DoOpen(anchor, env)
    case Fetch(source, recall) => CopyBegin(f.ctx, source, recall.destination, env.uuid, env.fault)
    case Fetching(_, session) => CopyEnd(session)
    case Publish(recall, evidence) => DoCall(f.ctx, CommitRecall(recall, evidence), env)
    case Done(_) => Idle
  }

  /** The copy's independent read-back of what it has written. */
  function ReadBack(w: World, session: string, transferred: bool, fault: Fault): Result<TransferEvidence> {
    if !transferred || session !in w.sessions then Err(HsmError.Unknown)
    else ReadPayload(w.disk, w.sessions[session].destination, fault)
  }

  function AfterLook(f: Flow, view: DataView, result: Result<ArchiveStatus>): Pc {
    match result
    case Err(e) => Done(Err(e))
    case Ok(Committed(receipt)) => Checked(f, view, receipt)
    case Ok(Absent) => Target(view)
    case Ok(_) => Done(Err(HsmError.Unknown))
  }

  function Checked(f: Flow, view: DataView, receipt: ArchiveReceipt): Pc {
    if CheckReceipt(receipt, JobData(f.job), JobKey(f.job), view.length, view.digest) then Attach(view, receipt)
    else Done(Err(Integrity))
  }

  /** The loop head of release's search for a verified anchor. */
  function VerifyFrom(f: Flow, i: nat): Pc {
    if i < |JobExpected(f.job).anchors| && SoundAnchor(JobExpected(f.job), AnchorAt(f.job, i)) then Verify(i)
    else Done(Err(Integrity))
  }

  function AfterVerify(f: Flow, i: nat, result: Result<ArchiveStatus>): Pc {
    match result
    case Err(e) => Done(Err(e))
    case Ok(Pending) => Done(Err(HsmError.Unknown))
    case Ok(Uncertain) => Done(Err(HsmError.Unknown))
    case Ok(status) => if status == Committed(AnchorAt(f.job, i)) then Detach else VerifyFrom(f, i + 1)
  }

  /** Recall's checks before it first asks the archive. */
  function StartRecall(f: Flow): Pc {
    var expected := JobExpected(f.job);
    if !expected.residency.Offline? then Done(Err(Conflict))
    else
      match FindAnchor(expected.anchors, JobKey(f.job))
      case None => Done(Err(NotFound))
      case Some(anchor) =>
        if CheckReceipt(anchor, expected.data, JobKey(f.job), expected.length, expected.digest) then Locate(anchor)
        else Done(Err(Integrity))
  }

  function AfterLocate(anchor: ArchiveReceipt, result: Result<ArchiveStatus>): Pc {
    match result
    case Err(e) => Done(Err(e))
    case Ok(Pending) => Done(Err(HsmError.Unknown))
    case Ok(Uncertain) => Done(Err(HsmError.Unknown))
    case Ok(status) => if status == Committed(anchor) then Reserve(anchor) else Done(Err(Integrity))
  }

  /** Where the archive does not know, or the question fails, every workflow that asks gives up. */
  lemma UncertaintyStops(f: Flow, view: DataView, i: nat, anchor: ArchiveReceipt, result: Result<ArchiveStatus>)
    requires result.Err? || result.value.Pending? || result.value.Uncertain?
    ensures AfterLook(f, view, result) == AfterVerify(f, i, result) == AfterLocate(anchor, result)
            == Done(Err(if result.Err? then result.error else HsmError.Unknown))
  {
  }

  function FindAnchor(anchors: seq<ArchiveReceipt>, key: ArchiveKey): (r: Option<ArchiveReceipt>)
    ensures r.Some? ==> r.value in anchors && r.value.key == key
    ensures r.None? ==> forall a | a in anchors :: a.key != key
  {
    if anchors == [] then None
    else if anchors[0].key == key then Some(anchors[0])
    else FindAnchor(anchors[1..], key)
  }

  function Replied(result: Result<Reply>): Pc {
    match result
    case Err(e) => Done(Err(e))
    case Ok(StateReply(state)) => Done(Ok(state))
    case Ok(_) => Done(Err(Integrity))
  }

  function AfterAsk(f: Flow, result: Result<Option<EntityState>>): Pc {
    match result
    case Err(e) => Done(Err(e))
    case Ok(Some(state)) => Done(Ok(state))
    case Ok(None) => if f.job.ArchiveJob? then Pin else if f.job.ReleaseJob? then Observe else StartRecall(f)
  }

  function AfterPin(result: Result<Reply>): Pc {
    match result
    case Err(e) => Done(Err(e))
    case Ok(ViewReply(view)) => Look(view)
    case Ok(_) => Done(Err(Integrity))
  }

  function AfterTarget(view: DataView, result: Result<ArchiveTarget>): Pc {
    if result.Err? then Done(Err(result.error)) else Resume(view, result.value)
  }

  function AfterResume(f: Flow, view: DataView, target: ArchiveTarget, result: Result<Option<ArchiveReceipt>>): Pc {
    match result
    case Err(e) => Done(Err(e))
    case Ok(Some(receipt)) => Checked(f, view, receipt)
    case Ok(None) => Copy(view, target)
  }

  function AfterCopying(view: DataView, target: ArchiveTarget, result: Result<TransferEvidence>): Pc {
    if result.Err? then Done(Err(result.error))
    else if result.value != TransferEvidence(view.length, view.digest) then Done(Err(Integrity))
    else Seal(view, target, result.value)
  }

  function AfterSeal(f: Flow, view: DataView, result: Result<ArchiveReceipt>): Pc {
    if result.Err? then Done(Err(result.error)) else Checked(f, view, result.value)
  }

  function AfterObserve(f: Flow, result: Result<EntityState>): Pc {
    if result.Err? then Done(Err(result.error))
    else if result.value != JobExpected(f.job) || JobExpected(f.job).anchors == [] then Done(Err(Conflict))
    else VerifyFrom(f, 0)
  }

  function AfterReserve(anchor: ArchiveReceipt, result: Result<Reply>): Pc {
    match result
    case Err(e) => Done(Err(e))
    case Ok(TargetReply(recall)) => OpenPayload(anchor, recall)
    case Ok(_) => Done(Err(Integrity))
  }

  function AfterOpen(recall: RecallTarget, result: Result<DataEndpoint>): Pc {
    if result.Err? then Done(Err(result.error)) else Fetch(result.value, recall)
  }

  function AfterFetching(f: Flow, recall: RecallTarget, result: Result<TransferEvidence>): Pc {
    if result.Err? then Done(Err(result.error))
    else if result.value != TransferEvidence(JobExpected(f.job).length, JobExpected(f.job).digest)
    then Done(Err(Integrity))
    else Publish(recall, result.value)
  }

  function Started(result: Result<Session>, next: Pc): Pc {
    if result.Err? then Done(Err(result.error)) else next
  }

  /** Where the workflow goes after its call, made in world `w`, has been answered. */
  function Next(w: World, f: Flow, env: Env, transferred: bool): Pc {
    var st, d, c := Handle(w), w.disk, w.catalog;
    match f.pc
    case Ask =>
      if !f.ctx.Valid() then Done(Err(Invalid))
      else AfterAsk(f, QueryCompleted(st, f.ctx, JobData(f.job), JobAction(f.job)))
    case Pin => AfterPin(Call(st, d, f.ctx, PrepareArchive(JobData(f.job)), env).result)
    case Look(view) => AfterLook(f, view, Cat.Inspect(c, d, JobKey(f.job), env.fault).result)
    case Target(view) => AfterTarget(view, Cat.Prepare(c, d, f.ctx, JobKey(f.job), view, env).result)
    case Resume(view, target) => AfterResume(f, view, target, Cat.ResumeCommit(c, d, f.ctx, target, view, env).result)
    case Copy(view, target) =>
      Started(BeginCopy(d, f.ctx, view.source, target.destination, env.fault), Copying(view, target, env.uuid))
    case Copying(view, target, session) => AfterCopying(view, target, ReadBack(w, session, transferred, env.fault))
    case Seal(view, target, evidence) => AfterSeal(f, view, Cat.Commit(c, d, f.ctx, target, view, evidence, env).result)
    case Attach(view, receipt) => Replied(Call(st, d, f.ctx, CommitArchive(view, receipt), env).result)
    case Observe => AfterObserve(f, Inspect(st, JobExpected(f.job).data.entity))
    case Verify(i) => AfterVerify(f, i, Cat.Inspect(c, d, AnchorAt(f.job, i).key, env.fault).result)
    case Detach => Replied(Call(st, d, f.ctx, ReleaseData(JobExpected(f.job)), env).result)
    case Locate(anchor) => AfterLocate(anchor, Cat.Inspect(c, d, JobKey(f.job), env.fault).result)
    case Reserve(anchor) =>
      AfterReserve(anchor, Call(st, d, f.ctx, PrepareRecall(JobExpected(f.job), anchor), env).result)
    case OpenPayload(anchor, recall) => AfterOpen(recall, Cat.Open(c, d, anchor, env.fault).result)
    case Fetch(source, recall) =>
      Started(BeginCopy(d, f.ctx, source, recall.destination, env.fault), Fetching(recall, env.uuid))
    case Fetching(recall, session) => AfterFetching(f, recall, ReadBack(w, session, transferred, env.fault))
    case Publish(recall, evidence) => Replied(Call(st, d, f.ctx, CommitRecall(recall, evidence), env).result)
    case Done(_) => f.pc
  }

  // ---------- the cluster ----------

  datatype Cluster = Cluster(world: World, flows: map<string, Flow>)

  /** A workflow starts, takes its next step, or something else happens in the system. */
  datatype Event =
    | Spawn(pid: string, ctx: OperationContext, job: Job)
    | Advance(pid: string, env: Env, transferred: bool)
    | Other(action: Action)

  ghost predicate ClusterNext(c: Cluster, e: Event, c': Cluster) {
    match e
    case Spawn(pid, ctx, job) =>
      pid !in c.flows && c' == c.(flows := c.flows[pid := Flow(ctx, job, Ask)])
    case Advance(pid, env, transferred) =>
      && pid in c.flows && WellFormed(c.flows[pid]) && c.world.source.Opened?
      && Possible(c.world, CallOf(c.flows[pid], env))
      && c' == Cluster(Apply(c.world, CallOf(c.flows[pid], env)),
                       c.flows[pid := c.flows[pid].(pc := Next(c.world, c.flows[pid], env, transferred))])
    case Other(action) =>
      && Enabled(c.world, action)
      && c' == Cluster(Apply(c.world, action), if action.Restart? || action.Close? then map[] else c.flows)
  }

  /** The system action an event is. */
  function ActionOf(c: Cluster, e: Event): Action {
    match e
    case Spawn(_, _, _) => Idle
    case Advance(pid, env, _) => if pid in c.flows then CallOf(c.flows[pid], env) else Idle
    case Other(action) => action
  }

  /** What a workflow's locals are known to mean, whatever the others have done since. */
  predicate FlowOk(w: World, f: Flow) {
    && WellFormed(f)
    && (f.pc.Attach? ==>
          && f.pc.receipt in w.reported
          && CheckReceipt(f.pc.receipt, JobData(f.job), JobKey(f.job), f.pc.view.length, f.pc.view.digest))
    && (f.pc.Verify? ==> SoundAnchor(JobExpected(f.job), AnchorAt(f.job, f.pc.next)))
    && (f.pc.Detach? ==>
          exists a | a in JobExpected(f.job).anchors :: a in w.reported && SoundAnchor(JobExpected(f.job), a))
    && (f.pc.Locate? ==> f.pc.anchor in JobExpected(f.job).anchors)
    && (f.pc.Reserve? ==> f.pc.anchor in w.reported && f.pc.anchor in JobExpected(f.job).anchors)
  }

  /** The release's check of an anchor against its entity. */
  predicate SoundAnchor(expected: EntityState, a: ArchiveReceipt) {
    CheckReceipt(a, expected.data, a.key, expected.length, expected.digest)
  }

  ghost predicate ClusterInv(c: Cluster) {
    SystemInv(c.world) && forall pid | pid in c.flows :: FlowOk(c.world, c.flows[pid])
  }

  lemma FlowKept(w: World, f: Flow, w': World)
    requires FlowOk(w, f) && w.reported <= w'.reported
    ensures FlowOk(w', f)
  {
  }

  /** The engine hands commit_archive only receipts the archive has reported. */
  lemma EngineIsAllowed(c: Cluster, e: Event, c': Cluster)
    requires ClusterInv(c) && ClusterNext(c, e, c')
    ensures Enabled(c.world, ActionOf(c, e))
  {
    if e.Advance? {
      assert FlowOk(c.world, c.flows[e.pid]);
    }
  }

  lemma NextIsWellFormed(w: World, f: Flow, env: Env, transferred: bool)
    requires WellFormed(f) && w.source.Opened?
    ensures WellFormed(f.(pc := Next(w, f, env, transferred)))
  {
  }

  predicate HasNoReceipt(job: Job, pc: Pc) {
    && !pc.Attach? && !pc.Detach? && !pc.Reserve? && (pc.Locate? ==> pc.anchor in JobExpected(job).anchors)
    && (pc.Verify? ==> job.ReleaseJob? && SoundAnchor(JobExpected(job), AnchorAt(job, pc.next)))
  }

  /** The other steps hand no receipt on. */
  lemma NextHasNoReceipt(w: World, f: Flow, env: Env, transferred: bool)
    requires WellFormed(f) && w.source.Opened?
    requires !(f.pc.Look? || f.pc.Resume? || f.pc.Seal? || f.pc.Verify? || f.pc.Locate? || f.pc.Done?)
    ensures HasNoReceipt(f.job, Next(w, f, env, transferred))
  {
  }

  lemma AdvanceKeepsFlow(w: World, f: Flow, env: Env, transferred: bool)
    requires FlowOk(w, f) && w.source.Opened? && Possible(w, CallOf(f, env))
    ensures FlowOk(Apply(w, CallOf(f, env)), f.(pc := Next(w, f, env, transferred)))
  {
    NextIsWellFormed(w, f, env, transferred);
    if f.pc.Look? || f.pc.Resume? || f.pc.Seal? || f.pc.Verify? || f.pc.Locate? {
    } else if !f.pc.Done? {
      NextHasNoReceipt(w, f, env, transferred);
    }
  }

  lemma ClusterStepKeepsInv(c: Cluster, e: Event, c': Cluster)
    requires ClusterInv(c) && ClusterNext(c, e, c')
    ensures ClusterInv(c') && c'.world == Apply(c.world, ActionOf(c, e))
  {
    var a := ActionOf(c, e);
    EngineIsAllowed(c, e, c');
    StepKeepsInv(c.world, a);
    StepKeepsReports(c.world, a);
    FlowsKept(c, e, c');
  }

  lemma FlowsKept(c: Cluster, e: Event, c': Cluster)
    requires (forall pid | pid in c.flows :: FlowOk(c.world, c.flows[pid])) && ClusterNext(c, e, c')
    requires c.world.reported <= c'.world.reported
    ensures forall pid | pid in c'.flows :: FlowOk(c'.world, c'.flows[pid])
  {
    forall pid | pid in c'.flows ensures FlowOk(c'.world, c'.flows[pid]) {
      if e.Advance? && pid == e.pid {
        AdvanceKeepsFlow(c.world, c.flows[pid], e.env, e.transferred);
      } else if pid in c.flows {
        FlowKept(c.world, c.flows[pid], c'.world);
      }
    }
  }

  // ---------- runs of the cluster ----------

  ghost predicate ClusterRun(cs: seq<Cluster>, es: seq<Event>) {
    && |cs| == |es| + 1
    && Init(cs[0].world) && cs[0].flows == map[]
    && forall i {:trigger es[i]} | 0 <= i < |es| :: ClusterNext(cs[i], es[i], cs[i + 1])
  }

  function Worlds(cs: seq<Cluster>): seq<World> {
    seq(|cs|, i requires 0 <= i < |cs| => cs[i].world)
  }

  function Actions(cs: seq<Cluster>, es: seq<Event>): seq<Action>
    requires |cs| == |es| + 1
  {
    seq(|es|, i requires 0 <= i < |es| => ActionOf(cs[i], es[i]))
  }

  lemma {:induction false} ClusterRunKeepsInv(cs: seq<Cluster>, es: seq<Event>, i: nat)
    requires ClusterRun(cs, es) && i < |cs|
    ensures ClusterInv(cs[i])
  {
    if i == 0 {
      InitEstablishesInv(cs[0].world);
    } else {
      ClusterRunKeepsInv(cs, es, i - 1);
      var e := es[i - 1];
      ClusterStepKeepsInv(cs[i - 1], e, cs[i]);
    }
  }

  lemma ClusterStepIsSystemStep(cs: seq<Cluster>, es: seq<Event>, i: nat)
    requires ClusterRun(cs, es) && i < |es|
    ensures Enabled(cs[i].world, ActionOf(cs[i], es[i]))
            && cs[i + 1].world == Apply(cs[i].world, ActionOf(cs[i], es[i]))
  {
    ClusterRunKeepsInv(cs, es, i);
    EngineIsAllowed(cs[i], es[i], cs[i + 1]);
    ClusterStepKeepsInv(cs[i], es[i], cs[i + 1]);
  }

  /** Every run of any number of workflows is a run of the system, event for event; so every
      theorem about system runs is one about the engine. */
  lemma ClusterRefinesSystem(cs: seq<Cluster>, es: seq<Event>)
    requires ClusterRun(cs, es)
    ensures Run(Worlds(cs), Actions(cs, es))
  {
    var ws, acts := Worlds(cs), Actions(cs, es);
    forall i {:trigger acts[i]} | 0 <= i < |acts|
      ensures Enabled(ws[i], acts[i]) && ws[i + 1] == Apply(ws[i], acts[i])
    {
      ClusterStepIsSystemStep(cs, es, i);
    }
  }

  /** No data loss under any interleaving of workflows, copies, collections and crashes. */
  lemma EngineLosesNothing(cs: seq<Cluster>, es: seq<Event>, i: nat, j: nat, id: string, bytes: Bytes, env: Env,
                           s: State)
    requires ClusterRun(cs, es) && i < j < |cs| && es[i] == Other(DoImport(id, bytes, env))
    requires cs[i].world.source.Opened? && Import(Handle(cs[i].world), cs[i].world.disk, id, bytes, env).result.Ok?
    requires s == FileOf(cs[j].world.source).durable || s == FileOf(cs[j].world.source).visible
    ensures id in s.entities && Held(cs[j].world, s.entities[id], bytes)
  {
    ClusterRefinesSystem(cs, es);
    ImportIsNeverLost(Worlds(cs), Actions(cs, es), i, j, id, bytes, env, s);
  }

  /** A reported receipt's payload is durably held, with the bytes the receipt describes. */
  lemma ReportedIsHeld(w: World, a: ArchiveReceipt) returns (bytes: Bytes)
    requires SystemInv(w) && a in w.reported
    ensures ArchiveCopy(w.disk, w.catalog, a, bytes) && Measure(bytes) == TransferEvidence(a.length, a.digest)
  {
    assert Cat.Reports(w.catalog, a.key, a);
    assert Cat.Backs(w.catalog.id, w.disk, a.key, w.catalog.linked[a.key]);
    bytes := PayloadOf(w.disk, DecodeEndpoint(w.catalog.durable[a.key].payload).value);
  }

  /** At a release's own call one of the anchors it verified is still durably committed, with the
      entity's bytes. */
  lemma ReleaseLeavesAnArchive(w: World, f: Flow, expected: EntityState) returns (a: ArchiveReceipt, bytes: Bytes)
    requires f.job == ReleaseJob(expected) && f.pc == Detach && SystemInv(w) && FlowOk(w, f)
    ensures a in expected.anchors && a in w.reported
    ensures ArchiveCopy(w.disk, w.catalog, a, bytes) && Measure(bytes) == Content(expected)
  {
    a :| a in expected.anchors && a in w.reported && SoundAnchor(expected, a);
    bytes := ReportedIsHeld(w, a);
  }

  /** Whenever a release's call is made in a run, first or repeated, one of the anchors it was asked
      for is durably committed with exactly the entity's content, then and ever after. */
  lemma ReleaseKeepsAnArchive(cs: seq<Cluster>, es: seq<Event>, i: nat, j: nat, pid: string, expected: EntityState)
    returns (a: ArchiveReceipt, bytes: Bytes)
    requires ClusterRun(cs, es) && i <= j < |cs| && pid in cs[i].flows
    requires cs[i].flows[pid].pc == Detach && cs[i].flows[pid].job == ReleaseJob(expected)
    ensures a in expected.anchors && a in cs[i].world.reported
    ensures ArchiveCopy(cs[j].world.disk, cs[j].world.catalog, a, bytes) && Measure(bytes) == Content(expected)
  {
    assert FlowOk(cs[i].world, cs[i].flows[pid]) by { ClusterRunKeepsInv(cs, es, i); }
    a :| a in expected.anchors && a in cs[i].world.reported && SoundAnchor(expected, a);
    ClusterRefinesSystem(cs, es);
    RunGrows(Worlds(cs), Actions(cs, es), i, j);
    RunKeepsInv(Worlds(cs), Actions(cs, es), j);
    bytes := ReportedIsHeld(cs[j].world, a);
  }

}
