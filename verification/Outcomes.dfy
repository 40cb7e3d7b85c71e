/**
 What a workflow's success means: whenever one ends with a state, the durable metadata records the
 operation as completed on the job's data, by the job's action, with that state.
 */
module Outcomes {
  import opened Managed
  import opened Files
  import opened SourceState
  import opened SourceInvariants
  import opened SourceSteps
  import opened System
  import opened SystemSafety
  import opened SystemTheorems
  import opened Engine
  import opened Adapter

  /** The locals of a workflow are about its job. */
  predicate Bound(f: Flow) {
    match f.pc
    case Attach(_, receipt) => f.job.ArchiveJob? && receipt.key == JobKey(f.job) && receipt.data == JobData(f.job)
    case Locate(anchor) => f.job.RecallJob? && anchor.key == JobKey(f.job)
    case Reserve(anchor) => f.job.RecallJob? && anchor.key == JobKey(f.job)
    case OpenPayload(_, recall) => f.job.RecallJob? && For(f, recall)
    case Fetch(_, recall) => f.job.RecallJob? && For(f, recall)
    case Fetching(recall, _) => f.job.RecallJob? && For(f, recall)
    case Publish(recall, _) => f.job.RecallJob? && For(f, recall)
    case _ => true
  }

  predicate For(f: Flow, recall: RecallTarget) {
    recall.data == JobExpected(f.job).data && recall.archive == JobKey(f.job)
  }

  lemma ReserveIsBound(w: World, f: Flow, env: Env, transferred: bool)
    requires WellFormed(f) && w.source.Opened? && Bound(f) && f.pc.Reserve?
    requires var r := Call(Handle(w), w.disk, f.ctx, PrepareRecall(JobExpected(f.job), f.pc.anchor), env).result;
             r.Ok? ==> SoundReply(PrepareRecall(JobExpected(f.job), f.pc.anchor), r.value)
    ensures Bound(f.(pc := Next(w, f, env, transferred)))
  {
  }

  lemma OthersAreBound(w: World, f: Flow, env: Env, transferred: bool)
    requires WellFormed(f) && w.source.Opened? && Bound(f) && !f.pc.Reserve?
    ensures Bound(f.(pc := Next(w, f, env, transferred)))
  {
  }

  /** A successful step call's own reply passes the adapter's checks, whichever step of a run. */
  lemma CallIsSound(w: World, ctx: OperationContext, req: Request, env: Env, reply: Reply)
    requires SystemInv(w) && SystemConforms(w) && Enabled(w, DoCall(ctx, req, env))
    requires Call(Handle(w), w.disk, ctx, req, env).result == Ok(reply)
    ensures SoundRequest(req) && SoundReply(req, reply)
  {
    DoCallConforms(w, ctx, req, env);
    CallIsRecorded(Handle(w), w.disk, ctx, req, env);
    assert Passes(Call(Handle(w), w.disk, ctx, req, env).store.state.steps[KeyOf(ctx, req)]);
  }

  lemma NextIsBound(w: World, f: Flow, env: Env, transferred: bool)
    requires SystemInv(w) && SystemConforms(w) && FlowOk(w, f) && Bound(f) && w.source.Opened?
             && Possible(w, CallOf(f, env))
    ensures Bound(f.(pc := Next(w, f, env, transferred)))
  {
    if f.pc.Reserve? {
      var req := PrepareRecall(JobExpected(f.job), f.pc.anchor);
      var r := Call(Handle(w), w.disk, f.ctx, req, env).result;
      if r.Ok? { CallIsSound(w, f.ctx, req, env, r.value); }
      ReserveIsBound(w, f, env, transferred);
    } else {
      OthersAreBound(w, f, env, transferred);
    }
  }

  // ---------- success ----------

  predicate CompletedIn(s: State, ctx: OperationContext, job: Job, state: EntityState) {
    ctx.operationId in s.completed
    && s.completed[ctx.operationId] == Completed(ctx, JobData(job), JobAction(job), state)
  }

  lemma SavedSuccessIsCompleted(s: State, ctx: OperationContext, req: Request, state: EntityState)
    requires Ledger(s) && Qualify(ctx).Ok? && Terminal(NameOf(req))
    requires KeyOf(ctx, req) in s.steps && s.steps[KeyOf(ctx, req)] == SavedStep(req, Ok(StateReply(state)))
    ensures ctx.operationId in s.completed
    ensures s.completed[ctx.operationId] == Completed(ctx, Completes(req).0, Completes(req).1, state)
  {
    assert ctx == Context(ctx.operationId);
    assert Succeeded(s, KeyOf(ctx, req)) && Indexed(s, KeyOf(ctx, req));
    assert CompletedOk(s, ctx.operationId);
  }

  /** The terminal request of a workflow, where it is about to make it. */
  function LastRequest(f: Flow): Option<Request> {
    match f.pc
    case Attach(view, receipt) => Some(CommitArchive(view, receipt))
    case Detach => if f.job.ReleaseJob? then Some(ReleaseData(JobExpected(f.job))) else None
    case Publish(recall, evidence) => Some(CommitRecall(recall, evidence))
    case _ => None
  }

  lemma SuccessIsTheLastReply(w: World, f: Flow, env: Env, transferred: bool, state: EntityState)
      returns (req: Request)
    requires WellFormed(f) && w.source.Opened? && !f.pc.Done? && !f.pc.Ask?
    requires Next(w, f, env, transferred) == Done(Ok(state))
    ensures LastRequest(f) == Some(req) && CallOf(f, env) == DoCall(f.ctx, req, env)
    ensures Call(Handle(w), w.disk, f.ctx, req, env).result == Ok(StateReply(state))
  {
    req := LastRequest(f).value;
  }

  /** Success is only ever reported of an operation the durable metadata has completed. */
  lemma SuccessMeansCompleted(w: World, f: Flow, env: Env, transferred: bool, state: EntityState)
    requires SystemInv(w) && SystemConforms(w) && FlowOk(w, f) && Bound(f) && w.source.Opened?
             && Possible(w, CallOf(f, env))
    requires !f.pc.Done? && !f.pc.Ask? && Next(w, f, env, transferred) == Done(Ok(state))
    ensures CompletedIn(FileOf(Apply(w, CallOf(f, env)).source).durable, f.ctx, f.job, state)
  {
    var req := SuccessIsTheLastReply(w, f, env, transferred, state);
    CallIsSound(w, f.ctx, req, env, StateReply(state));
    StepKeepsInv(w, DoCall(f.ctx, req, env));
    CallIsRecorded(Handle(w), w.disk, f.ctx, req, env);
    SavedSuccessIsCompleted(Call(Handle(w), w.disk, f.ctx, req, env).store.file.durable, f.ctx, req, state);
  }

  lemma AskSuccessMeansCompleted(w: World, f: Flow, env: Env, transferred: bool, state: EntityState)
    requires HandleOk(w.source) && w.source.Opened? && Ledger(Memory(w)) && WellFormed(f) && f.pc.Ask?
    requires Next(w, f, env, transferred) == Done(Ok(state))
    ensures CompletedIn(Handle(w).file.durable, f.ctx, f.job, state)
  {
  }

  // ---------- every run of the cluster ----------

  predicate FlowSettled(s: State, f: Flow) {
    Bound(f) && (f.pc.Done? && f.pc.result.Ok? ==> CompletedIn(s, f.ctx, f.job, f.pc.result.value))
  }

  ghost predicate OutcomeInv(c: Cluster) {
    && ClusterInv(c) && SystemConforms(c.world)
    && forall pid | pid in c.flows :: FlowSettled(FileOf(c.world.source).durable, c.flows[pid])
  }

  lemma AdvanceSettles(w: World, f: Flow, env: Env, transferred: bool)
    requires SystemInv(w) && SystemConforms(w) && FlowOk(w, f) && w.source.Opened? && Possible(w, CallOf(f, env))
    requires FlowSettled(FileOf(w.source).durable, f)
    ensures FlowSettled(FileOf(Apply(w, CallOf(f, env)).source).durable, f.(pc := Next(w, f, env, transferred)))
  {
    NextIsBound(w, f, env, transferred);
    var pc := Next(w, f, env, transferred);
    if pc.Done? && pc.result.Ok? && !f.pc.Done? {
      if f.pc.Ask? {
        AskSuccessMeansCompleted(w, f, env, transferred, pc.result.value);
      } else {
        SuccessMeansCompleted(w, f, env, transferred, pc.result.value);
      }
    }
  }

  /** What a cluster step does to the durable metadata: completed operations stay. */
  lemma ClusterStepAdvances(c: Cluster, e: Event, c': Cluster)
    requires ClusterInv(c) && ClusterNext(c, e, c')
    ensures Extends(FileOf(c.world.source).durable.completed, FileOf(c'.world.source).durable.completed)
  {
    EngineIsAllowed(c, e, c');
    ClusterStepKeepsInv(c, e, c');
    StepAdvances(c.world, ActionOf(c, e));
  }

  lemma FlowSettles(c: Cluster, e: Event, c': Cluster, pid: string)
    requires SystemInv(c.world) && SystemConforms(c.world) && ClusterNext(c, e, c') && pid in c'.flows
    requires pid in c.flows ==>
               FlowOk(c.world, c.flows[pid]) && FlowSettled(FileOf(c.world.source).durable, c.flows[pid])
    requires Extends(FileOf(c.world.source).durable.completed, FileOf(c'.world.source).durable.completed)
    ensures FlowSettled(FileOf(c'.world.source).durable, c'.flows[pid])
  {
    if e.Advance? && pid == e.pid {
      AdvanceSettles(c.world, c.flows[pid], e.env, e.transferred);
    } else if pid in c.flows {
    }
  }

  lemma ClusterStepKeepsOutcomes(c: Cluster, e: Event, c': Cluster)
    requires OutcomeInv(c) && ClusterNext(c, e, c')
    ensures OutcomeInv(c')
  {
    ClusterStepAdvances(c, e, c');
    forall pid | pid in c'.flows ensures FlowSettled(FileOf(c'.world.source).durable, c'.flows[pid]) {
      FlowSettles(c, e, c', pid);
    }
    ClusterStepKeepsInv(c, e, c');
    EngineIsAllowed(c, e, c');
    StepConforms(c.world, ActionOf(c, e));
  }

  /** Once an operation is completed, none of its calls, by whoever, changes any entity again. */
  lemma CompletedAppliesNothingMore(st: Store, d: Disk, ctx: OperationContext, req: Request, env: Env)
    requires Ledger(st.state) && ctx.operationId in st.state.completed
    ensures Call(st, d, ctx, req, env).store.state.entities == st.state.entities
    ensures Extends(st.state.completed, Call(st, d, ctx, req, env).store.state.completed)
  {
    CallWrites(st, d, ctx, req, env);
    if Attempted(st, d, ctx, req, env).Some? && Effect(st.state, d, ctx, req, env).result.Ok? {
      EffectAppliesNothingMore(st.state, d, ctx, req, env);
    }
  }

  /** A completed operation's terminal step is recorded, so no other step can finish it. */
  lemma NoSecondFinish(s: State, ctx: OperationContext)
    requires Ledger(s) && ctx.operationId in s.completed
    ensures forall t: State, data, action, public ::
              t.completed == s.completed && StepKey(ctx, TerminalName(action)) !in s.steps ==>
                Finish(t, ctx, data, action, public).1.Err?
  {
    assert CompletedOk(s, ctx.operationId);
  }

  lemma EffectAppliesNothingMore(s: State, d: Disk, ctx: OperationContext, req: Request, env: Env)
    requires Ledger(s) && Qualify(ctx).Ok? && KeyOf(ctx, req) !in s.steps && ctx.operationId in s.completed
    requires Effect(s, d, ctx, req, env).result.Ok?
    ensures var t := Effect(s, d, ctx, req, env).state; t.entities == s.entities && t.completed == s.completed
  {
    NoSecondFinish(s, ctx);
    match req
    case CommitArchive(view, receipt) => CommitArchiveGuards(s, d, ctx, view, receipt, env);
    case ReleaseData(expected) => ReleaseGuards(s, d, ctx, expected, env);
    case CommitRecall(target, evidence) => CommitRecallGuards(s, d, ctx, target, evidence, env);
    case _ =>
  }
}
