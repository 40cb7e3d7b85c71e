/**
 The worker's cycle: nested loops over pages of ready tasks, pending seals and policy scans, with
 counters and budgets shared between them. What the remote storage answers is arbitrary.
 */
module Worker {
  import opened Managed
  import I = Intents

  datatype WorkClass = RecallLane | BackgroundLane

  /** The lane partition: Recall work in its own lane, everything else in the background. */
  predicate Accepts(lane: WorkClass, action: ManagedAction) {
    action.Recall? == lane.RecallLane?
  }

  datatype Task = Task(id: string, policy: string, action: ManagedAction, status: I.Status, claim: Option<I.Claim>)

  datatype Policy = Policy(id: string, enabled: bool, backend: string, scanBudget: nat)

  /** What one exchange with the storage or the engine yields. */
  datatype Message =
    | Failure(error: HsmError)
    | Policies(policies: seq<Policy>, nextPolicy: Option<string>)
    | Tasks(tasks: seq<Task>, nextTask: Option<string>)
    | Ran(status: I.Status)
    | Seals(data: seq<DataKey>)
    | Scanned(examined: nat, admitted: nat, toSeal: seq<DataKey>, nextScan: Option<string>)
    | Sealed

  datatype Run = Run(task: Task, result: Result<I.Status>)

  datatype Scan = Scan(policy: string, limit: nat, examined: nat, admitted: nat, toSeal: seq<DataKey>, more: bool)

  /** One page of a listing: where it was asked to begin, and where the next one begins. */
  datatype Page = Page(after: Option<string>, next: Option<string>)

  /** What decides which tasks one pass may run. */
  datatype Scope = Scope(definitions: map<string, Policy>, backend: string, epoch: nat, lane: Option<WorkClass>)

  predicate InLane(t: Task, scope: Scope) {
    scope.lane.Some? ==> Accepts(scope.lane.value, t.action)
  }

  predicate Belongs(t: Task, scope: Scope) {
    match t.action
    case Archive(key) => key.backend == scope.backend
    case Recall(key) => key.backend == scope.backend
    case Release => t.policy in scope.definitions && scope.definitions[t.policy].backend == scope.backend
  }

  /** Ready, or running under a claim of an older epoch. */
  predicate Eligible(t: Task, scope: Scope) {
    t.status.IntentReady? || (t.status.IntentRunning? && t.claim.Some? && t.claim.value.epoch < scope.epoch)
  }

  // ---------- which tasks those are, in the source's terms ----------

  /** An intent that looks like the task. */
  function IntentOf(t: Task): I.Intent {
    I.Intent(NO_STATE, t.action, OperationContext("", 0, 0), t.status, t.claim, None)
  }

  /** The backend that has to do the action: the key's own, or for a release the policy's. */
  function BackendOf(t: Task, definitions: map<string, Policy>): Option<string> {
    if t.action.Release? then
      if t.policy in definitions then Some(definitions[t.policy].backend) else None
    else Some(t.action.key.backend)
  }

  /** The worker's share: what its controller may claim, for its backend, in its lane. */
  predicate Granted(t: Task, scope: Scope) {
    && I.Claimable(IntentOf(t), scope.epoch)
    && BackendOf(t, scope.definitions) == Some(scope.backend) && OwnLane(t, scope)
  }

  /** Recalls are the recall lane's, all other actions the background lane's. */
  predicate OwnLane(t: Task, scope: Scope) {
    (scope.lane == Some(RecallLane) ==> t.action.Recall?) && (scope.lane == Some(BackgroundLane) ==> !t.action.Recall?)
  }

  /** A task is eligible exactly if the source grants a claim of an intent with its status and claim. */
  lemma EligibleIsClaimable(t: Task, i: I.Intent, scope: Scope)
    requires i.status == t.status && i.claim == t.claim
    ensures Eligible(t, scope) <==> I.Claimable(i, scope.epoch)
  {
  }

  /** Every action has exactly one lane, and a worker without one has both. */
  lemma LanesSplit(t: Task, scope: Scope)
    ensures Accepts(RecallLane, t.action) <==> !Accepts(BackgroundLane, t.action)
    ensures Accepts(RecallLane, t.action) <==> t.action.Recall?
    ensures scope.lane.None? ==> InLane(t, scope)
    ensures InLane(t, scope.(lane := Some(RecallLane))) <==> !InLane(t, scope.(lane := Some(BackgroundLane)))
  {
  }

  lemma ChecksGrant(t: Task, scope: Scope)
    ensures InLane(t, scope) <==> OwnLane(t, scope)
    ensures InLane(t, scope) && Belongs(t, scope) && Eligible(t, scope) <==> Granted(t, scope)
  {
    EligibleIsClaimable(t, IntentOf(t), scope);
    LanesSplit(t, scope);
  }

  function Selected(tasks: seq<Task>, scope: Scope): seq<Task> {
    if tasks == [] then []
    else
      var last := tasks[|tasks| - 1];
      Selected(tasks[..|tasks| - 1], scope) + if Granted(last, scope) then [last] else []
  }

  function TasksOf(runs: seq<Run>): seq<Task> {
    seq(|runs|, i requires 0 <= i < |runs| => runs[i].task)
  }

  predicate Succeeded(r: Run) { r.result.Ok? }
  predicate Failed(r: Run) { r.result == Ok(I.IntentFailed) }
  predicate Retried(r: Run) { r.result == Ok(I.IntentReady) }

  function Count(runs: seq<Run>, p: Run -> bool): nat {
    if runs == [] then 0 else Count(runs[..|runs| - 1], p) + if p(runs[|runs| - 1]) then 1 else 0
  }

  lemma CountAppends(runs: seq<Run>, r: Run, p: Run -> bool)
    ensures Count(runs + [r], p) == Count(runs, p) + if p(r) then 1 else 0
  {
    assert (runs + [r])[..|runs|] == runs;
  }

  /** Failed and retried runs are different runs, and both are executed ones. */
  lemma {:induction false} CountsNest(runs: seq<Run>)
    ensures Count(runs, Failed) + Count(runs, Retried) <= Count(runs, Succeeded)
  {
    if runs != [] { CountsNest(runs[..|runs| - 1]); }
  }

  lemma SelectedAppends(tasks: seq<Task>, t: Task, scope: Scope)
    ensures Selected(tasks + [t], scope) == Selected(tasks, scope) + if Granted(t, scope) then [t] else []
  {
    assert (tasks + [t])[..|tasks|] == tasks;
  }

  lemma {:induction false} SelectedPrefix(a: seq<Task>, b: seq<Task>, scope: Scope)
    requires a <= b
    ensures Selected(a, scope) <= Selected(b, scope)
    decreases |b|
  {
    if a != b {
      SelectedPrefix(a, b[..|b| - 1], scope);
    }
  }

  // ---------- listings ----------

  /** Each page begins where the one before it ended; after the last one a new listing begins. */
  predicate Linked(pages: seq<Page>) {
    forall k | 0 <= k < |pages| :: pages[k].after == Begin(pages[..k])
  }

  /** Where the page after these begins. */
  function Begin(pages: seq<Page>): Option<string> {
    if pages == [] then None else pages[|pages| - 1].next
  }

  /** No listing is under way: every one has been read to its end. */
  predicate AtEnd(pages: seq<Page>) {
    Linked(pages) && Begin(pages).None?
  }

  function Listings(pages: seq<Page>): nat {
    if pages == [] then 0 else Listings(pages[..|pages| - 1]) + if pages[|pages| - 1].after.None? then 1 else 0
  }

  lemma PageAppends(pages: seq<Page>, page: Page)
    requires Linked(pages) && page.after == Begin(pages)
    ensures Linked(pages + [page])
    ensures Listings(pages + [page]) == Listings(pages) + if page.after.None? then 1 else 0
  {
    var longer := pages + [page];
    assert longer[..|pages|] == pages;
    forall k | 0 <= k < |longer| ensures longer[k].after == Begin(longer[..k]) {
      if k < |pages| { assert longer[..k] == pages[..k]; }
    }
  }

  // ---------- the storage and the engine, as the worker meets them ----------

  /** Answers arrive in order; the logs keep what was asked, listed, run, scanned and sealed. */
  class Control {
    var answers: seq<Message>
    var seen: seq<Task>
    var taskPages: seq<Page>
    var runs: seq<Run>
    var scans: seq<Scan>
    var listed: seq<Policy>
    var policyPages: seq<Page>
    var pending: seq<DataKey>
    var sealed: seq<DataKey>
    var failed: bool

    constructor (answers: seq<Message>)
      ensures this.answers == answers && seen == [] && taskPages == [] && runs == [] && scans == []
      ensures listed == [] && policyPages == [] && pending == [] && sealed == [] && !failed
    {
      this.answers := answers;
      seen, taskPages, runs, scans := [], [], [], [];
      listed, policyPages, pending, sealed, failed := [], [], [], [], false;
    }

    method Next() returns (m: Message)
      modifies this`answers
      ensures old(answers) != [] ==> m == old(answers)[0] && answers == old(answers)[1..]
      ensures old(answers) == [] ==> m == Failure(Io) && answers == []
    {
      if answers == [] {
        return Failure(Io);
      }
      m := answers[0];
      answers := answers[1..];
    }

    method ReadyTasks(after: Option<string>) returns (r: Result<(seq<Task>, Option<string>)>)
      modifies this`answers, this`seen, this`taskPages, this`failed
      ensures failed == (old(failed) || r.Err?)
      ensures r.Ok? ==> seen == old(seen) + r.value.0 && taskPages == old(taskPages) + [Page(after, r.value.1)]
                        && |answers| < |old(answers)|
      ensures r.Err? ==> seen == old(seen) && taskPages == old(taskPages) && |answers| <= |old(answers)|
    {
      var m := Next();
      if !m.Tasks? {
        failed := true;
        return Err(if m.Failure? then m.error else Integrity);
      }
      seen, taskPages := seen + m.tasks, taskPages + [Page(after, m.nextTask)];
      r := Ok((m.tasks, m.nextTask));
    }

    method PolicyPage(after: Option<string>) returns (r: Result<(seq<Policy>, Option<string>)>)
      modifies this`answers, this`listed, this`policyPages, this`failed
      ensures failed == (old(failed) || r.Err?)
      ensures r.Ok? ==> listed == old(listed) + r.value.0 && |answers| < |old(answers)|
      ensures r.Ok? ==> policyPages == old(policyPages) + [Page(after, r.value.1)]
      ensures r.Err? ==> listed == old(listed) && policyPages == old(policyPages) && |answers| <= |old(answers)|
    {
      var m := Next();
      if !m.Policies? {
        failed := true;
        return Err(if m.Failure? then m.error else Integrity);
      }
      listed, policyPages := listed + m.policies, policyPages + [Page(after, m.nextPolicy)];
      r := Ok((m.policies, m.nextPolicy));
    }

    method PendingSeals() returns (r: Result<seq<DataKey>>)
      modifies this`answers, this`pending, this`failed
      ensures failed == (old(failed) || r.Err?)
      ensures pending == old(pending) + if r.Ok? then r.value else []
      ensures |answers| <= |old(answers)|
    {
      var m := Next();
      if !m.Seals? {
        failed := true;
        return Err(if m.Failure? then m.error else Integrity);
      }
      pending := pending + m.data;
      r := Ok(m.data);
    }

    method RunIntent(t: Task) returns (r: Result<I.Status>)
      modifies this`answers, this`runs
      ensures runs == old(runs) + [Run(t, r)] && |answers| <= |old(answers)|
    {
      var m := Next();
      r := if m.Ran? then Ok(m.status) else Err(if m.Failure? then m.error else Integrity);
      runs := runs + [Run(t, r)];
    }

    method ScanScheduled(policy: string, limit: nat) returns (r: Result<Scan>)
      modifies this`answers, this`scans, this`failed
      ensures failed == (old(failed) || r.Err?)
      ensures r.Ok? ==> scans == old(scans) + [r.value] && r.value.policy == policy && r.value.limit == limit
                        && |answers| < |old(answers)|
      ensures r.Err? ==> scans == old(scans) && |answers| <= |old(answers)|
    {
      var m := Next();
      if !m.Scanned? {
        failed := true;
        return Err(if m.Failure? then m.error else Integrity);
      }
      var scan := Scan(policy, limit, m.examined, m.admitted, m.toSeal, m.nextScan.Some?);
      scans := scans + [scan];
      r := Ok(scan);
    }

    method Seal(data: DataKey) returns (r: Result<()>)
      modifies this`answers, this`sealed, this`failed
      ensures failed == (old(failed) || r.Err?)
      ensures sealed == old(sealed) + if r.Ok? then [data] else []
      ensures |answers| <= |old(answers)|
    {
      var m := Next();
      if m.Failure? {
        failed := true;
        return Err(m.error);
      }
      sealed := sealed + [data];
      r := Ok(());
    }
  }

  class CycleReport {
    var admitted: nat
    var executed: nat
    var failed: nat
    var retry: nat

    constructor ()
      ensures admitted == 0 && executed == 0 && failed == 0 && retry == 0
    {
      admitted, executed, failed, retry := 0, 0, 0, 0;
    }
  }

  /** A run that does not stop the worker: it ended, or the intent was busy or somebody else's. */
  predicate Tolerated(r: Run) {
    r.result.Ok? || r.result == Err(Busy) || r.result == Err(Conflict)
  }

  /** Nothing has gone wrong so far. */
  ghost predicate Smooth(control: Control)
    reads control`failed, control`runs
  {
    !control.failed && forall r | r in control.runs :: Tolerated(r)
  }

  /** What stops a cycle: a request failed, a task could not be run, or another lane's was listed. */
  ghost predicate Trouble(control: Control, scope: Scope)
    reads control`failed, control`runs, control`seen
  {
    || control.failed
    || (exists r | r in control.runs :: !Tolerated(r))
    || (exists t | t in control.seen :: !OwnLane(t, scope))
  }

  ghost predicate AllInLane(tasks: seq<Task>, scope: Scope) {
    forall t | t in tasks :: OwnLane(t, scope)
  }

  /** The report counts exactly the runs. */
  ghost predicate Counted(report: CycleReport, runs: seq<Run>)
    reads report
  {
    && report.executed == Count(runs, Succeeded)
    && report.failed == Count(runs, Failed)
    && report.retry == Count(runs, Retried)
  }

  ghost predicate AllGranted(runs: seq<Run>, from: nat, scope: Scope) {
    from <= |runs| && forall i | from <= i < |runs| :: Granted(runs[i].task, scope)
  }

  /** What may follow a listing: another one, unless the action budget has cut it short. */
  ghost predicate Between(control: Control, executed: nat, maxActions: nat)
    reads control`taskPages
  {
    Linked(control.taskPages) && (executed < maxActions ==> AtEnd(control.taskPages))
  }

  /** Runs the granted tasks of page after page, in order, until the budget or the pages end. */
  method ExecuteReady(control: Control, scope: Scope, maxActions: nat, report: CycleReport) returns (r: Result<()>)
    requires Counted(report, control.runs) && Between(control, report.executed, maxActions)
    requires Smooth(control)
    modifies control`answers, control`seen, control`taskPages, control`runs, control`failed
    modifies report`executed, report`failed, report`retry
    ensures Counted(report, control.runs) && |control.answers| <= |old(control.answers)|
    ensures old(control.runs) <= control.runs && old(control.seen) <= control.seen
    ensures AllGranted(control.runs, |old(control.runs)|, scope)
    ensures old(report.executed) <= report.executed
    ensures old(report.executed) <= maxActions ==> report.executed <= maxActions
    ensures TasksOf(control.runs[|old(control.runs)|..]) <= Selected(control.seen[|old(control.seen)|..], scope)
    ensures if r.Ok? then Smooth(control) && Between(control, report.executed, maxActions) else Trouble(control, scope)
    ensures r.Ok? && report.executed < maxActions ==>
              && TasksOf(control.runs[|old(control.runs)|..]) == Selected(control.seen[|old(control.seen)|..], scope)
              && AllInLane(control.seen[|old(control.seen)|..], scope)
              && Listings(control.taskPages) == Listings(old(control.taskPages)) + 1
  {
    ghost var runs0, seen0 := control.runs, control.seen;
    ghost var handled: seq<Task> := [];
    if report.executed >= maxActions {
      return Ok(());
    }
    var after: Option<string> := None;
    var more := true;
    while more
      invariant Progress(control, report, scope, runs0, seen0, handled)
      invariant old(report.executed) <= report.executed < maxActions && handled == control.seen[|seen0|..]
      invariant |control.answers| <= |old(control.answers)| && Smooth(control)
      invariant Linked(control.taskPages) && (more <==> after.Some? || control.taskPages == old(control.taskPages))
      invariant after == Begin(control.taskPages)
      invariant Listings(control.taskPages) == Listings(old(control.taskPages))
                                              + if control.taskPages == old(control.taskPages) then 0 else 1
      decreases |control.answers|, more
    {
      var page;
      page, handled := OnePage(control, scope, maxActions, report, after, runs0, seen0, handled);
      SelectedPrefix(handled, control.seen[|seen0|..], scope);
      if page.Err? {
        return Err(page.error);
      }
      if report.executed >= maxActions {
        return Ok(());
      }
      after := page.value;
      more := after.Some?;
    }
    r := Ok(());
  }

  /** Reads one page and runs it; tells where the next one begins. */
  method OnePage(control: Control, scope: Scope, maxActions: nat, report: CycleReport, after: Option<string>,
                 ghost runs0: seq<Run>, ghost seen0: seq<Task>, ghost earlier: seq<Task>)
    returns (r: Result<Option<string>>, ghost handled: seq<Task>)
    requires Progress(control, report, scope, runs0, seen0, earlier) && report.executed < maxActions
    requires earlier == control.seen[|seen0|..] && Linked(control.taskPages)
    requires after == Begin(control.taskPages) && Smooth(control)
    modifies control`answers, control`seen, control`taskPages, control`runs, control`failed
    modifies report`executed, report`failed, report`retry
    ensures Progress(control, report, scope, runs0, seen0, handled)
    ensures old(report.executed) <= report.executed <= maxActions
    ensures |control.answers| <= |old(control.answers)| && (r.Ok? ==> |control.answers| < |old(control.answers)|)
    ensures r.Ok? && report.executed < maxActions ==> handled == control.seen[|seen0|..]
    ensures if r.Ok? then Smooth(control) else Trouble(control, scope)
    ensures r.Ok? ==> control.taskPages == old(control.taskPages) + [Page(after, r.value)]
    ensures r.Ok? ==> Linked(control.taskPages)
                      && Listings(control.taskPages)
                         == Listings(old(control.taskPages)) + if after.None? then 1 else 0
  {
    handled := earlier;
    var page := control.ReadyTasks(after);
    if page.Err? {
      return Err(page.error), handled;
    }
    PageAppends(old(control.taskPages), Page(after, page.value.1));
    var done;
    done, handled := RunPage(control, scope, maxActions, report, page.value.0, runs0, seen0, earlier);
    r := if done.Err? then Err(done.error) else Ok(page.value.1);
  }

  /** One page; Ok(true) says that the action budget is used up. */
  method RunPage(control: Control, scope: Scope, maxActions: nat, report: CycleReport, items: seq<Task>,
                 ghost runs0: seq<Run>, ghost seen0: seq<Task>, ghost earlier: seq<Task>)
    returns (r: Result<bool>, ghost handled: seq<Task>)
    requires Progress(control, report, scope, runs0, seen0, earlier) && report.executed < maxActions
    requires control.seen[|seen0|..] == earlier + items && Smooth(control)
    modifies control`answers, control`runs, report`executed, report`failed, report`retry
    ensures Progress(control, report, scope, runs0, seen0, handled) && |control.answers| <= |old(control.answers)|
    ensures old(report.executed) <= report.executed <= maxActions
    ensures if r.Ok? then Smooth(control) else Trouble(control, scope)
    ensures r.Ok? ==> (r.value <==> report.executed == maxActions) && (!r.value ==> handled == control.seen[|seen0|..])
  {
    handled := earlier;
    var i := 0;
    while i < |items|
      invariant i <= |items| && handled == earlier + items[..i]
      invariant Progress(control, report, scope, runs0, seen0, handled) && Smooth(control)
      invariant old(report.executed) <= report.executed < maxActions && |control.answers| <= |old(control.answers)|
    {
      var t := items[i];
      ChecksGrant(t, scope);
      if !InLane(t, scope) {
        assert t in control.seen[|seen0|..];
        return Err(Integrity), handled;
      }
      SelectedAppends(handled, t, scope);
      handled := handled + [t];
      assert handled == earlier + items[..i + 1] && handled <= earlier + items;
      i := i + 1;
      if !Belongs(t, scope) || !Eligible(t, scope) {
        continue;
      }
      var ran := RunTask(control, scope, report, t, runs0);
      if ran.Err? {
        return Err(ran.error), handled;
      }
      if report.executed >= maxActions {
        return Ok(true), handled;
      }
    }
    r := Ok(false);
  }

  /** Runs one task and counts it, unless it was busy or already taken. */
  method RunTask(control: Control, scope: Scope, report: CycleReport, t: Task, ghost runs0: seq<Run>)
      returns (r: Result<()>)
    requires Counted(report, control.runs) && AllGranted(control.runs, |runs0|, scope) && runs0 <= control.runs
             && Granted(t, scope) && Smooth(control)
    modifies control`answers, control`runs, report`executed, report`failed, report`retry
    ensures Counted(report, control.runs) && AllGranted(control.runs, |runs0|, scope) && runs0 <= control.runs
    ensures TasksOf(control.runs[|runs0|..]) == TasksOf(old(control.runs)[|runs0|..]) + [t]
    ensures if r.Ok? then Smooth(control) else Trouble(control, scope)
    ensures |control.answers| <= |old(control.answers)|
    ensures old(report.executed) <= report.executed <= old(report.executed) + 1
  {
    var result := control.RunIntent(t);
    assert Run(t, result) in control.runs;
    RunAppends(runs0, old(control.runs), Run(t, result));
    if result.Err? {
      return if result.error == Busy || result.error == Conflict then Ok(()) else Err(result.error);
    }
    report.failed := report.failed + if result.value.IntentFailed? then 1 else 0;
    report.retry := report.retry + if result.value.IntentReady? then 1 else 0;
    report.executed := report.executed + 1;
    r := Ok(());
  }

  /** One more run extends the log of a pass and its counts by exactly that run. */
  lemma RunAppends(runs0: seq<Run>, runs: seq<Run>, run: Run)
    requires runs0 <= runs
    ensures TasksOf((runs + [run])[|runs0|..]) == TasksOf(runs[|runs0|..]) + [run.task]
    ensures Count(runs + [run], Succeeded) == Count(runs, Succeeded) + if Succeeded(run) then 1 else 0
    ensures Count(runs + [run], Failed) == Count(runs, Failed) + if Failed(run) then 1 else 0
    ensures Count(runs + [run], Retried) == Count(runs, Retried) + if Retried(run) then 1 else 0
  {
    CountAppends(runs, run, Succeeded);
    CountAppends(runs, run, Failed);
    CountAppends(runs, run, Retried);
  }

  /** What a pass keeps while it works: everything handled so far that is runnable has been run. */
  ghost predicate Progress(control: Control, report: CycleReport, scope: Scope, runs0: seq<Run>, seen0: seq<Task>,
                           handled: seq<Task>)
    reads control, report
  {
    && Counted(report, control.runs)
    && runs0 <= control.runs && seen0 <= control.seen
    && AllGranted(control.runs, |runs0|, scope)
    && handled <= control.seen[|seen0|..]
    && TasksOf(control.runs[|runs0|..]) == Selected(handled, scope)
    && AllInLane(handled, scope)
  }

  // ---------- the cycle ----------

  /** What scans of one policy have examined. */
  function Spent(scans: seq<Scan>, policy: string): nat {
    if scans == [] then 0
    else
      var last := scans[|scans| - 1];
      Spent(scans[..|scans| - 1], policy) + if last.policy == policy then last.examined else 0
  }

  /** What all scans have admitted, and what they have found to seal. */
  function Admitted(scans: seq<Scan>): nat {
    if scans == [] then 0 else Admitted(scans[..|scans| - 1]) + scans[|scans| - 1].admitted
  }

  function ToSeal(scans: seq<Scan>): seq<DataKey> {
    if scans == [] then [] else ToSeal(scans[..|scans| - 1]) + scans[|scans| - 1].toSeal
  }

  function Min(a: nat, b: nat): nat {
    if a < b then a else b
  }

  /** The k-th scan asked for what its policy's budget had left, at most 256; the subtraction in
      the code cannot underflow. */
  predicate InBudget(scans: seq<Scan>, k: nat, definitions: map<string, Policy>) {
    k < |scans| &&
    var p := scans[k].policy;
    && p in definitions && definitions[p].enabled
    && Spent(scans[..k], p) <= definitions[p].scanBudget
    && scans[k].limit == Min(256, definitions[p].scanBudget - Spent(scans[..k], p))
  }

  predicate OwnPolicy(definitions: map<string, Policy>, backend: string, policy: string) {
    policy in definitions && definitions[policy].enabled && definitions[policy].backend == backend
  }

  ghost predicate Budgeted(scans: seq<Scan>, definitions: map<string, Policy>) {
    forall k: nat | k < |scans| :: InBudget(scans, k, definitions)
  }

  /** The k-th scan is the policy's last one: the storage had no more, or the budget is spent. */
  predicate LastScan(scans: seq<Scan>, k: nat, policy: string, budget: nat) {
    && k < |scans| && scans[k].policy == policy && (!scans[k].more || budget <= Spent(scans, policy))
    && forall j | k < j < |scans| :: scans[j].policy != policy
  }

  ghost predicate ScannedOut(scans: seq<Scan>, definitions: map<string, Policy>, policy: string) {
    policy in definitions && exists k: nat :: LastScan(scans, k, policy, definitions[policy].scanBudget)
  }

  lemma {:induction false} OthersSpendNothing(scans: seq<Scan>, more: seq<Scan>, policy: string)
    requires forall k | 0 <= k < |more| :: more[k].policy != policy
    ensures Spent(scans + more, policy) == Spent(scans, policy)
  {
    if more == [] {
      assert scans + more == scans;
    } else {
      var front := more[..|more| - 1];
      OthersSpendNothing(scans, front, policy);
      assert (scans + more)[..|scans + more| - 1] == scans + front;
    }
  }

  /** Scans of other policies leave a scanned-out policy scanned out. */
  lemma StaysScannedOut(scans: seq<Scan>, more: seq<Scan>, definitions: map<string, Policy>, policy: string)
    requires ScannedOut(scans, definitions, policy) && forall k | 0 <= k < |more| :: more[k].policy != policy
    ensures ScannedOut(scans + more, definitions, policy)
  {
    var k: nat :| LastScan(scans, k, policy, definitions[policy].scanBudget);
    OthersSpendNothing(scans, more, policy);
    assert LastScan(scans + more, k, policy, definitions[policy].scanBudget);
  }

  /** If no scan examines more than it was allowed, no policy exceeds its budget. */
  lemma {:induction false} BudgetHolds(scans: seq<Scan>, definitions: map<string, Policy>, policy: string)
    requires Budgeted(scans, definitions) && policy in definitions
    requires forall k | 0 <= k < |scans| :: scans[k].examined <= scans[k].limit
    ensures Spent(scans, policy) <= definitions[policy].scanBudget
  {
    if scans != [] {
      var k := |scans| - 1;
      var front := scans[..k];
      forall j: nat | j < |front| ensures InBudget(front, j, definitions) {
        assert InBudget(scans, j, definitions) && front[..j] == scans[..j];
      }
      BudgetHolds(front, definitions, policy);
      assert InBudget(scans, k, definitions);
    }
  }

  lemma {:induction false} SpentNothing(scans: seq<Scan>, policy: string)
    requires forall k | 0 <= k < |scans| :: scans[k].policy != policy
    ensures Spent(scans, policy) == 0
  {
    if scans != [] { SpentNothing(scans[..|scans| - 1], policy); }
  }

  lemma ScanAppends(scans: seq<Scan>, scan: Scan, definitions: map<string, Policy>)
    requires Budgeted(scans, definitions) && scan.policy in definitions && definitions[scan.policy].enabled
    requires Spent(scans, scan.policy) <= definitions[scan.policy].scanBudget
    requires scan.limit == Min(256, definitions[scan.policy].scanBudget - Spent(scans, scan.policy))
    ensures Budgeted(scans + [scan], definitions)
    ensures Spent(scans + [scan], scan.policy) == Spent(scans, scan.policy) + scan.examined
    ensures Admitted(scans + [scan]) == Admitted(scans) + scan.admitted
    ensures ToSeal(scans + [scan]) == ToSeal(scans) + scan.toSeal
  {
    var longer := scans + [scan];
    assert longer[..|scans|] == scans;
    forall k: nat | k < |longer| ensures InBudget(longer, k, definitions) {
      if k < |scans| { assert InBudget(scans, k, definitions) && longer[..k] == scans[..k]; }
    }
  }

  /** The policies by ID; of two with one ID the later one counts. */
  function ById(policies: seq<Policy>): map<string, Policy> {
    if policies == [] then map[]
    else
      var last := policies[|policies| - 1];
      ById(policies[..|policies| - 1])[last.id := last]
  }

  lemma {:induction false} ByIdIsByItsId(policies: seq<Policy>)
    ensures forall id | id in ById(policies) :: ById(policies)[id].id == id
  {
    if policies != [] { ByIdIsByItsId(policies[..|policies| - 1]); }
  }

  /** One page of policies more. */
  method Indexed(definitions: map<string, Policy>, ghost listed: seq<Policy>, policies: seq<Policy>)
    returns (result: map<string, Policy>)
    requires definitions == ById(listed)
    ensures result == ById(listed + policies)
  {
    result := definitions;
    assert listed + policies[..0] == listed;
    for i := 0 to |policies|
      invariant result == ById(listed + policies[..i])
    {
      assert (listed + policies[..i + 1])[..|listed| + i] == listed + policies[..i];
      result := result[policies[i].id := policies[i]];
    }
    assert policies[..|policies|] == policies;
  }

  /** Every policy of every page, by ID. */
  method Definitions(control: Control) returns (r: Result<map<string, Policy>>)
    requires control.listed == [] && control.policyPages == []
    modifies control`answers, control`listed, control`policyPages, control`failed
    ensures |control.answers| <= |old(control.answers)| && control.failed == (old(control.failed) || r.Err?)
    ensures r.Ok? ==> r.value == ById(control.listed) && AtEnd(control.policyPages)
                      && Listings(control.policyPages) == 1
  {
    var result: map<string, Policy> := map[];
    var after: Option<string> := None;
    var more := true;
    while more
      invariant |control.answers| <= |old(control.answers)| && result == ById(control.listed)
      invariant control.failed == old(control.failed)
      invariant Linked(control.policyPages) && (more <==> after.Some? || control.policyPages == [])
      invariant after == Begin(control.policyPages)
      invariant Listings(control.policyPages) == if control.policyPages == [] then 0 else 1
      decreases |control.answers|, more
    {
      ghost var listed, pages := control.listed, control.policyPages;
      var page := control.PolicyPage(after);
      if page.Err? {
        return Err(page.error);
      }
      PageAppends(pages, Page(after, page.value.1));
      result := Indexed(result, listed, page.value.0);
      after := page.value.1;
      more := after.Some?;
    }
    r := Ok(result);
  }

  method SealAll(control: Control, data: seq<DataKey>) returns (r: Result<()>)
    modifies control`answers, control`sealed, control`failed
    ensures |control.answers| <= |old(control.answers)| && (r.Ok? ==> control.sealed == old(control.sealed) + data)
    ensures control.failed == (old(control.failed) || r.Err?)
  {
    for i := 0 to |data|
      invariant |control.answers| <= |old(control.answers)| && control.sealed == old(control.sealed) + data[..i]
      invariant control.failed == old(control.failed)
    {
      var sealed := control.Seal(data[i]);
      if sealed.Err? {
        return sealed;
      }
    }
    r := Ok(());
  }

  /** One bounded scan of a policy; what it finds unsealed is sealed. */
  method ScanBatch(control: Control, definitions: map<string, Policy>, policy: Policy, report: CycleReport,
                   examined: nat) returns (r: Result<Scan>)
    requires policy.id in definitions && definitions[policy.id] == policy && policy.enabled
    requires Budgeted(control.scans, definitions) && examined == Spent(control.scans, policy.id) <= policy.scanBudget
    requires report.admitted == Admitted(control.scans) && control.sealed == control.pending + ToSeal(control.scans)
    modifies control`answers, control`scans, control`sealed, control`failed, report`admitted
    ensures control.failed == (old(control.failed) || r.Err?)
    ensures Budgeted(control.scans, definitions) && report.admitted == Admitted(control.scans)
    ensures control.scans == old(control.scans)
            || exists scan: Scan :: scan.policy == policy.id && control.scans == old(control.scans) + [scan]
    ensures r.Ok? ==> r.value.policy == policy.id && control.scans == old(control.scans) + [r.value]
    ensures r.Ok? ==> Spent(control.scans, policy.id) == examined + r.value.examined
    ensures r.Ok? ==> control.sealed == control.pending + ToSeal(control.scans)
    ensures r.Ok? ==> |control.answers| < |old(control.answers)|
  {
    ghost var scans := control.scans;
    r := control.ScanScheduled(policy.id, Min(256, policy.scanBudget - examined));
    if r.Err? {
      return;
    }
    ScanAppends(scans, r.value, definitions);
    report.admitted := report.admitted + r.value.admitted;
    var sealed := SealAll(control, r.value.toSeal);
    if sealed.Err? {
      r := Err(sealed.error);
    }
  }

  /** Scans one policy until the storage has no more or the budget is spent. */
  method ScanPolicy(control: Control, definitions: map<string, Policy>, policy: Policy, report: CycleReport)
      returns (r: Result<()>)
    requires policy.id in definitions && definitions[policy.id] == policy && policy.enabled
    requires Budgeted(control.scans, definitions) && Spent(control.scans, policy.id) == 0
    requires report.admitted == Admitted(control.scans) && control.sealed == control.pending + ToSeal(control.scans)
    modifies control`answers, control`scans, control`sealed, control`failed, report`admitted
    ensures control.failed == (old(control.failed) || r.Err?)
    ensures Budgeted(control.scans, definitions) && old(control.scans) <= control.scans
    ensures forall k | |old(control.scans)| <= k < |control.scans| :: control.scans[k].policy == policy.id
    ensures report.admitted == Admitted(control.scans)
    ensures r.Ok? ==> ScannedOut(control.scans, definitions, policy.id)
                      && control.sealed == control.pending + ToSeal(control.scans)
  {
    var examined := 0;
    var more := true;
    while more
      invariant Budgeted(control.scans, definitions) && old(control.scans) <= control.scans
      invariant control.failed == old(control.failed)
      invariant forall k | |old(control.scans)| <= k < |control.scans| :: control.scans[k].policy == policy.id
      invariant examined == Spent(control.scans, policy.id)
      invariant report.admitted == Admitted(control.scans)
      invariant control.sealed == control.pending + ToSeal(control.scans)
      invariant if more then examined <= policy.scanBudget else ScannedOut(control.scans, definitions, policy.id)
      decreases |control.answers|, more
    {
      ghost var scans := control.scans;
      var batch := ScanBatch(control, definitions, policy, report, examined);
      if batch.Err? {
        return Err(batch.error);
      }
      examined := examined + batch.value.examined;
      more := batch.value.more && examined < policy.scanBudget;
      assert !more ==> LastScan(control.scans, |scans|, policy.id, policy.scanBudget);
    }
    r := Ok(());
  }

  /** The enabled policies of this backend, each once and each to its end. */
  method ScanAll(control: Control, definitions: map<string, Policy>, backend: string, report: CycleReport)
      returns (r: Result<()>)
    requires control.scans == [] && forall id | id in definitions :: definitions[id].id == id
    requires report.admitted == 0 && control.sealed == control.pending
    modifies control`answers, control`scans, control`sealed, control`failed, report`admitted
    ensures control.failed == (old(control.failed) || r.Err?)
    ensures OwnScans(control, report, definitions, backend)
    ensures r.Ok? ==> control.sealed == control.pending + ToSeal(control.scans)
                      && forall id | OwnPolicy(definitions, backend, id) :: ScannedOut(control.scans, definitions, id)
  {
    var rest := definitions.Keys;
    while rest != {}
      invariant rest <= definitions.Keys && Budgeted(control.scans, definitions)
      invariant control.failed == old(control.failed)
      invariant report.admitted == Admitted(control.scans) && control.sealed == control.pending + ToSeal(control.scans)
      invariant forall k | 0 <= k < |control.scans| ::
                  control.scans[k].policy in definitions && control.scans[k].policy !in rest
      invariant forall k | 0 <= k < |control.scans| :: OwnPolicy(definitions, backend, control.scans[k].policy)
      invariant forall id | OwnPolicy(definitions, backend, id) && id !in rest ::
                  ScannedOut(control.scans, definitions, id)
    {
      var id :| id in rest;
      rest := rest - {id};
      if definitions[id].enabled && definitions[id].backend == backend {
        SpentNothing(control.scans, id);
        ghost var scans := control.scans;
        var scanned := ScanPolicy(control, definitions, definitions[id], report);
        if scanned.Err? {
          return scanned;
        }
        OthersStay(scans, control.scans, definitions, id);
      }
    }
    r := Ok(());
  }

  lemma OthersStay(scans: seq<Scan>, longer: seq<Scan>, definitions: map<string, Policy>, id: string)
    requires scans <= longer && forall k | |scans| <= k < |longer| :: longer[k].policy == id
    ensures forall other | other != id && ScannedOut(scans, definitions, other) ::
              ScannedOut(longer, definitions, other)
  {
    forall other | other != id && ScannedOut(scans, definitions, other) ensures ScannedOut(longer, definitions, other) {
      assert scans + longer[|scans|..] == longer;
      StaysScannedOut(scans, longer[|scans|..], definitions, other);
    }
  }

  /** One worker cycle. However the storage answers, at most maxActions tasks are executed, each one
      granted; failures and retries are among them; `admitted` is what the scans have admitted, and
      they keep to their policies' budgets. A cycle that succeeds has read all policies, sealed all
      data pending and found, scanned every enabled policy of its backend to its end or its budget;
      and unless the action budget ran out, it has listed the ready tasks before the first seal, after
      each pending one and after the scans, and has run everything granted. */
  method Cycle(control: Control, backend: string, epoch: nat, maxActions: nat, lane: Option<WorkClass>)
    returns (r: Result<()>, report: CycleReport, definitions: map<string, Policy>)
    requires control.runs == [] && control.scans == [] && control.seen == [] && control.taskPages == []
    requires control.listed == [] && control.policyPages == [] && control.pending == [] && control.sealed == []
    requires !control.failed
    modifies control
    ensures report.executed <= maxActions && report.failed + report.retry <= report.executed
    ensures Counted(report, control.runs) && AllGranted(control.runs, 0, Scope(definitions, backend, epoch, lane))
    ensures OwnScans(control, report, definitions, backend)
    ensures r.Ok? ==> definitions == ById(control.listed) && AtEnd(control.policyPages)
                      && Listings(control.policyPages) == 1
                      && control.sealed == control.pending + ToSeal(control.scans)
    ensures r.Ok? ==> forall id | OwnPolicy(definitions, backend, id) :: ScannedOut(control.scans, definitions, id)
    ensures if r.Ok? then Smooth(control) else Trouble(control, Scope(definitions, backend, epoch, lane))
    ensures r.Ok? && report.executed < maxActions ==>
              && AtEnd(control.taskPages) && Listings(control.taskPages) == |control.pending| + 2
              && AllInLane(control.seen, Scope(definitions, backend, epoch, lane))
              && TasksOf(control.runs) == Selected(control.seen, Scope(definitions, backend, epoch, lane))
  {
    report := new CycleReport();
    definitions := map[];
    var defined := Definitions(control);
    if defined.Err? {
      return Err(defined.error), report, definitions;
    }
    definitions := defined.value;
    ByIdIsByItsId(control.listed);
    r := Work(control, Scope(definitions, backend, epoch, lane), maxActions, report);
    CountsNest(control.runs);
  }

  /** The scans ask for what the budgets have left, of this backend's enabled policies, and the report
      counts what they admit. */
  ghost predicate OwnScans(control: Control, report: CycleReport, definitions: map<string, Policy>, backend: string)
    reads control`scans, report`admitted
  {
    && Budgeted(control.scans, definitions) && report.admitted == Admitted(control.scans)
    && forall k | 0 <= k < |control.scans| :: OwnPolicy(definitions, backend, control.scans[k].policy)
  }

  /** The cycle once the policies are known. */
  method Work(control: Control, scope: Scope, maxActions: nat, report: CycleReport) returns (r: Result<()>)
    requires control.runs == [] && control.scans == [] && control.seen == [] && control.taskPages == []
    requires control.pending == [] && control.sealed == [] && Smooth(control)
    requires Counted(report, control.runs) && report.executed == 0 && report.admitted == 0
    requires forall id | id in scope.definitions :: scope.definitions[id].id == id
    modifies control`answers, control`seen, control`taskPages, control`runs, control`scans
    modifies control`pending, control`sealed, control`failed, report
    ensures Counted(report, control.runs) && report.executed <= maxActions && AllGranted(control.runs, 0, scope)
    ensures OwnScans(control, report, scope.definitions, scope.backend)
    ensures r.Err? ==> Trouble(control, scope)
    ensures r.Ok? ==> Passed(control, report, scope, maxActions, |control.pending| + 2) && Smooth(control)
                      && control.sealed == control.pending + ToSeal(control.scans)
    ensures r.Ok? ==> forall id | OwnPolicy(scope.definitions, scope.backend, id) ::
                        ScannedOut(control.scans, scope.definitions, id)
  {
    r := Passes(control, scope, maxActions, report);
    if r.Ok? {
      r := ScanAll(control, scope.definitions, scope.backend, report);
    }
    if r.Ok? {
      r := OneMorePass(control, scope, maxActions, report, |control.pending| + 1);
    }
  }

  /** What the passes so far have come to. */
  ghost predicate Passed(control: Control, report: CycleReport, scope: Scope, maxActions: nat, listings: nat)
    reads control`runs, control`seen, control`taskPages, report
  {
    && Counted(report, control.runs) && report.executed <= maxActions && AllGranted(control.runs, 0, scope)
    && Between(control, report.executed, maxActions)
    && (report.executed < maxActions ==>
          && Listings(control.taskPages) == listings && AllInLane(control.seen, scope)
          && TasksOf(control.runs) == Selected(control.seen, scope))
  }

  method OneMorePass(control: Control, scope: Scope, maxActions: nat, report: CycleReport, ghost listings: nat)
      returns (r: Result<()>)
    requires Passed(control, report, scope, maxActions, listings) && Smooth(control)
    modifies control`answers, control`seen, control`taskPages, control`runs, control`failed
    modifies report`executed, report`failed, report`retry
    ensures r.Ok? ==> Passed(control, report, scope, maxActions, listings + 1) && Smooth(control)
    ensures Counted(report, control.runs) && report.executed <= maxActions && AllGranted(control.runs, 0, scope)
    ensures r.Err? ==> Trouble(control, scope)
  {
    ghost var runs, seen := control.runs, control.seen;
    r := ExecuteReady(control, scope, maxActions, report);
    assert forall i | 0 <= i < |runs| :: control.runs[i] == runs[i];
    PassesJoin(runs, control.runs, seen, control.seen, scope);
  }

  method SealAndPass(control: Control, scope: Scope, maxActions: nat, report: CycleReport, data: DataKey,
                     ghost listings: nat) returns (r: Result<()>)
    requires Passed(control, report, scope, maxActions, listings) && Smooth(control)
    modifies control`answers, control`seen, control`taskPages, control`runs, control`sealed, control`failed
    modifies report`executed, report`failed, report`retry
    ensures r.Ok? ==> Passed(control, report, scope, maxActions, listings + 1) && Smooth(control)
                      && control.sealed == old(control.sealed) + [data]
    ensures Counted(report, control.runs) && report.executed <= maxActions && AllGranted(control.runs, 0, scope)
    ensures r.Err? ==> Trouble(control, scope)
  {
    r := control.Seal(data);
    if r.Ok? {
      r := OneMorePass(control, scope, maxActions, report, listings);
    }
  }

  /** Two passes have run what is granted of all they have seen. */
  lemma PassesJoin(runs: seq<Run>, longer: seq<Run>, seen: seq<Task>, more: seq<Task>, scope: Scope)
    requires runs <= longer && seen <= more
    ensures TasksOf(longer) == TasksOf(runs) + TasksOf(longer[|runs|..])
    ensures Selected(more, scope) == Selected(seen, scope) + Selected(more[|seen|..], scope)
  {
    SelectedJoins(seen, more[|seen|..], scope);
    assert seen + more[|seen|..] == more;
  }

  lemma {:induction false} SelectedJoins(a: seq<Task>, b: seq<Task>, scope: Scope)
    ensures Selected(a + b, scope) == Selected(a, scope) + Selected(b, scope)
  {
    if b == [] {
      assert a + b == a;
    } else {
      SelectedJoins(a, b[..|b| - 1], scope);
      assert (a + b)[..|a + b| - 1] == a + b[..|b| - 1];
    }
  }

  /** A pass, then one more after every pending seal. */
  method Passes(control: Control, scope: Scope, maxActions: nat, report: CycleReport) returns (r: Result<()>)
    requires control.runs == [] && control.seen == [] && control.taskPages == []
    requires control.pending == [] && control.sealed == [] && Counted(report, control.runs) && report.executed == 0
    requires Smooth(control)
    modifies control`answers, control`seen, control`taskPages, control`runs
    modifies control`pending, control`sealed, control`failed
    modifies report`executed, report`failed, report`retry
    ensures Counted(report, control.runs) && report.executed <= maxActions && AllGranted(control.runs, 0, scope)
    ensures r.Err? ==> Trouble(control, scope)
    ensures r.Ok? ==> Passed(control, report, scope, maxActions, |control.pending| + 1) && Smooth(control)
                      && control.sealed == control.pending
  {
    r := OneMorePass(control, scope, maxActions, report, 0);
    if r.Ok? {
      var pending := control.PendingSeals();
      if pending.Err? {
        return Err(pending.error);
      }
      r := SealEach(control, scope, maxActions, report, pending.value);
    }
  }

  /** Seals the data in order, each followed by a pass. */
  method SealEach(control: Control, scope: Scope, maxActions: nat, report: CycleReport, data: seq<DataKey>)
      returns (r: Result<()>)
    requires Passed(control, report, scope, maxActions, 1) && Smooth(control) && control.sealed == []
    modifies control`answers, control`seen, control`taskPages, control`runs, control`sealed, control`failed
    modifies report`executed, report`failed, report`retry
    ensures Counted(report, control.runs) && report.executed <= maxActions && AllGranted(control.runs, 0, scope)
    ensures r.Err? ==> Trouble(control, scope)
    ensures r.Ok? ==> Passed(control, report, scope, maxActions, |data| + 1) && Smooth(control)
                      && control.sealed == data
  {
    for i := 0 to |data|
      invariant Passed(control, report, scope, maxActions, i + 1) && Smooth(control)
      invariant control.sealed == data[..i]
    {
      r := SealAndPass(control, scope, maxActions, report, data[i], i + 1);
      if r.Err? {
        return;
      }
    }
    r := Ok(());
  }
}
