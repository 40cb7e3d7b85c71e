/**
 Busy, and what it costs. Each recorded step can meet contention: a pin of its data, or a copy that
 holds its layout's lock. Exactly then it is refused as Busy, and since Busy is a definite failure,
 for good. A view, or a recall, is open exactly from its prepare step until its own operation's
 commit succeeds; so a commit that is refused for good pins for good, and nothing else does.
 */
module Pinning {
  import opened Managed
  import opened Files
  import opened SourceState
  import opened SourceInvariants
  import opened SourceSteps
  import opened System
  import opened SystemSafety
  import opened SystemTheorems
  import opened SourceTheorems
  import Cat = Catalog

  predicate LockHeld(d: Disk, p: Path) {
    p in d.dirs && d.dirs[p].holder.Some?
  }

  /** What a caller could see before the call: the data is pinned, or the layout the step works on
      is in a copy. */
  predicate Contended(s: State, d: Disk, req: Request) {
    match req
    case PrepareArchive(data) => Viewed(s, data)
    case CommitArchive(view, _) => DecodeEndpoint(view.source).Ok? && LockHeld(d, DecodeEndpoint(view.source).value)
    case ReleaseData(expected) => Viewed(s, expected.data) || Recalling(s, expected.data)
        || PublishedLocked(s, d, expected.data)
    case PrepareRecall(expected, _) => Recalling(s, expected.data)
    case CommitRecall(target, _) => LockHeld(d, SourceLayout(target.layoutId))
  }

  predicate PublishedLocked(s: State, d: Disk, data: DataKey) {
    EntityOf(s, data).Ok? && EntityOf(s, data).value.published.Some?
    && LockHeld(d, SourceLayout(EntityOf(s, data).value.published.value))
  }

  /** The operation ID is unused, or used by exactly this. */
  predicate Completable(s: State, ctx: OperationContext, data: DataKey, action: ManagedAction) {
    var op := ctx.operationId;
    op in s.completed ==>
          s.completed[op].context == ctx && s.completed[op].data == data && s.completed[op].action == action
  }

  /** Nothing but contention stands against the call. */
  predicate Admitted(s: State, d: Disk, ctx: OperationContext, req: Request, uuid: string) {
    match req
    case PrepareArchive(data) => EntityOf(s, data).Ok? && EntityOf(s, data).value.published.Some?
    case CommitArchive(view, receipt) =>
      && view.viewId in s.views && s.views[view.viewId] == ViewOwner(ctx, view)
      && DecodeEndpoint(view.source).Ok? && DecodeEndpoint(view.source).value in d.dirs
      && EntityOf(s, view.data).Ok? && AcceptableReceipt(view, receipt)
      && (forall a | a in EntityOf(s, view.data).value.public.anchors && a.key == receipt.key :: a == receipt)
      && Completable(s, ctx, view.data, Archive(receipt.key))
    case ReleaseData(expected) =>
      && EntityOf(s, expected.data).Ok? && EntityOf(s, expected.data).value.public == expected && expected.anchors != []
      && EntityOf(s, expected.data).value.published.Some?
      && SourceLayout(EntityOf(s, expected.data).value.published.value) in d.dirs
      && Completable(s, ctx, expected.data, ManagedAction.Release)
    case PrepareRecall(expected, anchor) =>
      && EntityOf(s, expected.data).Ok? && EntityOf(s, expected.data).value.public == expected
      && EntityOf(s, expected.data).value.published.None? && anchor in expected.anchors
      && SourceLayout(uuid) !in d.dirs
    case CommitRecall(target, evidence) =>
      var layout := SourceLayout(target.layoutId);
      && target.layoutId in s.recalls
      && s.recalls[target.layoutId].context == ctx && s.recalls[target.layoutId].target == target
      && DecodeEndpoint(target.destination) == Ok(layout)
      && layout in d.dirs && d.dirs[layout].data.Some? && Measure(d.dirs[layout].data.value) == evidence
      && EntityOf(s, target.data).Ok? && Content(EntityOf(s, target.data).value.public) == evidence
      && EntityOf(s, target.data).value.published.None?
      && s.recalls[target.layoutId].anchor in EntityOf(s, target.data).value.public.anchors
      && Completable(s, ctx, target.data, Recall(target.archive))
  }

  /** Whatever else is wrong and whatever fault it meets, Busy means contention. */
  lemma BusyMeansContended(s: State, d: Disk, ctx: OperationContext, req: Request, env: Env)
    requires Effect(s, d, ctx, req, env).result == Err(Busy)
    ensures Contended(s, d, req)
  {
    match req
    case PrepareArchive(_) =>
    case CommitArchive(_, _) =>
    case ReleaseData(_) =>
    case PrepareRecall(_, _) =>
    case CommitRecall(_, _) =>
  }

  /** And if nothing else is wrong, contention decides: Busy with it, success without. */
  lemma ContentionDecides(s: State, d: Disk, ctx: OperationContext, req: Request, env: Env)
    requires Admitted(s, d, ctx, req, env.uuid) && env.fault.Clean?
    ensures var r := Effect(s, d, ctx, req, env).result; if Contended(s, d, req) then r == Err(Busy) else r.Ok?
  {
    match req
    case PrepareArchive(_) =>
    case CommitArchive(_, _) =>
    case ReleaseData(_) =>
    case PrepareRecall(_, _) =>
    case CommitRecall(_, _) =>
  }

  /** The first call of a step that nothing else stands against is refused as Busy if and only if it
      meets contention; otherwise it succeeds. Either answer is saved. */
  lemma FirstCallIsBusyIffContended(st: Store, d: Disk, ctx: OperationContext, req: Request, env: Env)
    requires Qualify(ctx).Ok? && !st.poisoned && KeyOf(ctx, req) !in st.state.steps
    requires Admitted(st.state, d, ctx, req, env.uuid) && env.fault.Clean?
    ensures var r := Call(st, d, ctx, req, env);
            && (r.result == Err(Busy) <==> Contended(st.state, d, req))
            && (r.result.Ok? <==> !Contended(st.state, d, req))
            && KeyOf(ctx, req) in r.store.state.steps
               && r.store.state.steps[KeyOf(ctx, req)] == SavedStep(req, r.result)
  {
    ContentionDecides(st.state, d, ctx, req, env);
    AnswerIsRecorded(st, d, Invocation(ctx, req, env));
  }

  /** And it decides for good: at every later healthy moment of any run, whoever has pinned the data
      or holds the lock by then, the same call is answered alike. */
  lemma FirstCallDecidesForGood(ws: seq<World>, acts: seq<Action>, i: nat, j: nat, ctx: OperationContext, req: Request,
                                env: Env, later: Env)
    requires Run(ws, acts) && i < j < |ws| && acts[i] == DoCall(ctx, req, env) && Healthy(ws[i]) && Healthy(ws[j])
    requires Qualify(ctx).Ok? && KeyOf(ctx, req) !in Memory(ws[i]).steps
    requires Admitted(Memory(ws[i]), ws[i].disk, ctx, req, env.uuid) && env.fault.Clean?
    ensures var again := Call(Handle(ws[j]), ws[j].disk, ctx, req, later);
            && (again.result == Err(Busy) <==> Contended(Memory(ws[i]), ws[i].disk, req))
            && (again.result.Ok? <==> !Contended(Memory(ws[i]), ws[i].disk, req))
            && again.store == Handle(ws[j])
  {
    FirstCallIsBusyIffContended(Handle(ws[i]), ws[i].disk, ctx, req, env);
    CleanCallIsHealthy(Handle(ws[i]), ws[i].disk, ctx, req, env);
    assert ws[i + 1] == Apply(ws[i], acts[i]);
    AnswersAreForever(ws, acts, i + 1, j, ctx, req, later);
  }

  lemma CleanCallIsHealthy(st: Store, d: Disk, ctx: OperationContext, req: Request, env: Env)
    requires !st.poisoned && env.fault.Clean?
    ensures !Call(st, d, ctx, req, env).store.poisoned
  {
  }

  // ---------- pins ----------

  /** The view a saved prepare_archive has answered with. */
  predicate HasView(s: State, ctx: OperationContext, view: DataView) {
    var p := StepKey(ctx, PrepareArchiveStep);
    p in s.steps && s.steps[p].result == Ok(ViewReply(view))
  }

  predicate HasTarget(s: State, ctx: OperationContext, target: RecallTarget) {
    var p := StepKey(ctx, PrepareRecallStep);
    p in s.steps && s.steps[p].result == Ok(TargetReply(target))
  }

  predicate ViewOpen(s: State, ctx: OperationContext, view: DataView) {
    view.viewId in s.views && s.views[view.viewId] == ViewOwner(ctx, view)
  }

  predicate RecallOpen(s: State, ctx: OperationContext, target: RecallTarget) {
    target.layoutId in s.recalls && s.recalls[target.layoutId].context == ctx
        && s.recalls[target.layoutId].target == target
  }

  /** A successful commit_archive had a view, and has closed it. */
  ghost predicate ViewClosed(s: State, k: StepKey) {
    Succeeded(s, k) && k.name.CommitArchiveStep? ==>
      exists view :: HasView(s, k.context, view) && view.viewId !in s.views
  }

  ghost predicate RecallClosed(s: State, k: StepKey) {
    Succeeded(s, k) && k.name.CommitRecallStep? ==>
      exists target :: HasTarget(s, k.context, target) && target.layoutId !in s.recalls
  }

  /** A saved view or target is about what was asked for, under a name that was drawn. */
  predicate ReplyIssued(saved: SavedStep, issued: set<string>) {
    match saved.result
    case Ok(ViewReply(view)) => view.viewId in issued && saved.request == PrepareArchive(view.data)
    case Ok(TargetReply(target)) => target.layoutId in issued
    case _ => true
  }

  ghost predicate Settled(s: State, issued: set<string>) {
    forall k | k in s.steps :: ViewClosed(s, k) && RecallClosed(s, k) && ReplyIssued(s.steps[k], issued)
  }

  ghost predicate SystemSettled(w: World) {
    Settled(FileOf(w.source).durable, w.issued) && Settled(FileOf(w.source).visible, w.issued)
  }

  // ---------- every step keeps it ----------

  lemma MoreIssued(s: State, issued: set<string>, more: set<string>)
    requires Settled(s, issued) && issued <= more
    ensures Settled(s, more)
  {
    forall k | k in s.steps ensures ViewClosed(s, k) && RecallClosed(s, k) && ReplyIssued(s.steps[k], more) {
      assert ViewClosed(s, k) && RecallClosed(s, k) && ReplyIssued(s.steps[k], issued);
    }
  }

  /** Pins may only close, or open under a new name. */
  predicate PinsMove(s: State, t: State, issued: set<string>) {
    && (forall v | v in t.views :: v in s.views || v !in issued)
    && (forall l | l in t.recalls :: l in s.recalls || l !in issued)
  }

  lemma OldStepStaysSettled(s: State, t: State, issued: set<string>, k: StepKey)
    requires Settled(s, issued) && k in s.steps && Extends(s.steps, t.steps) && PinsMove(s, t, issued)
    ensures ViewClosed(t, k) && RecallClosed(t, k)
  {
    assert ViewClosed(s, k) && RecallClosed(s, k);
    if Succeeded(s, k) && k.name.CommitArchiveStep? {
      var view :| HasView(s, k.context, view) && view.viewId !in s.views;
      assert ReplyIssued(s.steps[StepKey(k.context, PrepareArchiveStep)], issued);
      assert HasView(t, k.context, view);
    }
    if Succeeded(s, k) && k.name.CommitRecallStep? {
      var target :| HasTarget(s, k.context, target) && target.layoutId !in s.recalls;
      assert ReplyIssued(s.steps[StepKey(k.context, PrepareRecallStep)], issued);
      assert HasTarget(t, k.context, target);
    }
  }

  lemma NewStepSettles(s: State, t: State, k: StepKey, saved: SavedStep, issued: set<string>, uuid: string)
    requires Settled(s, issued) && k !in s.steps && t.steps == s.steps[k := saved] && PinsMove(s, t, issued)
    requires ViewClosed(t, k) && RecallClosed(t, k) && ReplyIssued(saved, issued + {uuid})
    ensures Settled(t, issued + {uuid})
  {
    forall j | j in t.steps ensures ViewClosed(t, j) && RecallClosed(t, j) && ReplyIssued(t.steps[j], issued + {uuid}) {
      if j in s.steps {
        UpdateExtends(s.steps, k, saved);
        OldStepStaysSettled(s, t, issued, j);
        assert ReplyIssued(s.steps[j], issued);
      }
    }
  }

  /** What a successful effect does to the pins, and which it must have had. */
  lemma EffectMovesPins(s: State, d: Disk, ctx: OperationContext, req: Request, env: Env, issued: set<string>)
    requires Effect(s, d, ctx, req, env).result.Ok? && env.uuid !in issued
    ensures PinsMove(s, Effect(s, d, ctx, req, env).state, issued)
    ensures ReplyIssued(SavedStep(req, Effect(s, d, ctx, req, env).result), issued + {env.uuid})
    ensures req.CommitArchive? ==>
              && req.view.viewId in s.views && s.views[req.view.viewId] == ViewOwner(ctx, req.view)
              && req.view.viewId !in Effect(s, d, ctx, req, env).state.views
    ensures req.CommitRecall? ==>
              && req.target.layoutId in s.recalls && s.recalls[req.target.layoutId].target == req.target
              && s.recalls[req.target.layoutId].context == ctx
              && req.target.layoutId !in Effect(s, d, ctx, req, env).state.recalls
  {
    match req
    case CommitArchive(view, receipt) => CommitArchiveGuards(s, d, ctx, view, receipt, env);
    case ReleaseData(expected) => ReleaseGuards(s, d, ctx, expected, env);
    case CommitRecall(target, evidence) => CommitRecallGuards(s, d, ctx, target, evidence, env);
    case _ =>
  }

  /** What EffectMovesPins says of an outcome. */
  predicate MovedPins(s: State, ctx: OperationContext, req: Request, out: Outcome, issued: set<string>, uuid: string) {
    out.result.Ok? ==>
      && PinsMove(s, out.state, issued) && ReplyIssued(SavedStep(req, out.result), issued + {uuid})
      && (req.CommitArchive? ==> ViewOpen(s, ctx, req.view) && req.view.viewId !in out.state.views)
      && (req.CommitRecall? ==> RecallOpen(s, ctx, req.target) && req.target.layoutId !in out.state.recalls)
  }

  lemma OutcomeSettles(s: State, ctx: OperationContext, req: Request, out: Outcome, t: State, issued: set<string>,
                       uuid: string)
    requires Recorded(s, KeyOf(ctx, req), req, out) == Some(t) && KeyOf(ctx, req) !in s.steps
             && out.state.steps == s.steps
    requires Settled(s, issued) && PinLedger(s) && MovedPins(s, ctx, req, out, issued, uuid)
    ensures Settled(t, issued + {uuid})
  {
    var k := KeyOf(ctx, req);
    if out.result.Ok? {
      if req.CommitArchive? { assert HasView(t, ctx, req.view); }
      if req.CommitRecall? { assert HasTarget(t, ctx, req.target); }
    }
    NewStepSettles(s, t, k, SavedStep(req, out.result), issued, uuid);
  }

  lemma AttemptedSettles(st: Store, d: Disk, ctx: OperationContext, req: Request, env: Env, issued: set<string>,
                         t: State)
    requires Attempted(st, d, ctx, req, env) == Some(t) && Settled(st.state, issued) && PinLedger(st.state)
             && env.uuid !in issued
    ensures Settled(t, issued + {env.uuid})
  {
    var out := Effect(st.state, d, ctx, req, env);
    EffectKeepsSteps(st.state, d, ctx, req, env);
    assert MovedPins(st.state, ctx, req, out, issued, env.uuid) by {
      if out.result.Ok? { EffectMovesPins(st.state, d, ctx, req, env, issued); }
    }
    OutcomeSettles(st.state, ctx, req, out, t, issued, env.uuid);
  }

  // ---------- runs ----------

  lemma CallSettles(w: World, ctx: OperationContext, req: Request, env: Env)
    requires w.source.Opened? && HandleOk(w.source) && PinLedger(Memory(w))
    requires SystemSettled(w) && Possible(w, DoCall(ctx, req, env))
    ensures SystemSettled(Apply(w, DoCall(ctx, req, env)))
  {
    var st := Handle(w);
    MoreIssued(FileOf(w.source).durable, w.issued, w.issued + {env.uuid});
    MoreIssued(FileOf(w.source).visible, w.issued, w.issued + {env.uuid});
    CallWrites(st, w.disk, ctx, req, env);
    var next := Attempted(st, w.disk, ctx, req, env);
    if next.Some? {
      AttemptedSettles(st, w.disk, ctx, req, env, w.issued, next.value);
    }
  }

  lemma SameLogSettles(s: State, t: State, issued: set<string>)
    requires Settled(s, issued) && t.steps == s.steps && t.views == s.views && t.recalls == s.recalls
    ensures Settled(t, issued)
  {
    forall k | k in t.steps ensures ViewClosed(t, k) && RecallClosed(t, k) && ReplyIssued(t.steps[k], issued) {
      assert ViewClosed(s, k) && RecallClosed(s, k) && ReplyIssued(s.steps[k], issued);
      if Succeeded(s, k) && k.name.CommitArchiveStep? {
        var view :| HasView(s, k.context, view) && view.viewId !in s.views;
        assert HasView(t, k.context, view);
      }
      if Succeeded(s, k) && k.name.CommitRecallStep? {
        var target :| HasTarget(s, k.context, target) && target.layoutId !in s.recalls;
        assert HasTarget(t, k.context, target);
      }
    }
  }

  lemma ImportSettles(w: World, id: string, bytes: Bytes, env: Env)
    requires w.source.Opened? && HandleOk(w.source) && SystemSettled(w) && Possible(w, DoImport(id, bytes, env))
    ensures SystemSettled(Apply(w, DoImport(id, bytes, env)))
  {
    var touch, next := ImportWrites(Handle(w), w.disk, id, bytes, env);
    MoreIssued(FileOf(w.source).durable, w.issued, w.issued + {env.uuid});
    MoreIssued(FileOf(w.source).visible, w.issued, w.issued + {env.uuid});
    if next.Some? { SameLogSettles(Memory(w), next.value, w.issued + {env.uuid}); }
  }

  lemma StepSettles(w: World, a: Action)
    requires HandleOk(w.source) && PinLedger(FileOf(w.source).durable) && Cat.CatalogInv(w.catalog, w.disk)
    requires SystemSettled(w) && Enabled(w, a)
    ensures SystemSettled(Apply(w, a))
  {
    if a.DoInspect? || a.DoPrepare? || a.DoCommit? || a.DoResume? || a.DoOpen? {
      var m, uuid, receipts := ArchiveCallMoves(w, a);
      MoreIssued(FileOf(w.source).durable, w.issued, w.issued + uuid);
      MoreIssued(FileOf(w.source).visible, w.issued, w.issued + uuid);
    } else if a.DoCall? {
      CallSettles(w, a.ctx, a.req, a.env);
    } else if a.DoImport? {
      ImportSettles(w, a.id, a.bytes, a.env);
    } else if a.DoCollect? {
      SameLogSettles(Memory(w), Memory(w).(gc := []), w.issued);
    }
  }

  lemma FirstSettles(w: World)
    requires Init(w)
    ensures SystemSettled(w)
  {
  }

  lemma RunSettles(ws: seq<World>, acts: seq<Action>, i: nat)
    requires Run(ws, acts) && i < |ws|
    ensures SystemSettled(ws[i])
  {
    FirstSettles(ws[0]);
    for k := 0 to i
      invariant SystemSettled(ws[k])
    {
      var w := ws[k];
      assert HandleOk(w.source) && PinLedger(FileOf(w.source).durable) && Cat.CatalogInv(w.catalog, w.disk) by {
        RunKeepsInv(ws, acts, k);
      }
      StepSettles(w, acts[k]);
    }
  }

  // ---------- a pin is open until its own commit succeeds ----------

  lemma PinsAreOpenUntilCommitted(s: State, issued: set<string>, ctx: OperationContext, view: DataView,
                                  target: RecallTarget)
    requires PinLedger(s) && Settled(s, issued)
    ensures HasView(s, ctx, view) ==> (ViewOpen(s, ctx, view) <==> !Succeeded(s, StepKey(ctx, CommitArchiveStep)))
    ensures HasTarget(s, ctx, target) ==>
              (RecallOpen(s, ctx, target) <==> !Succeeded(s, StepKey(ctx, CommitRecallStep)))
  {
    var c, d := StepKey(ctx, CommitArchiveStep), StepKey(ctx, CommitRecallStep);
    if HasView(s, ctx, view) {
      assert ViewAccounted(s, StepKey(ctx, PrepareArchiveStep));
      if Succeeded(s, c) {
        assert ViewClosed(s, c);
        var other :| HasView(s, ctx, other) && other.viewId !in s.views;
      }
    }
    if HasTarget(s, ctx, target) {
      assert RecallAccounted(s, StepKey(ctx, PrepareRecallStep));
      if Succeeded(s, d) {
        assert RecallClosed(s, d);
        var other :| HasTarget(s, ctx, other) && other.layoutId !in s.recalls;
      }
    }
  }

  /** In every state any restart of any run can reveal. */
  lemma RunPinsAreOpenUntilCommitted(ws: seq<World>, acts: seq<Action>, i: nat, s: State, ctx: OperationContext,
                                     view: DataView, target: RecallTarget)
    requires Run(ws, acts) && i < |ws| && (s == FileOf(ws[i].source).durable || s == FileOf(ws[i].source).visible)
    ensures HasView(s, ctx, view) ==> (ViewOpen(s, ctx, view) <==> !Succeeded(s, StepKey(ctx, CommitArchiveStep)))
    ensures HasTarget(s, ctx, target) ==>
              (RecallOpen(s, ctx, target) <==> !Succeeded(s, StepKey(ctx, CommitRecallStep)))
  {
    RunSettles(ws, acts, i);
    assert PinLedger(s) by { RunKeepsInv(ws, acts, i); }
    PinsAreOpenUntilCommitted(s, ws[i].issued, ctx, view, target);
  }
}
