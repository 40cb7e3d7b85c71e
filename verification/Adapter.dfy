/**
 The Curvine adapter's checks of its storage's replies, used as a second specification: every
 success that LocalStorage answers with, first or replayed, passes them. Adapter tags apart, the
 checks are the ones the adapter applies to Curvine's answers.
 */
module Adapter {
  import opened Managed
  import opened Files
  import opened SourceState
  import opened SourceInvariants
  import opened SourceSteps
  import opened System
  import opened SystemSafety
  import opened SystemTheorems
  import opened SourceTheorems
  import Cat = Catalog
  import E = Engine

  predicate ValidAnchor(a: ArchiveReceipt, p: EntityState) {
    && a.data == p.data && a.length == p.length && a.digest == p.digest
    && a.key.backend != "" && a.key.objectId != ""
    && a.receiptId != "" && a.durabilityProfile != ""
  }

  /** validate_state. An unsealed Online entity may have no digest yet. */
  predicate ValidState(p: EntityState) {
    && p.data.entity.storage != "" && p.data.entity.ns != "" && p.data.entity.entity != ""
    && p.data.generation != 0 && p.revision != 0
    && p.digest.algorithm != ""
    && (p.digest.value != [] || (p.digest.algorithm == "unsealed" && p.residency.Online? && p.anchors == []))
    && (forall a | a in p.anchors :: ValidAnchor(a, p))
    && (p.residency.Online? <==> p.anchors == [])
  }

  /** The checks the adapter makes on a request before sending it. */
  predicate SoundRequest(req: Request) {
    match req
    case PrepareArchive(_) => true
    case CommitArchive(view, receipt) => receipt.data == view.data && receipt.length == view.length
        && receipt.digest == view.digest
    case ReleaseData(expected) => ValidState(expected)
    case PrepareRecall(expected, anchor) => ValidState(expected) && anchor.data == expected.data
        && anchor in expected.anchors
    case CommitRecall(_, _) => true
  }

  /** The checks it makes on the reply. */
  predicate SoundReply(req: Request, reply: Reply) {
    match req
    case PrepareArchive(data) =>
      reply.ViewReply? && reply.view.data == data && reply.view.viewId != "" && reply.view.source.capability.Local?
      && reply.view.digest.algorithm != "" && reply.view.digest.value != []
    case CommitArchive(view, receipt) =>
      reply.StateReply? && ValidState(reply.state) && reply.state.data == view.data && reply.state.residency.Dual?
      && reply.state.length == view.length && reply.state.digest == view.digest && receipt in reply.state.anchors
    case ReleaseData(expected) =>
      reply.StateReply? && ValidState(reply.state) && SameContent(reply.state, expected)
          && reply.state.residency.Offline?
      && reply.state.anchors == expected.anchors && reply.state.revision >= expected.revision
    case PrepareRecall(expected, anchor) =>
      reply.TargetReply? && reply.target.data == expected.data && reply.target.archive == anchor.key
      && reply.target.layoutId != "" && reply.target.destination.capability.Local?
    case CommitRecall(target, evidence) =>
      reply.StateReply? && ValidState(reply.state) && reply.state.data == target.data && reply.state.residency.Dual?
      && Content(reply.state) == evidence && exists a | a in reply.state.anchors :: a.key == target.archive
  }

  /** The checks on a stored outcome. */
  predicate SoundOutcome(data: DataKey, action: ManagedAction, state: EntityState) {
    && ValidState(state) && state.data == data
    && match action
       case Release => state.residency.Offline?
       case Archive(key) => state.residency.Dual? && exists a | a in state.anchors :: a.key == key
       case Recall(key) => state.residency.Dual? && exists a | a in state.anchors :: a.key == key
  }

  predicate Passes(saved: SavedStep) {
    saved.result.Ok? ==> SoundRequest(saved.request) && SoundReply(saved.request, saved.result.value)
  }

  ghost predicate Conforms(s: State) {
    forall k | k in s.steps :: Passes(s.steps[k])
  }

  ghost predicate SystemConforms(w: World) {
    w.catalog.id != "" && Conforms(FileOf(w.source).durable) && Conforms(FileOf(w.source).visible)
  }

  // ---------- what acceptance means ----------

  /** Two replies to one request tell the caller the same, new names and later changes apart. */
  ghost predicate Agree(req: Request, a: Reply, b: Reply) {
    match req
    case PrepareArchive(_) => a.ViewReply? && b.ViewReply? && a.view.data == b.view.data
    case PrepareRecall(_, _) =>
      a.TargetReply? && b.TargetReply? && a.target.data == b.target.data && a.target.archive == b.target.archive
    case ReleaseData(expected) =>
      a.StateReply? && b.StateReply? && a.state == b.state.(revision := a.state.revision)
      && expected.revision <= a.state.revision && expected.revision <= b.state.revision
    case _ =>
      a.StateReply? && b.StateReply?
      && a.state == b.state.(revision := a.state.revision, anchors := a.state.anchors)
  }

  lemma AcceptedRepliesAgree(req: Request, a: Reply, b: Reply)
    requires SoundReply(req, a) && SoundReply(req, b)
    ensures Agree(req, a, b)
  {
  }

  /** Where the engine goes with a state that has passed: its release has an anchor to verify exactly
      unless the state is Online, and its recall one to locate exactly if the state is Offline and
      anchored under the key. No anchor of such a state is ever found wanting. */
  lemma AcceptedStatesServe(p: EntityState, ctx: OperationContext, key: ArchiveKey)
    requires ValidState(p)
    ensures forall a | a in p.anchors :: E.SoundAnchor(p, a)
    ensures E.VerifyFrom(E.Flow(ctx, E.ReleaseJob(p), E.Observe), 0).Verify? <==> !p.residency.Online?
    ensures var pc := E.StartRecall(E.Flow(ctx, E.RecallJob(p, key), E.Ask));
            && (pc.Locate? <==> p.residency.Offline? && exists a | a in p.anchors :: a.key == key)
            && (pc == E.Done(Err(NotFound)) <==> p.residency.Offline? && forall a | a in p.anchors :: a.key != key)
            && (pc == E.Done(Err(Conflict)) <==> !p.residency.Offline?)
  {
  }

  /** And with an outcome that has passed: after a release, a recall has an anchor to locate; after an
      archive or a recall there is none to do, and a release has an anchor to verify. */
  lemma AcceptedOutcomesServe(data: DataKey, action: ManagedAction, p: EntityState, ctx: OperationContext,
                              key: ArchiveKey)
    requires SoundOutcome(data, action, p)
    ensures action.Release? ==>
              exists a | a in p.anchors :: E.StartRecall(E.Flow(ctx, E.RecallJob(p, a.key), E.Ask)).Locate?
    ensures !action.Release? ==>
              && (exists a | a in p.anchors :: a.key == action.key)
              && E.StartRecall(E.Flow(ctx, E.RecallJob(p, key), E.Ask)) == E.Done(Err(Conflict))
              && E.VerifyFrom(E.Flow(ctx, E.ReleaseJob(p), E.Observe), 0).Verify?
  {
    AcceptedStatesServe(p, ctx, key);
    if action.Release? {
      AcceptedStatesServe(p, ctx, p.anchors[0].key);
      assert p.anchors[0] in p.anchors;
    }
  }

  // ---------- states ----------

  lemma AnchorIsValid(s: State, d: Disk, c: Cat.Catalog, id: string, a: ArchiveReceipt)
    requires Entities(s) && Backed(s, d, c) && Cat.CatalogInv(c, d) && c.id != ""
    requires id in s.entities && a in s.entities[id].public.anchors
    ensures ValidAnchor(a, s.entities[id].public)
  {
    var e := s.entities[id];
    assert EntityOk(s, id, e) && EntityBacked(d, c, e);
    assert Cat.Reports(c, a.key, a);
    assert Cat.Backs(c.id, d, a.key, c.linked[a.key]);
    var i :| 0 <= i < |e.public.anchors| && e.public.anchors[i] == a;
    assert Binds(e.public.anchors[i], e.public);
  }

  lemma StateIsValid(s: State, w: World, id: string)
    requires StateOk(s, w) && Cat.CatalogInv(w.catalog, w.disk) && w.catalog.id != "" && id in s.entities
    ensures ValidState(s.entities[id].public)
  {
    assert EntityOk(s, id, s.entities[id]);
    forall a | a in s.entities[id].public.anchors ensures ValidAnchor(a, s.entities[id].public) {
      AnchorIsValid(s, w.disk, w.catalog, id, a);
    }
  }

  // ---------- a successful effect ----------

  ghost predicate EntitiesValid(s: State) {
    forall id | id in s.entities :: ValidState(s.entities[id].public)
  }

  lemma ArchiveReplyIsSound(s: State, d: Disk, ctx: OperationContext, view: DataView, receipt: ArchiveReceipt, env: Env)
    requires Entities(s) && Pins(s)
    requires var out := CommitArchiveEffect(s, d, ctx, view, receipt, env); out.result.Ok? && EntitiesValid(out.state)
    ensures SoundRequest(CommitArchive(view, receipt))
    ensures SoundReply(CommitArchive(view, receipt), CommitArchiveEffect(s, d, ctx, view, receipt, env).result.value)
  {
    CommitArchiveGuards(s, d, ctx, view, receipt, env);
    assert ViewOk(s, view.viewId);
    var out := CommitArchiveEffect(s, d, ctx, view, receipt, env);
    assert ValidState(out.state.entities[view.data.entity.entity].public);
  }

  lemma ReleaseReplyIsSound(s: State, d: Disk, ctx: OperationContext, expected: EntityState, env: Env)
    requires Entities(s) && EntitiesValid(s)
    requires var out := ReleaseEffect(s, d, ctx, expected, env); out.result.Ok? && EntitiesValid(out.state)
    ensures SoundRequest(ReleaseData(expected))
    ensures SoundReply(ReleaseData(expected), ReleaseEffect(s, d, ctx, expected, env).result.value)
  {
    ReleaseGuards(s, d, ctx, expected, env);
    EntityOfIsItsKey(s, expected.data);
    var out := ReleaseEffect(s, d, ctx, expected, env);
    assert ValidState(out.state.entities[expected.data.entity.entity].public);
  }

  lemma RecalledState(s: State, d: Disk, ctx: OperationContext, target: RecallTarget, evidence: TransferEvidence,
                      env: Env)
    returns (e: Entity, p: EntityState)
    requires Entities(s)
    requires var out := CommitRecallEffect(s, d, ctx, target, evidence, env); out.result.Ok? && EntitiesValid(out.state)
    ensures CommitRecallEffect(s, d, ctx, target, evidence, env).result == Ok(StateReply(p)) && ValidState(p)
    ensures target.layoutId in s.recalls && s.recalls[target.layoutId].target == target
    ensures EntityOf(s, target.data) == Ok(e) && p == Attached(e, target.layoutId).public
    ensures evidence == Content(e.public) && s.recalls[target.layoutId].anchor in e.public.anchors
  {
    CommitRecallGuards(s, d, ctx, target, evidence, env);
    EntityOfIsItsKey(s, target.data);
    e := EntityOf(s, target.data).value;
    p := Attached(e, target.layoutId).public;
    var out := CommitRecallEffect(s, d, ctx, target, evidence, env);
    assert ValidState(out.state.entities[target.data.entity.entity].public);
  }

  lemma PrepareRepliesAreSound(s: State, d: Disk, ctx: OperationContext, req: Request, env: Env)
    requires Entities(s) && Effect(s, d, ctx, req, env).result.Ok? && env.uuid != ""
    requires (req.PrepareArchive? || req.PrepareRecall?) && EntitiesValid(s)
    ensures SoundRequest(req) && SoundReply(req, Effect(s, d, ctx, req, env).result.value)
  {
    match req
    case PrepareArchive(data) => EntityOfIsItsKey(s, data);
    case PrepareRecall(expected, anchor) =>
      EntityOfIsItsKey(s, expected.data);
      assert ValidAnchor(anchor, expected);
  }

  /** What a successful effect is about to record, given that the state it leaves is valid. */
  lemma EffectIsSound(s: State, d: Disk, ctx: OperationContext, req: Request, env: Env)
    requires Entities(s) && Pins(s) && EntitiesValid(s) && env.uuid != ""
    requires var out := Effect(s, d, ctx, req, env); out.result.Ok? && EntitiesValid(out.state)
    ensures SoundRequest(req) && SoundReply(req, Effect(s, d, ctx, req, env).result.value)
  {
    match req
    case CommitArchive(view, receipt) => ArchiveReplyIsSound(s, d, ctx, view, receipt, env);
    case ReleaseData(expected) => ReleaseReplyIsSound(s, d, ctx, expected, env);
    case CommitRecall(target, evidence) =>
      var e, p := RecalledState(s, d, ctx, target, evidence, env);
      assert RecallOk(s, target.layoutId);
      assert s.recalls[target.layoutId].anchor in p.anchors;
    case _ => PrepareRepliesAreSound(s, d, ctx, req, env);
  }

  // ---------- every step of the system ----------

  lemma AllValid(s: State, w: World)
    requires StateOk(s, w) && Cat.CatalogInv(w.catalog, w.disk) && w.catalog.id != ""
    ensures EntitiesValid(s)
  {
    forall id | id in s.entities ensures ValidState(s.entities[id].public) {
      StateIsValid(s, w, id);
    }
  }

  lemma RecordedState(s: State, k: StepKey, req: Request, out: Outcome, t: State)
    requires Recorded(s, k, req, out) == Some(t) && out.state.steps == s.steps
    ensures t.steps == s.steps[k := SavedStep(req, out.result)] && (out.result.Ok? ==> t.entities == out.state.entities)
  {
  }

  lemma AttemptedConforms(st: Store, d: Disk, ctx: OperationContext, req: Request, env: Env, t: State)
    requires Attempted(st, d, ctx, req, env) == Some(t) && env.uuid != ""
    requires Entities(st.state) && Pins(st.state) && Conforms(st.state)
    requires EntitiesValid(st.state) && EntitiesValid(t)
    ensures Conforms(t)
  {
    var out := Effect(st.state, d, ctx, req, env);
    EffectKeepsSteps(st.state, d, ctx, req, env);
    RecordedState(st.state, KeyOf(ctx, req), req, out, t);
    var result := out.result;
    assert Passes(SavedStep(req, result)) by {
      if result.Ok? { EffectIsSound(st.state, d, ctx, req, env); }
    }
  }

  /** What a persisted call leaves on file is the old metadata or the attempted one. */
  lemma CallFile(st: Store, d: Disk, ctx: OperationContext, req: Request, env: Env)
    requires HandleOk(Opened(st))
    ensures var file := Call(st, d, ctx, req, env).store.file;
            var next := Attempted(st, d, ctx, req, env);
            && (file.durable == st.file.durable || (next == Some(file.durable) && file.visible == file.durable))
            && (file.visible == st.file.visible || next == Some(file.visible))
  {
    CallWrites(st, d, ctx, req, env);
  }

  lemma CallConforms(w: World, w': World, ctx: OperationContext, req: Request, env: Env)
    requires w.source.Opened? && HandleOk(w.source) && StateOk(Memory(w), w)
             && Cat.CatalogInv(w.catalog, w.disk)
    requires SystemConforms(w) && env.uuid != "" && w'.source.Opened? && w'.catalog == w.catalog
    requires Handle(w').file == Call(Handle(w), w.disk, ctx, req, env).store.file
    requires StateOk(Handle(w').file.visible, w') && Cat.CatalogInv(w'.catalog, w'.disk)
    ensures SystemConforms(w')
  {
    var st, file := Handle(w), Handle(w').file;
    CallFile(st, w.disk, ctx, req, env);
    if file.visible != st.file.visible {
      AllValid(st.state, w);
      AllValid(file.visible, w');
      AttemptedConforms(st, w.disk, ctx, req, env, file.visible);
    }
  }

  lemma DoCallConforms(w: World, ctx: OperationContext, req: Request, env: Env)
    requires SystemInv(w) && Enabled(w, DoCall(ctx, req, env)) && SystemConforms(w)
    ensures SystemConforms(Apply(w, DoCall(ctx, req, env)))
  {
    StepKeepsInv(w, DoCall(ctx, req, env));
    CallConforms(w, Apply(w, DoCall(ctx, req, env)), ctx, req, env);
  }

  lemma OtherConforms(w: World, a: Action)
    requires HandleOk(w.source) && Cat.CatalogInv(w.catalog, w.disk) && Enabled(w, a) && SystemConforms(w) && !a.DoCall?
    ensures SystemConforms(Apply(w, a))
  {
    if a.DoInspect? || a.DoPrepare? || a.DoCommit? || a.DoResume? || a.DoOpen? {
      var m, uuid, receipts := ArchiveCallMoves(w, a);
    } else if a.DoImport? {
      var touch, next := ImportWrites(Handle(w), w.disk, a.id, a.bytes, a.env);
    }
  }

  lemma StepConforms(w: World, a: Action)
    requires SystemInv(w) && Enabled(w, a) && SystemConforms(w)
    ensures SystemConforms(Apply(w, a))
  {
    if a.DoCall? {
      DoCallConforms(w, a.ctx, a.req, a.env);
    } else {
      OtherConforms(w, a);
    }
  }

  lemma {:induction false} RunConforms(ws: seq<World>, acts: seq<Action>, i: nat)
    requires Run(ws, acts) && i < |ws| && ws[0].catalog.id != ""
    ensures SystemConforms(ws[i])
  {
    if i > 0 {
      RunConforms(ws, acts, i - 1);
      RunKeepsInv(ws, acts, i - 1);
      StepConforms(ws[i - 1], acts[i - 1]);
    }
  }

  // ---------- conformance ----------

  /** Every success a step call answers with at any moment of any run, replayed or not, passes the
      adapter's checks of the request and of the reply. */
  lemma RepliesConform(ws: seq<World>, acts: seq<Action>, i: nat, ctx: OperationContext, req: Request, env: Env)
    requires Run(ws, acts) && i < |ws| && ws[0].catalog.id != "" && Enabled(ws[i], DoCall(ctx, req, env))
    requires Call(Handle(ws[i]), ws[i].disk, ctx, req, env).result.Ok?
    ensures SoundRequest(req) && SoundReply(req, Call(Handle(ws[i]), ws[i].disk, ctx, req, env).result.value)
  {
    RunConforms(ws, acts, i);
    RunKeepsInv(ws, acts, i);
    StepConforms(ws[i], DoCall(ctx, req, env));
    CallIsRecorded(Handle(ws[i]), ws[i].disk, ctx, req, env);
    assert Passes(Call(Handle(ws[i]), ws[i].disk, ctx, req, env).store.state.steps[KeyOf(ctx, req)]);
  }

  lemma CallIsRecorded(st: Store, d: Disk, ctx: OperationContext, req: Request, env: Env)
    requires Call(st, d, ctx, req, env).result.Ok? && HandleOk(Opened(st))
    ensures var r := Call(st, d, ctx, req, env);
            KeyOf(ctx, req) in r.store.state.steps && r.store.state.steps[KeyOf(ctx, req)] == SavedStep(req, r.result)
            && r.store.file.durable == r.store.state
  {
  }

  /** The checks leave a storage nothing to decide but names, revisions and further anchors: the reply
      of any storage that passes them agrees with the one LocalStorage gives at any moment of any run. */
  lemma AcceptedIsTheLocalReply(ws: seq<World>, acts: seq<Action>, i: nat, ctx: OperationContext, req: Request,
                                env: Env, reply: Reply)
    requires Run(ws, acts) && i < |ws| && ws[0].catalog.id != "" && Enabled(ws[i], DoCall(ctx, req, env))
    requires Call(Handle(ws[i]), ws[i].disk, ctx, req, env).result.Ok? && SoundReply(req, reply)
    ensures Agree(req, reply, Call(Handle(ws[i]), ws[i].disk, ctx, req, env).result.value)
  {
    RepliesConform(ws, acts, i, ctx, req, env);
    AcceptedRepliesAgree(req, reply, Call(Handle(ws[i]), ws[i].disk, ctx, req, env).result.value);
  }

  /** Every outcome `completed` reports passes them too, */
  lemma OutcomesConform(ws: seq<World>, acts: seq<Action>, i: nat, ctx: OperationContext, data: DataKey,
                        action: ManagedAction)
    requires Run(ws, acts) && i < |ws| && ws[0].catalog.id != "" && ws[i].source.Opened?
    requires var r := QueryCompleted(Handle(ws[i]), ctx, data, action); r.Ok? && r.value.Some?
    ensures SoundOutcome(data, action, QueryCompleted(Handle(ws[i]), ctx, data, action).value.value)
  {
    RunConforms(ws, acts, i);
    assert Ledger(Memory(ws[i])) && HandleOk(ws[i].source) by { RunKeepsInv(ws, acts, i); }
    var c := Memory(ws[i]).completed[ctx.operationId];
    assert CompletedOk(Memory(ws[i]), ctx.operationId);
    assert Passes(Memory(ws[i]).steps[StepKey(Context(ctx.operationId), TerminalName(c.action))]);
  }

  /** and so does every state `inspect` reports; and at a healthy moment it reports every entity the
      metadata has, whatever its residency. */
  lemma InspectionsConform(ws: seq<World>, acts: seq<Action>, i: nat, key: EntityKey)
    requires Run(ws, acts) && i < |ws| && ws[0].catalog.id != "" && ws[i].source.Opened?
    ensures var r, s := Inspect(Handle(ws[i]), key), Memory(ws[i]);
            && (r.Ok? <==> Healthy(ws[i]) && KnownKey(s, key) && key.entity in s.entities)
            && (r.Ok? ==> ValidState(r.value) && r.value.data.entity == key && r.value == s.entities[key.entity].public)
  {
    RunConforms(ws, acts, i);
    RunKeepsInv(ws, acts, i);
    if Inspect(Handle(ws[i]), key).Ok? {
      StateIsValid(Memory(ws[i]), ws[i], key.entity);
      assert EntityOk(Memory(ws[i]), key.entity, Memory(ws[i]).entities[key.entity]);
    }
  }
}
