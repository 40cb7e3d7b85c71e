/**
 LocalStorage's authoritative metadata and the effects of its five recorded steps, as pure
 functions. An effect works on a copy of the state and may fail after changing it; the files it
 touched on the way stay changed. `Call` is the generic step transaction around an effect.
 */
module SourceState {
  import opened Managed
  import opened Files

  datatype Entity = Entity(public: EntityState, published: Option<string>)

  datatype ViewOwner = ViewOwner(context: OperationContext, view: DataView)

  datatype RecallOwner = RecallOwner(context: OperationContext, target: RecallTarget, anchor: ArchiveReceipt)

  datatype StepName = PrepareArchiveStep | CommitArchiveStep | ReleaseStep | PrepareRecallStep | CommitRecallStep

  /** A step name with its request. The source's hashed keys are injective in these values. */
  datatype Request =
    | PrepareArchive(data: DataKey)
    | CommitArchive(view: DataView, receipt: ArchiveReceipt)
    | ReleaseData(expected: EntityState)
    | PrepareRecall(expected: EntityState, anchor: ArchiveReceipt)
    | CommitRecall(target: RecallTarget, evidence: TransferEvidence)

  datatype Reply = ViewReply(view: DataView) | TargetReply(target: RecallTarget) | StateReply(state: EntityState)

  datatype StepKey = StepKey(context: OperationContext, name: StepName)

  datatype SavedStep = SavedStep(request: Request, result: Result<Reply>)

  datatype Completed = Completed(context: OperationContext, data: DataKey, action: ManagedAction, state: EntityState)

  datatype State = State(
    storageId: string,
    ns: string,
    entities: map<string, Entity>,
    views: map<string, ViewOwner>,
    recalls: map<string, RecallOwner>,
    steps: map<StepKey, SavedStep>,
    completed: map<string, Completed>,
    gc: seq<string>)

  function NameOf(req: Request): StepName {
    match req
    case PrepareArchive(_) => PrepareArchiveStep
    case CommitArchive(_, _) => CommitArchiveStep
    case ReleaseData(_) => ReleaseStep
    case PrepareRecall(_, _) => PrepareRecallStep
    case CommitRecall(_, _) => CommitRecallStep
  }

  function KeyOf(ctx: OperationContext, req: Request): StepKey {
    StepKey(ctx, NameOf(req))
  }

  // ---------- State::{validate_key, entity, finish} ----------

  predicate KnownKey(s: State, key: EntityKey) {
    key.storage == s.storageId && key.ns == s.ns && key.entity != ""
  }

  function EntityOf(s: State, data: DataKey): Result<Entity> {
    if !KnownKey(s, data.entity) then Err(NotFound)
    else if data.entity.entity !in s.entities then Err(NotFound)
    else if s.entities[data.entity.entity].public.data != data then Err(Conflict)
    else Ok(s.entities[data.entity.entity])
  }

  function Finish(s: State, ctx: OperationContext, data: DataKey, action: ManagedAction, state: EntityState)
    : (State, Result<()>)
  {
    var op := ctx.operationId;
    if op in s.completed
       && (s.completed[op].context != ctx || s.completed[op].data != data || s.completed[op].action != action)
    then (s, Err(Conflict))
    else (s.(completed := s.completed[op := Completed(ctx, data, action, state)]), Ok(()))
  }

  // ---------- effects ----------

  /** The mutated copy, the files afterwards, and the outcome. */
  datatype Outcome = Outcome(state: State, disk: Disk, result: Result<Reply>)

  predicate Viewed(s: State, data: DataKey) {
    exists v | v in s.views :: s.views[v].view.data == data
  }

  predicate Recalling(s: State, data: DataKey) {
    exists l | l in s.recalls :: s.recalls[l].target.data == data
  }

  function PrepareArchiveEffect(s: State, d: Disk, ctx: OperationContext, data: DataKey, env: Env): Outcome {
    match EntityOf(s, data)
    case Err(e) => Outcome(s, d, Err(e))
    case Ok(entity) =>
      if entity.published.None? then Outcome(s, d, Err(Conflict))
      else if Viewed(s, data) then Outcome(s, d, Err(Busy))
      else
        var view := DataView(data, env.uuid, entity.public.length, entity.public.digest,
                             Endpoint(SourceLayout(entity.published.value)));
        Outcome(s.(views := s.views[view.viewId := ViewOwner(ctx, view)]), d, Ok(ViewReply(view)))
  }

  predicate AcceptableReceipt(view: DataView, receipt: ArchiveReceipt) {
    && receipt.data == view.data
    && receipt.length == view.length
    && receipt.digest == view.digest
    && receipt.receiptId != ""
    && receipt.durabilityProfile == LOCAL_PROFILE
  }

  /** The entity with the receipt attached: pushed unless present, Dual, one revision up. */
  function Attach(entity: Entity, receipt: ArchiveReceipt): Entity {
    var anchors := entity.public.anchors;
    entity.(public := entity.public.(
      anchors := if receipt in anchors then anchors else anchors + [receipt],
      residency := Dual,
      revision := entity.public.revision + 1))
  }

  function CommitArchiveEffect(s: State, d: Disk, ctx: OperationContext, view: DataView, receipt: ArchiveReceipt,
                               env: Env)
    : Outcome
  {
    if view.viewId !in s.views then Outcome(s, d, Err(NotFound))
    else if s.views[view.viewId] != ViewOwner(ctx, view) then Outcome(s, d, Err(Fenced))
    else
      match DecodeEndpoint(view.source)
      case Err(e) => Outcome(s, d, Err(e))
      case Ok(root) =>
        match TransferLock(d, root, env.fault)
        case Err(e) => Outcome(s, d, Err(e))
        case Ok(_) =>
          match EntityOf(s, view.data)
          case Err(e) => Outcome(s, d, Err(e))
          case Ok(entity) =>
            if !AcceptableReceipt(view, receipt) then Outcome(s, d, Err(Integrity))
            else if exists a | a in entity.public.anchors :: a.key == receipt.key && a != receipt
            then Outcome(s, d, Err(Conflict))
            else
              var attached := Attach(entity, receipt);
              var mutated := s.(entities := s.entities[view.data.entity.entity := attached],
                                views := s.views - {view.viewId});
              var (next, done) := Finish(mutated, ctx, view.data, Archive(receipt.key), attached.public);
              Outcome(next, d, if done.Ok? then Ok(StateReply(attached.public)) else Err(done.error))
  }

  function Detach(entity: Entity): Entity {
    Entity(entity.public.(residency := Offline, revision := entity.public.revision + 1), None)
  }

  function ReleaseEffect(s: State, d: Disk, ctx: OperationContext, expected: EntityState, env: Env): Outcome {
    match EntityOf(s, expected.data)
    case Err(e) => Outcome(s, d, Err(e))
    case Ok(entity) =>
      if entity.public != expected || expected.anchors == [] then Outcome(s, d, Err(Conflict))
      else if Viewed(s, expected.data) || Recalling(s, expected.data) then Outcome(s, d, Err(Busy))
      else if entity.published.None? then Outcome(s, d, Err(Conflict))
      else
        var layout := entity.published.value;
        match TransferLock(d, SourceLayout(layout), env.fault)
        case Err(e) => Outcome(s, d, Err(e))
        case Ok(_) =>
          var detached := Detach(entity);
          var mutated := s.(entities := s.entities[expected.data.entity.entity := detached],
                            gc := s.gc + [layout]);
          var (next, done) := Finish(mutated, ctx, expected.data, Release, detached.public);
          Outcome(next, d, if done.Ok? then Ok(StateReply(detached.public)) else Err(done.error))
  }

  function PrepareRecallEffect(s: State, d: Disk, ctx: OperationContext, expected: EntityState, anchor: ArchiveReceipt,
                               env: Env)
    : Outcome
  {
    match EntityOf(s, expected.data)
    case Err(e) => Outcome(s, d, Err(e))
    case Ok(entity) =>
      if entity.public != expected || entity.published.Some? || anchor !in entity.public.anchors
      then Outcome(s, d, Err(Conflict))
      else if Recalling(s, expected.data) then Outcome(s, d, Err(Busy))
      else
        var layout := SourceLayout(env.uuid);
        match NewLayout(d, layout, env.fault)
        case Err(e) => Outcome(s, d, Err(e))
        case Ok(d') =>
          var target := RecallTarget(expected.data, env.uuid, anchor.key, Endpoint(layout));
          Outcome(s.(recalls := s.recalls[target.layoutId := RecallOwner(ctx, target, anchor)]), d',
                  Ok(TargetReply(target)))
  }

  function Attached(entity: Entity, layout: string): Entity {
    Entity(entity.public.(residency := Dual, revision := entity.public.revision + 1), Some(layout))
  }

  function CommitRecallEffect(s: State, d: Disk, ctx: OperationContext, target: RecallTarget,
                              evidence: TransferEvidence, env: Env)
    : Outcome
  {
    var layout := SourceLayout(target.layoutId);
    if target.layoutId !in s.recalls then Outcome(s, d, Err(NotFound))
    else
      var owner := s.recalls[target.layoutId];
      if owner.context != ctx || owner.target != target then Outcome(s, d, Err(Fenced))
      else if DecodeEndpoint(target.destination).Err? then Outcome(s, d, Err(DecodeEndpoint(target.destination).error))
      else if DecodeEndpoint(target.destination).value != layout then Outcome(s, d, Err(Fenced))
      else if TransferLock(d, layout, env.fault).Err? then Outcome(s, d, Err(TransferLock(d, layout, env.fault).error))
      else
        match ReadPayload(d, layout, env.fault)
        case Err(e) => Outcome(s, d, Err(e))
        case Ok(actual) =>
          match EntityOf(s, target.data)
          case Err(e) => Outcome(s, d, Err(e))
          case Ok(entity) =>
            if entity.published.Some? || owner.anchor !in entity.public.anchors then Outcome(s, d, Err(Conflict))
            else if evidence != actual || actual != TransferEvidence(entity.public.length, entity.public.digest)
            then Outcome(s, d, Err(Integrity))
            else if env.fault.SyncFault? then Outcome(s, d, Err(Io))
            else
              var (d', sealed) := WriteSeal(SyncPayload(d, layout), layout, env.fault);
              if sealed.Err? then Outcome(s, d', Err(sealed.error))
              else
                var published := Attached(entity, target.layoutId);
                var mutated := s.(entities := s.entities[target.data.entity.entity := published],
                                  recalls := s.recalls - {target.layoutId});
                var (next, done) := Finish(mutated, ctx, target.data, Recall(target.archive), published.public);
                Outcome(next, d', if done.Ok? then Ok(StateReply(published.public)) else Err(done.error))
  }

  function Effect(s: State, d: Disk, ctx: OperationContext, req: Request, env: Env): Outcome {
    match req
    case PrepareArchive(data) => PrepareArchiveEffect(s, d, ctx, data, env)
    case CommitArchive(view, receipt) => CommitArchiveEffect(s, d, ctx, view, receipt, env)
    case ReleaseData(expected) => ReleaseEffect(s, d, ctx, expected, env)
    case PrepareRecall(expected, anchor) => PrepareRecallEffect(s, d, ctx, expected, anchor, env)
    case CommitRecall(target, evidence) => CommitRecallEffect(s, d, ctx, target, evidence, env)
  }

  // ---------- the step transaction ----------

  /** An open LocalStorage: its metadata file, its in-memory state and its poison flag. */
  datatype Store = Store(file: Replaceable<State>, state: State, poisoned: bool)

  datatype Called = Called(store: Store, disk: Disk, result: Result<Reply>)

  function Qualify(ctx: OperationContext): Result<()> {
    if !ctx.Valid() then Err(Invalid)
    else if ctx.controllerEpoch != 1 || ctx.attemptEpoch != 1 then Err(Unsupported)
    else Ok(())
  }

  /** write_json of `state.json`, then the swap; any failure poisons the handle. */
  function Persist(st: Store, next: State, fault: Fault): (Store, Result<()>) {
    match fault
    case PersistFault(true) => (Store(Replaceable(st.file.durable, next), st.state, true), Err(HsmError.Unknown))
    case PersistFault(false) => (st.(poisoned := true), Err(Io))
    case _ => (Store(Replaceable(next, next), next, false), Ok(()))
  }

  function Record(s: State, k: StepKey, saved: SavedStep): State {
    s.(steps := s.steps[k := saved])
  }

  function Replay(saved: SavedStep, req: Request): Result<Reply> {
    if saved.request != req then Err(Conflict) else saved.result
  }

  function Saved(st: Store, d: Disk, next: State, fault: Fault, result: Result<Reply>): Called {
    var (st', written) := Persist(st, next, fault);
    Called(st', d, if written.Ok? then result else Err(written.error))
  }

  function Call(st: Store, d: Disk, ctx: OperationContext, req: Request, env: Env): Called {
    var k := KeyOf(ctx, req);
    if Qualify(ctx).Err? then Called(st, d, Err(Qualify(ctx).error))
    else if st.poisoned then Called(st, d, Err(HsmError.Unknown))
    else if k in st.state.steps then Called(st, d, Replay(st.state.steps[k], req))
    else
      var out := Effect(st.state, d, ctx, req, env);
      match out.result
      case Err(e) =>
        if Definite(e)
        then Saved(st, out.disk, Record(st.state, k, SavedStep(req, Err(e))), env.fault, Err(e))
        else Called(st, out.disk, Err(e))
      case Ok(reply) =>
        Saved(st, out.disk, Record(out.state, k, SavedStep(req, Ok(reply))), env.fault, Ok(reply))
  }

  // ---------- import, read, inspect, completed ----------

  datatype Imported = Imported(store: Store, disk: Disk, result: Result<EntityState>)

  function NewEntity(s: State, id: string, layout: string, bytes: Bytes): Entity {
    var evidence := Measure(bytes);
    Entity(EntityState(DataKey(EntityKey(s.storageId, s.ns, id), 1), 1, Online, evidence.length, evidence.digest, []),
           Some(layout))
  }

  function Import(st: Store, d: Disk, id: string, bytes: Bytes, env: Env): Imported {
    var layout := SourceLayout(env.uuid);
    if id == "" then Imported(st, d, Err(Invalid))
    else if st.poisoned then Imported(st, d, Err(HsmError.Unknown))
    else if id in st.state.entities then Imported(st, d, Err(Conflict))
    else
      match NewLayout(d, layout, env.fault)
      case Err(e) => Imported(st, d, Err(e))
      case Ok(d1) =>
        var written := d1.(dirs := d1.dirs[layout := LayoutDir(Some(bytes), false, Unsealed, None)]);
        if env.fault.SyncFault? || env.fault.ReadFault? then Imported(st, written, Err(Io))
        else
          var (d2, sealed) := WriteSeal(SyncPayload(written, layout), layout, env.fault);
          if sealed.Err? then Imported(st, d2, Err(sealed.error))
          else
            var entity := NewEntity(st.state, id, env.uuid, bytes);
            var (st', saved) := Persist(st, st.state.(entities := st.state.entities[id := entity]), env.fault);
            Imported(st', d2, if saved.Ok? then Ok(entity.public) else Err(saved.error))
  }

  function Inspect(st: Store, key: EntityKey): Result<EntityState> {
    if st.poisoned then Err(HsmError.Unknown)
    else if !KnownKey(st.state, key) then Err(NotFound)
    else if key.entity !in st.state.entities then Err(NotFound)
    else Ok(st.state.entities[key.entity].public)
  }

  function Read(st: Store, d: Disk, key: EntityKey, fault: Fault): Result<Bytes> {
    if st.poisoned then Err(HsmError.Unknown)
    else if !KnownKey(st.state, key) then Err(NotFound)
    else if key.entity !in st.state.entities then Err(NotFound)
    else if st.state.entities[key.entity].published.None? then Err(Conflict)
    else
      var layout := SourceLayout(st.state.entities[key.entity].published.value);
      if fault.ReadFault? || layout !in d.dirs || d.dirs[layout].data.None? then Err(Io)
      else Ok(d.dirs[layout].data.value)
  }

  function QueryCompleted(st: Store, ctx: OperationContext, data: DataKey,
                          action: ManagedAction): Result<Option<EntityState>> {
    if Qualify(ctx).Err? then Err(Qualify(ctx).error)
    else if st.poisoned then Err(HsmError.Unknown)
    else if !KnownKey(st.state, data.entity) then Err(NotFound)
    else if ctx.operationId !in st.state.completed then Ok(None)
    else
      var prior := st.state.completed[ctx.operationId];
      if prior.context == ctx && prior.data == data
          && prior.action == action then Ok(Some(prior.state)) else Err(Conflict)
  }

  // ---------- collect_garbage ----------

  /** remove_dir_all of one listed layout. A failure may already have removed some files. */
  function RemoveOne(d: Disk, layout: string, faulty: bool, fault: Fault): (Disk, Result<()>) {
    var p := SourceLayout(layout);
    if p !in d.dirs then (d, Ok(()))
    else if d.dirs[p].holder.Some? then (d, Err(Busy))
    else if faulty && fault.RemoveFault? then
      var dir := d.dirs[p];
      var rest := LayoutDir(if fault.dataLeft then dir.data else None, dir.synced && fault.dataLeft,
                            if fault.sealLeft then dir.seal else Unsealed, None);
      (Disk(d.dirs[p := rest], d.unlinked + {p}), Err(Io))
    else (Disk(d.dirs - {p}, d.unlinked + {p}), Ok(()))
  }

  function RemoveAll(d: Disk, layouts: seq<string>, at: nat, fault: Fault): (Disk, Result<()>)
    decreases layouts
  {
    if layouts == [] then (d, Ok(()))
    else
      var (d', removed) := RemoveOne(d, layouts[0], fault.RemoveFault? && fault.at == at, fault);
      if removed.Err? then (d', removed) else RemoveAll(d', layouts[1..], at + 1, fault)
  }

  datatype Collected = Collected(store: Store, disk: Disk, result: Result<nat>)

  function CollectGarbage(st: Store, d: Disk, fault: Fault): Collected {
    if st.poisoned then Collected(st, d, Err(HsmError.Unknown))
    else
      var (d1, removed) := RemoveAll(d, st.state.gc, 0, fault);
      if removed.Err? then Collected(st, d1, Err(removed.error))
      else if fault.SyncFault? then Collected(st, d1, Err(Io))
      else
        var d2 := d1.(unlinked := set p | p in d1.unlinked && !p.SourceLayout?);
        var (st', saved) := Persist(st, st.state.(gc := []), fault);
        Collected(st', d2, if saved.Ok? then Ok(|st.state.gc|) else Err(saved.error))
  }
}
