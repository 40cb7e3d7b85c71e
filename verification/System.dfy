/**
 The whole protocol as one state machine: the source metadata and its handle, the layout
 directories of both roots, the archive catalog, and copy sessions that write chunk by chunk.
 Any client may call anything in any order, with any I/O failure and any restart. The one thing
 asked of clients is that commit_archive is given a receipt the archive has reported.
 */
module System {
  import opened Managed
  import opened Files
  import opened SourceState
  import opened SourceInvariants
  import opened SourceSteps
  import Cat = Catalog

  /** LocalStorage, or what is left of it after a crash, or after its handle is dropped, until it
      is reopened: its file. */
  datatype Source = Closed(file: Replaceable<State>) | Opened(store: Store)

  datatype Session = Session(source: Path, destination: Path)

  /** `issued` are the UUIDs drawn so far, `reported` the receipts the archive has answered with. */
  datatype World = World(
    source: Source,
    disk: Disk,
    catalog: Cat.Catalog,
    sessions: map<string, Session>,
    issued: set<string>,
    reported: set<ArchiveReceipt>)

  datatype Action =
    | DoImport(id: string, bytes: Bytes, env: Env)
    | DoCall(ctx: OperationContext, req: Request, env: Env)
    | DoCollect(env: Env)
    | DoInspect(key: ArchiveKey, env: Env)
    | DoPrepare(ctx: OperationContext, key: ArchiveKey, view: DataView, env: Env)
    | DoCommit(ctx: OperationContext, target: ArchiveTarget, view: DataView, evidence: TransferEvidence, env: Env)
    | DoResume(ctx: OperationContext, target: ArchiveTarget, view: DataView, env: Env)
    | DoOpen(receipt: ArchiveReceipt, env: Env)
    | CopyBegin(ctx: OperationContext, from: DataEndpoint, to: DataEndpoint, session: string, fault: Fault)
    | CopyWrite(session: string, data: Option<Bytes>)
    | CopyEnd(session: string)
    | Idle
    | Restart(disk: Disk, linked: map<ArchiveKey, Cat.CommittedFile>, attempts: map<Cat.AttemptKey, Cat.Prepared>,
          renameKept: bool)
    | Close
    | Reopen

  /** The handle; one that is closed answers nothing. */
  function Handle(w: World): Store {
    match w.source
    case Opened(store) => store
    case Closed(file) => Store(file, file.durable, true)
  }

  /** What the handle remembers. */
  function Memory(w: World): State {
    Handle(w).state
  }

  function FileOf(source: Source): Replaceable<State> {
    if source.Closed? then source.file else source.store.file
  }

  // ---------- the copy executor ----------

  /** Both session locks, then the seal fence. */
  function BeginCopy(d: Disk, ctx: OperationContext, from: DataEndpoint, to: DataEndpoint,
                     fault: Fault): Result<Session> {
    if !ctx.Valid() then Err(Invalid)
    else if DecodeEndpoint(from).Err? then Err(DecodeEndpoint(from).error)
    else if DecodeEndpoint(to).Err? then Err(DecodeEndpoint(to).error)
    else
      var source, destination := DecodeEndpoint(from).value, DecodeEndpoint(to).value;
      if source == destination then Err(Invalid)
      else if TransferLock(d, source, fault).Err? then Err(TransferLock(d, source, fault).error)
      else if TransferLock(d, destination, fault).Err? then Err(TransferLock(d, destination, fault).error)
      else if !d.dirs[destination].seal.Unsealed? then Err(Fenced)
      else Ok(Session(source, destination))
  }

  function WithHolder(d: Disk, p: Path, holder: Option<string>): Disk {
    if p in d.dirs then d.(dirs := d.dirs[p := d.dirs[p].(holder := holder)]) else d
  }

  function Hold(d: Disk, s: Session, holder: Option<string>): Disk {
    WithHolder(WithHolder(d, s.source, holder), s.destination, holder)
  }

  /** One chunk: the destination's payload becomes anything at all, and is not yet synced. */
  function WriteChunk(d: Disk, s: Session, data: Option<Bytes>): Disk {
    if s.destination in d.dirs
    then d.(dirs := d.dirs[s.destination := d.dirs[s.destination].(data := data, synced := false)])
    else d
  }

  // ---------- transitions ----------

  /** What the environment lets happen. */
  ghost predicate Possible(w: World, a: Action) {
    match a
    case DoImport(_, _, env) => w.source.Opened? && FreshId(w, env.uuid)
    case DoCall(_, _, env) => w.source.Opened? && FreshId(w, env.uuid)
    case DoCollect(_) => w.source.Opened?
    case DoInspect(_, _) => true
    case DoPrepare(_, _, _, env) => FreshId(w, env.uuid)
    case DoCommit(_, _, _, _, env) => FreshId(w, env.uuid)
    case DoResume(_, _, _, env) => FreshId(w, env.uuid)
    case DoOpen(_, _) => true
    case CopyBegin(_, _, _, session, _) => session !in w.sessions
    case CopyWrite(session, _) => session in w.sessions && w.sessions[session].destination in w.disk.dirs
    case CopyEnd(session) =>
      session in w.sessions && w.sessions[session].source in w.disk.dirs
          && w.sessions[session].destination in w.disk.dirs
    case Restart(disk, linked, attempts, _) =>
      && CrashDisk(w.disk, disk)
      && Extends(w.catalog.durable, linked) && Extends(linked, w.catalog.linked)
      && Extends(attempts, w.catalog.attempts)
    case Idle => true
    case Close => w.source.Opened?
    case Reopen => w.source.Closed?
  }

  /** What is asked of clients. */
  predicate Allowed(w: World, a: Action) {
    a.DoCall? && a.req.CommitArchive? ==> a.req.receipt in w.reported
  }

  ghost predicate Enabled(w: World, a: Action) {
    Possible(w, a) && Allowed(w, a)
  }

  predicate FreshId(w: World, uuid: string) {
    uuid != "" && uuid !in w.issued
  }

  function AfterArchive<T>(w: World, answer: Cat.Answer<T>, uuid: set<string>, receipts: set<ArchiveReceipt>): World {
    w.(catalog := answer.catalog, disk := answer.disk, issued := w.issued + uuid, reported := w.reported + receipts)
  }

  function StatusReceipts(result: Result<ArchiveStatus>): set<ArchiveReceipt> {
    if result.Ok? && result.value.Committed? then {result.value.receipt} else {}
  }

  function Receipts(result: Result<ArchiveReceipt>): set<ArchiveReceipt> {
    if result.Ok? then {result.value} else {}
  }

  function ResumedReceipts(result: Result<Option<ArchiveReceipt>>): set<ArchiveReceipt> {
    if result.Ok? && result.value.Some? then {result.value.value} else {}
  }

  function AfterSource(w: World, store: Store, disk: Disk, uuid: set<string>): World {
    w.(source := Opened(store), disk := disk, issued := w.issued + uuid)
  }

  ghost function Apply(w: World, a: Action): World {
    if Possible(w, a) then Applied(w, a) else w
  }

  ghost function Applied(w: World, a: Action): World
    requires Possible(w, a)
  {
    match a
    case DoImport(id, bytes, env) =>
      var r := Import(w.source.store, w.disk, id, bytes, env);
      AfterSource(w, r.store, r.disk, {env.uuid})
    case DoCall(ctx, req, env) =>
      var r := Call(w.source.store, w.disk, ctx, req, env);
      AfterSource(w, r.store, r.disk, {env.uuid})
    case DoCollect(env) =>
      var r := CollectGarbage(w.source.store, w.disk, env.fault);
      AfterSource(w, r.store, r.disk, {})
    case DoInspect(key, env) =>
      var r := Cat.Inspect(w.catalog, w.disk, key, env.fault);
      AfterArchive(w, r, {}, StatusReceipts(r.result))
    case DoPrepare(ctx, key, view, env) =>
      AfterArchive(w, Cat.Prepare(w.catalog, w.disk, ctx, key, view, env), {env.uuid}, {})
    case DoCommit(ctx, target, view, evidence, env) =>
      var r := Cat.Commit(w.catalog, w.disk, ctx, target, view, evidence, env);
      AfterArchive(w, r, {env.uuid}, Receipts(r.result))
    case DoResume(ctx, target, view, env) =>
      var r := Cat.ResumeCommit(w.catalog, w.disk, ctx, target, view, env);
      AfterArchive(w, r, {env.uuid}, ResumedReceipts(r.result))
    case DoOpen(receipt, env) =>
      var r := Cat.Open(w.catalog, w.disk, receipt, env.fault);
      AfterArchive(w, r, {}, if r.result.Ok? then {receipt} else {})
    case CopyBegin(ctx, from, to, session, fault) =>
      var r := BeginCopy(w.disk, ctx, from, to, fault);
      if r.Err? then w
      else w.(disk := Hold(w.disk, r.value, Some(session)), sessions := w.sessions[session := r.value])
    case CopyWrite(session, data) =>
      w.(disk := WriteChunk(w.disk, w.sessions[session], data))
    case CopyEnd(session) =>
      w.(disk := Hold(w.disk, w.sessions[session], None), sessions := w.sessions - {session})
    case Restart(disk, linked, attempts, renameKept) =>
      var file := FileOf(w.source);
      w.(source := Closed(Replaceable(file.durable, if renameKept then file.visible else file.durable)),
         disk := disk,
         catalog := w.catalog.(linked := linked, attempts := attempts),
         sessions := map[])
    case Idle => w
    case Close => w.(source := Closed(w.source.store.file))
    case Reopen =>
      var file := w.source.file;
      w.(source := Opened(Store(Replaceable(file.visible, file.visible), file.visible, false)))
  }

  /** A handle whose memory is its file. */
  predicate Healthy(w: World) {
    w.source.Opened? && !w.source.store.poisoned
  }

  function EmptyState(storageId: string, ns: string): State {
    State(storageId, ns, map[], map[], map[], map[], map[], [])
  }

  predicate FirstStore(store: Store) {
    var s := store.state;
    s == EmptyState(s.storageId, s.ns) && s.storageId != "" && s.ns != "" && store == Store(Replaceable(s, s), s, false)
  }

  predicate Init(w: World) {
    && w.source.Opened? && FirstStore(w.source.store)
    && w.disk == Disk(map[], {})
    && w.catalog == Cat.Catalog(w.catalog.id, map[], map[], map[])
    && w.sessions == map[] && w.reported == {}
  }

  // ---------- the system invariant ----------

  function Content(p: EntityState): TransferEvidence {
    TransferEvidence(p.length, p.digest)
  }

  predicate Open(d: Disk, p: Path) {
    p in d.dirs && d.dirs[p].seal.Unsealed?
  }

  predicate Runs(w: World, id: string, s: Session) {
    id in w.sessions && w.sessions[id] == s
  }

  predicate EntityBacked(d: Disk, c: Cat.Catalog, e: Entity) {
    && (e.published.Some? ==> Frozen(d, SourceLayout(e.published.value), Content(e.public)))
    && (forall a | a in e.public.anchors :: Cat.Reports(c, a.key, a))
  }

  /** An open recall's layout exists, and once sealed holds the entity's content. */
  predicate RecallBacked(s: State, d: Disk, l: string) {
    l in s.recalls &&
    var id := s.recalls[l].target.data.entity.entity;
    id in s.entities && Faithful(d, SourceLayout(l), Content(s.entities[id].public))
  }

  /** Every published layout is frozen at the entity's content, every anchor is durably committed
      in the archive, and every open recall is backed. */
  ghost predicate Backed(s: State, d: Disk, c: Cat.Catalog) {
    && (forall id | id in s.entities :: EntityBacked(d, c, s.entities[id]))
    && (forall l | l in s.recalls :: RecallBacked(s, d, l))
  }

  ghost predicate Named(s: State, issued: set<string>) {
    && s.views.Keys <= issued
    && s.recalls.Keys <= issued
    && (forall l | l in s.gc :: l in issued)
    && (forall id | id in s.entities && s.entities[id].published.Some? :: s.entities[id].published.value in issued)
  }

  predicate PathIssued(p: Path, issued: set<string>) {
    match p
    case SourceLayout(id) => id in issued
    case AttemptLayout(id) => id in issued
    case _ => false
  }

  ghost predicate DiskNamed(d: Disk, issued: set<string>) {
    && (forall p | p in d.dirs :: PathIssued(p, issued))
    && (forall p | p in d.unlinked :: PathIssued(p, issued) && p.SourceLayout?)
  }

  /** A layout GC may have removed is neither published nor a recall target. */
  ghost predicate Unwanted(s: State, d: Disk) {
    && (forall id | id in s.entities && s.entities[id].published.Some? ::
         SourceLayout(s.entities[id].published.value) !in d.unlinked)
    && (forall l | l in s.recalls :: SourceLayout(l) !in d.unlinked)
  }

  ghost predicate StateOk(s: State, w: World) {
    Inv(s) && Backed(s, w.disk, w.catalog) && Named(s, w.issued) && Unwanted(s, w.disk)
  }

  predicate SessionOk(d: Disk, id: string, s: Session) {
    && s.source != s.destination && s.source in d.dirs && s.destination in d.dirs
    && d.dirs[s.source].holder == Some(id)
    && d.dirs[s.destination].holder == Some(id)
    && d.dirs[s.destination].seal.Unsealed?
  }

  predicate HandleOk(source: Source) {
    source.Opened? ==>
      && source.store.state == source.store.file.durable
      && (!source.store.poisoned ==> source.store.file.visible == source.store.file.durable)
  }

  ghost predicate SystemInv(w: World) {
    && StateOk(FileOf(w.source).durable, w)
    && StateOk(FileOf(w.source).visible, w)
    && Evolves(FileOf(w.source).durable, FileOf(w.source).visible)
    && HandleOk(w.source)
    && Cat.CatalogInv(w.catalog, w.disk)
    && DiskNamed(w.disk, w.issued)
    && (forall id | id in w.sessions :: SessionOk(w.disk, id, w.sessions[id]))
    && (forall r | r in w.reported :: Cat.Reports(w.catalog, r.key, r))
  }
}
