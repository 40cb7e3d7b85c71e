/**
 LocalArchive: the write-once receipt catalog of one archive root. Receipts are published by
 hard link, so `linked` (what a lookup sees) only grows while the machine runs; `durable` is the
 part a crash cannot lose. Every call is one critical section of the archive's serial mutex.
 */
module Catalog {
  import opened Managed
  import opened Files

  datatype Prepared = Prepared(context: OperationContext, key: ArchiveKey, view: DataView, target: ArchiveTarget)

  datatype CommittedFile = CommittedFile(receipt: ArchiveReceipt, payload: DataEndpoint)

  /** What names an attempt file: the context with its controller epoch left out, and the key. */
  datatype AttemptKey = AttemptKey(operationId: string, attemptEpoch: nat, key: ArchiveKey)

  datatype Catalog = Catalog(
    id: string,
    attempts: map<AttemptKey, Prepared>,
    linked: map<ArchiveKey, CommittedFile>,
    durable: map<ArchiveKey, CommittedFile>)

  datatype Answer<T> = Answer(catalog: Catalog, disk: Disk, result: Result<T>)

  function AttemptOf(ctx: OperationContext, key: ArchiveKey): AttemptKey {
    AttemptKey(ctx.operationId, ctx.attemptEpoch, key)
  }

  predicate SameAttempt(a: OperationContext, b: OperationContext) {
    a.operationId == b.operationId && a.attemptEpoch == b.attemptEpoch
  }

  predicate OwnKey(id: string, key: ArchiveKey) {
    key.backend == id && key.objectId != ""
  }

  function Evidence(receipt: ArchiveReceipt): TransferEvidence {
    TransferEvidence(receipt.length, receipt.digest)
  }

  /** `committed`: a found receipt is verified against its payload, then everything linked so far
      is made durable by the directory sync. */
  function Lookup(c: Catalog, d: Disk, key: ArchiveKey, fault: Fault): Answer<Option<CommittedFile>> {
    if !OwnKey(c.id, key) then Answer(c, d, Err(Invalid))
    else if fault.LookupFault? then Answer(c, d, Err(Io))
    else if key !in c.linked then Answer(c, d, Ok(None))
    else
      var file := c.linked[key];
      if file.receipt.key != key then Answer(c, d, Err(Integrity))
      else
        match DecodeEndpoint(file.payload)
        case Err(e) => Answer(c, d, Err(e))
        case Ok(root) =>
          match ReadPayload(d, root, fault)
          case Err(e) => Answer(c, d, Err(e))
          case Ok(actual) =>
            if actual != Evidence(file.receipt) then Answer(c, d, Err(Integrity))
            else if fault.SyncFault? then Answer(c, d, Err(Io))
            else Answer(c.(durable := c.linked), SyncPayload(d, root), Ok(Some(file)))
  }

  function Inspect(c: Catalog, d: Disk, key: ArchiveKey, fault: Fault): Answer<ArchiveStatus> {
    var found := Lookup(c, d, key, fault);
    Answer(found.catalog, found.disk,
           if found.result.Err? then Err(found.result.error)
           else if found.result.value.None? then Ok(Absent)
           else Ok(Committed(found.result.value.value.receipt)))
  }

  /** A private layout, then the attempt file naming it. */
  function NewAttempt(c: Catalog, d: Disk, ctx: OperationContext, key: ArchiveKey, view: DataView,
                      env: Env): Answer<ArchiveTarget> {
    var layout := AttemptLayout(env.uuid);
    match NewLayout(d, layout, env.fault)
    case Err(e) => Answer(c, d, Err(e))
    case Ok(d') =>
      var target := ArchiveTarget(key, Endpoint(layout));
      var c' := c.(attempts := c.attempts[AttemptOf(ctx, key) := Prepared(ctx, key, view, target)]);
      match env.fault
      case PersistFault(true) => Answer(c', d', Err(HsmError.Unknown))
      case PersistFault(false) => Answer(c, d', Err(Io))
      case _ => Answer(c', d', Ok(target))
  }

  /** A new attempt gets a private layout; a repeated one gets its recorded target back. */
  function Prepare(c: Catalog, d: Disk, ctx: OperationContext, key: ArchiveKey, view: DataView,
                   env: Env): Answer<ArchiveTarget> {
    if !ctx.Valid() then Answer(c, d, Err(Invalid))
    else
      var found := Lookup(c, d, key, env.fault);
      if found.result.Err? then Answer(found.catalog, found.disk, Err(found.result.error))
      else if found.result.value.Some? then Answer(found.catalog, found.disk, Err(Conflict))
      else
        var a := AttemptOf(ctx, key);
        if a in c.attempts then
          var prior := c.attempts[a];
          if !SameAttempt(prior.context, ctx) || prior.key != key || prior.view != view
          then Answer(c, d, Err(Conflict))
          else Answer(c, d, Ok(prior.target))
        else
          NewAttempt(c, d, ctx, key, view, env)
  }

  /** publish_receipt after the seal: a failed directory sync leaves the link visible. */
  function Publish(c: Catalog, d: Disk, file: CommittedFile, fault: Fault): Answer<ArchiveReceipt> {
    var linked := c.linked[file.receipt.key := file];
    match fault
    case PersistFault(true) => Answer(c.(linked := linked), d, Err(HsmError.Unknown))
    case PersistFault(false) => Answer(c, d, Err(Io))
    case _ => Answer(c.(linked := linked, durable := linked), d, Ok(file.receipt))
  }

  predicate Describes(receipt: ArchiveReceipt, view: DataView) {
    receipt.data == view.data && receipt.length == view.length && receipt.digest == view.digest
  }

  /** The part of `commit` after the lookup found nothing: verify, sync, seal, publish. */
  function SealAndPublish(c: Catalog, d: Disk, target: ArchiveTarget, view: DataView, evidence: TransferEvidence,
                          env: Env)
    : Answer<ArchiveReceipt>
  {
    match DecodeEndpoint(target.destination)
    case Err(e) => Answer(c, d, Err(e))
    case Ok(root) =>
      if TransferLock(d, root, env.fault).Err? then Answer(c, d, Err(TransferLock(d, root, env.fault).error))
      else
        match ReadPayload(d, root, env.fault)
        case Err(e) => Answer(c, d, Err(e))
        case Ok(actual) =>
          if actual != TransferEvidence(view.length, view.digest)
              || evidence != actual then Answer(c, d, Err(Integrity))
          else if env.fault.SyncFault? then Answer(c, d, Err(Io))
          else
            var (d', sealed) := WriteSeal(SyncPayload(d, root), root, env.fault);
            if sealed.Err? then Answer(c, d', Err(sealed.error))
            else
              var receipt :=
                  ArchiveReceipt(target.key, view.data, actual.length, actual.digest, env.uuid, LOCAL_PROFILE);
              Publish(c, d', CommittedFile(receipt, target.destination), env.fault)
  }

  predicate OwnsAttempt(prior: Prepared, ctx: OperationContext, target: ArchiveTarget, view: DataView) {
    SameAttempt(prior.context, ctx) && prior.target == target && prior.view == view
  }

  function Commit(c: Catalog, d: Disk, ctx: OperationContext, target: ArchiveTarget, view: DataView,
                  evidence: TransferEvidence, env: Env)
    : Answer<ArchiveReceipt>
  {
    var a := AttemptOf(ctx, target.key);
    if !ctx.Valid() then Answer(c, d, Err(Invalid))
    else if a !in c.attempts then Answer(c, d, Err(Io))
    else if !OwnsAttempt(c.attempts[a], ctx, target, view) then Answer(c, d, Err(Conflict))
    else
      var found := Lookup(c, d, target.key, env.fault);
      if found.result.Err? then Answer(found.catalog, found.disk, Err(found.result.error))
      else if found.result.value.Some? then
        var receipt := found.result.value.value.receipt;
        Answer(found.catalog, found.disk, if Describes(receipt, view) then Ok(receipt) else Err(Conflict))
      else SealAndPublish(c, d, target, view, evidence, env)
  }

  /** Continues an attempt whose payload was sealed but whose receipt was not reported. */
  function ResumeCommit(c: Catalog, d: Disk, ctx: OperationContext, target: ArchiveTarget, view: DataView, env: Env)
    : Answer<Option<ArchiveReceipt>>
  {
    match DecodeEndpoint(target.destination)
    case Err(e) => Answer(c, d, Err(e))
    case Ok(root) =>
      if root !in d.dirs || d.dirs[root].seal.Unsealed? then Answer(c, d, Ok(None))
      else
        var done := Commit(c, d, ctx, target, view, TransferEvidence(view.length, view.digest), env);
        Answer(done.catalog, done.disk, if done.result.Ok? then Ok(Some(done.result.value)) else Err(done.result.error))
  }

  function Open(c: Catalog, d: Disk, receipt: ArchiveReceipt, fault: Fault): Answer<DataEndpoint> {
    var found := Lookup(c, d, receipt.key, fault);
    Answer(found.catalog, found.disk,
           if found.result.Err? then Err(found.result.error)
           else if found.result.value.None? then Err(NotFound)
           else if found.result.value.value.receipt != receipt then Err(Integrity)
           else Ok(found.result.value.value.payload))
  }

  // ---------- invariant ----------

  /** A receipt file whose payload layout is frozen at exactly what the receipt says. */
  predicate Backs(id: string, d: Disk, key: ArchiveKey, file: CommittedFile) {
    && file.receipt.key == key && OwnKey(id, key)
    && file.receipt.receiptId != "" && file.receipt.durabilityProfile == LOCAL_PROFILE
    && DecodeEndpoint(file.payload).Ok?
    && DecodeEndpoint(file.payload).value.AttemptLayout?
    && Frozen(d, DecodeEndpoint(file.payload).value, Evidence(file.receipt))
  }

  predicate AttemptOk(d: Disk, a: AttemptKey, p: Prepared) {
    && p.target.key == p.key == a.key
    && p.context.operationId == a.operationId && p.context.attemptEpoch == a.attemptEpoch
    && DecodeEndpoint(p.target.destination).Ok?
    && RootOf(p).AttemptLayout? && p.target.destination == Endpoint(RootOf(p))
    && Faithful(d, RootOf(p), ViewContent(p.view))
  }

  function ViewContent(view: DataView): TransferEvidence {
    TransferEvidence(view.length, view.digest)
  }

  function RootOf(p: Prepared): Path {
    var root := DecodeEndpoint(p.target.destination);
    if root.Ok? then root.value else Absolute("")
  }

  function RootAt(c: Catalog, a: AttemptKey): Path {
    if a in c.attempts then RootOf(c.attempts[a]) else Absolute("")
  }

  /** No two attempts write to the same layout. */
  ghost predicate PrivateRoots(attempts: map<AttemptKey, Prepared>) {
    forall a, b | a in attempts && b in attempts && attempts[a].target.destination == attempts[b].target.destination ::
          a == b
  }

  ghost predicate CatalogInv(c: Catalog, d: Disk) {
    && (forall k | k in c.linked :: Backs(c.id, d, k, c.linked[k]))
    && Extends(c.durable, c.linked)
    && (forall a | a in c.attempts :: AttemptOk(d, a, c.attempts[a]))
    && PrivateRoots(c.attempts)
  }

  /** The catalog only grows, and what is durable stays. */
  ghost predicate Grows(c: Catalog, c': Catalog) {
    && c'.id == c.id
    && Extends(c.linked, c'.linked)
    && Extends(c.durable, c'.durable)
  }

  /** What one catalog call keeps. */
  ghost predicate Sound(c: Catalog, d: Disk, c': Catalog, d': Disk) {
    CatalogInv(c', d') && Grows(c, c') && Keeps(d, d') && d'.unlinked == d.unlinked
  }

  predicate Reports(c: Catalog, key: ArchiveKey, receipt: ArchiveReceipt) {
    key in c.durable && c.durable[key].receipt == receipt
  }

  lemma DiskKeepsCatalog(c: Catalog, d: Disk, d': Disk)
    requires CatalogInv(c, d) && forall p | p in d.dirs && p.AttemptLayout? :: Undisturbed(d, d', p)
    ensures CatalogInv(c, d')
  {
    forall k | k in c.linked ensures Backs(c.id, d', k, c.linked[k]) { assert Backs(c.id, d, k, c.linked[k]); }
    forall a | a in c.attempts ensures AttemptOk(d', a, c.attempts[a]) { assert AttemptOk(d, a, c.attempts[a]); }
  }

  // ---------- the few ways a call changes the files ----------

  datatype Move =
    | Same
    | Verified(root: Path)
    | LaidOut(id: string)
    | Attempted(id: string, attempt: AttemptKey, prepared: Prepared)
    | Sealed(attempt: AttemptKey, seal: Seal)
    | Published(attempt: AttemptKey, file: CommittedFile, synced: bool)

  predicate Legal(c: Catalog, d: Disk, m: Move) {
    match m
    case Same => true
    case Verified(root) => root in d.dirs && root.AttemptLayout?
    case LaidOut(id) => AttemptLayout(id) !in d.dirs
    case Attempted(id, a, p) =>
      AttemptLayout(id) !in d.dirs && a !in c.attempts && AttemptOk(WithLayout(d, id), a, p)
      && p.target.destination == Endpoint(AttemptLayout(id))
    case Sealed(a, seal) =>
      Sealable(c, d, a)
      && (seal.Unsealed? ==> d.dirs[RootOf(c.attempts[a])].seal.Unsealed?)
      && (d.dirs[RootOf(c.attempts[a])].seal.SealDurable? ==> seal.SealDurable?)
    case Published(a, file, _) =>
      Sealable(c, d, a) && file.receipt.key !in c.linked
      && Backs(c.id, SealedDisk(d, RootOf(c.attempts[a]), SealDurable), file.receipt.key, file)
  }

  /** The attempt's own layout is free and holds exactly what the attempt's view describes. */
  predicate Sealable(c: Catalog, d: Disk, a: AttemptKey) {
    a in c.attempts && AttemptOk(d, a, c.attempts[a]) &&
    var dir := d.dirs[RootOf(c.attempts[a])];
    dir.holder.None? && dir.data.Some? && Measure(dir.data.value) == ViewContent(c.attempts[a].view)
  }

  function WithLayout(d: Disk, id: string): Disk {
    d.(dirs := d.dirs[AttemptLayout(id) := EMPTY_LAYOUT])
  }

  function SealedDisk(d: Disk, root: Path, seal: Seal): Disk {
    if root in d.dirs then d.(dirs := d.dirs[root := d.dirs[root].(synced := true, seal := seal)]) else d
  }

  function Moved(c: Catalog, d: Disk, m: Move): (Catalog, Disk) {
    match m
    case Same => (c, d)
    case Verified(root) => (c.(durable := c.linked), SyncPayload(d, root))
    case LaidOut(id) => (c, WithLayout(d, id))
    case Attempted(id, a, p) => (c.(attempts := c.attempts[a := p]), WithLayout(d, id))
    case Sealed(a, seal) => (c, SealedDisk(d, RootAt(c, a), seal))
    case Published(a, file, synced) =>
      var linked := c.linked[file.receipt.key := file];
      (c.(linked := linked, durable := if synced then linked else c.durable),
       SealedDisk(d, RootAt(c, a), SealDurable))
  }

  lemma MoveKeepsDisk(c: Catalog, d: Disk, m: Move)
    requires Legal(c, d, m)
    ensures Keeps(d, Moved(c, d, m).1) && Moved(c, d, m).1.unlinked == d.unlinked
  {
  }

  lemma MoveGrows(c: Catalog, d: Disk, m: Move)
    requires Extends(c.durable, c.linked) && Legal(c, d, m)
    ensures Grows(c, Moved(c, d, m).0) && Extends(Moved(c, d, m).0.durable, Moved(c, d, m).0.linked)
  {
    if m.Published? {
      UpdateExtends(c.linked, m.file.receipt.key, m.file);
      ExtendsTransitive(c.durable, c.linked, c.linked[m.file.receipt.key := m.file]);
    }
  }

  /** Source layouts are no business of the archive. */
  lemma MoveSparesSource(c: Catalog, d: Disk, m: Move)
    requires Legal(c, d, m)
    ensures forall p | p in d.dirs && p.SourceLayout? ::
              p in Moved(c, d, m).1.dirs && Moved(c, d, m).1.dirs[p] == d.dirs[p]
  {
  }

  lemma MoveKeepsLinked(c: Catalog, d: Disk, m: Move)
    requires (forall k | k in c.linked :: Backs(c.id, d, k, c.linked[k])) && Legal(c, d, m)
    ensures var (c', d') := Moved(c, d, m); forall k | k in c'.linked :: Backs(c'.id, d', k, c'.linked[k])
  {
    MoveKeepsDisk(c, d, m);
    var (c', d') := Moved(c, d, m);
    forall k | k in c'.linked ensures Backs(c'.id, d', k, c'.linked[k]) {
      if k in c.linked { assert Backs(c.id, d, k, c.linked[k]); }
    }
  }

  lemma MoveKeepsAttempts(c: Catalog, d: Disk, m: Move)
    requires (forall a | a in c.attempts :: AttemptOk(d, a, c.attempts[a])) && PrivateRoots(c.attempts)
             && Legal(c, d, m)
    ensures var (c', d') := Moved(c, d, m);
            (forall a | a in c'.attempts :: AttemptOk(d', a, c'.attempts[a])) && PrivateRoots(c'.attempts)
  {
    var (c', d') := Moved(c, d, m);
    forall a | a in c'.attempts ensures AttemptOk(d', a, c'.attempts[a]) {
      if a in c.attempts { assert AttemptOk(d, a, c.attempts[a]); }
    }
  }

  lemma MoveSound(c: Catalog, d: Disk, m: Move)
    requires CatalogInv(c, d) && Legal(c, d, m)
    ensures Sound(c, d, Moved(c, d, m).0, Moved(c, d, m).1)
  {
    MoveGrows(c, d, m);
    MoveKeepsDisk(c, d, m);
    MoveKeepsLinked(c, d, m);
    MoveKeepsAttempts(c, d, m);
  }

  lemma LookupMoves(c: Catalog, d: Disk, key: ArchiveKey, fault: Fault) returns (m: Move)
    requires key in c.linked ==> Backs(c.id, d, key, c.linked[key])
    ensures var r := Lookup(c, d, key, fault);
            Legal(c, d, m) && (r.catalog, r.disk) == Moved(c, d, m) && (m.Same? || m.Verified?)
            && (r.result.Err? ==> m.Same?)
            && (r.result.Ok? && r.result.value.None? ==> m.Same? && key !in c.linked && OwnKey(c.id, key))
            && (r.result.Ok? && r.result.value.Some? ==>
                  m.Verified? && key in c.linked && r.result.value.value == c.linked[key]
                  && Reports(r.catalog, key, c.linked[key].receipt))
  {
    var r := Lookup(c, d, key, fault);
    m := if r.result.Ok? && r.result.value.Some? then Verified(DecodeEndpoint(c.linked[key].payload).value) else Same;
  }

  lemma PrepareMoves(c: Catalog, d: Disk, ctx: OperationContext, key: ArchiveKey, view: DataView, env: Env)
      returns (m: Move)
    requires key in c.linked ==> Backs(c.id, d, key, c.linked[key])
    requires AttemptOf(ctx, key) in c.attempts ==> AttemptOk(d, AttemptOf(ctx, key), c.attempts[AttemptOf(ctx, key)])
    ensures var r := Prepare(c, d, ctx, key, view, env);
            Legal(c, d, m) && (r.catalog, r.disk) == Moved(c, d, m)
            && (m.Same? || m.Verified? || (m.LaidOut? && m.id == env.uuid) || (m.Attempted? && m.id == env.uuid))
            && (m.Attempted? ==> m.attempt == AttemptOf(ctx, key) && m.prepared.view == view)
            && (r.result.Ok? ==> r.result.value.key == key)
  {
    m := LookupMoves(c, d, key, env.fault);
    if !ctx.Valid() {
      m := Same;
    } else if Lookup(c, d, key, env.fault).result == Ok(None) && AttemptOf(ctx, key) !in c.attempts {
      m := NewAttemptMoves(c, d, ctx, key, view, env);
    }
  }

  lemma NewAttemptMoves(c: Catalog, d: Disk, ctx: OperationContext, key: ArchiveKey, view: DataView, env: Env)
      returns (m: Move)
    requires AttemptOf(ctx, key) !in c.attempts
    ensures var r := NewAttempt(c, d, ctx, key, view, env);
            Legal(c, d, m) && (r.catalog, r.disk) == Moved(c, d, m)
            && (m.Same? || (m.LaidOut? && m.id == env.uuid) || (m.Attempted? && m.id == env.uuid))
            && (m.Attempted? ==> m.attempt == AttemptOf(ctx, key) && m.prepared.view == view)
            && (r.result.Ok? ==> r.result.value.key == key)
  {
    var layout := AttemptLayout(env.uuid);
    var p := Prepared(ctx, key, view, ArchiveTarget(key, Endpoint(layout)));
    m := if env.fault.LayoutFault? || layout in d.dirs then Same
         else if env.fault == PersistFault(false) then LaidOut(env.uuid)
         else Attempted(env.uuid, AttemptOf(ctx, key), p);
  }

  lemma SealAndPublishMoves(c: Catalog, d: Disk, a: AttemptKey, view: DataView, evidence: TransferEvidence, env: Env)
    returns (m: Move)
    requires env.uuid != "" && OwnKey(c.id, a.key) && a.key !in c.linked
    requires a in c.attempts && AttemptOk(d, a, c.attempts[a]) && c.attempts[a].view == view
    ensures var r := SealAndPublish(c, d, c.attempts[a].target, view, evidence, env);
            Legal(c, d, m) && (r.catalog, r.disk) == Moved(c, d, m) && (m.Same? || m.Sealed? || m.Published?)
            && (m.Published? ==> m.file.receipt.key == a.key && Describes(m.file.receipt, view))
            && (r.result.Ok? ==>
                 m.Published? && Reports(r.catalog, a.key, r.result.value) && Describes(r.result.value, view))
  {
    var target := c.attempts[a].target;
    var r := SealAndPublish(c, d, target, view, evidence, env);
    var root := RootOf(c.attempts[a]);
    m := Same;
    if TransferLock(d, root, env.fault).Ok? && ReadPayload(d, root, env.fault).Ok? {
      var actual := Measure(d.dirs[root].data.value);
      if actual == TransferEvidence(view.length, view.digest) && evidence == actual && !env.fault.SyncFault? {
        var receipt := ArchiveReceipt(target.key, view.data, actual.length, actual.digest, env.uuid, LOCAL_PROFILE);
        var file := CommittedFile(receipt, target.destination);
        var flushed := SyncPayload(d, root);
        assert forall seal :: flushed.dirs[root := flushed.dirs[root].(seal := seal)] == SealedDisk(d, root, seal).dirs;
        assert flushed.dirs == SealedDisk(d, root, d.dirs[root].seal).dirs;
        match env.fault
        case SealFault(true) => m := Sealed(a, if d.dirs[root].seal.SealDurable? then SealDurable else SealLinked);
        case SealFault(false) => m := Sealed(a, d.dirs[root].seal);
        case PersistFault(false) => m := Sealed(a, SealDurable);
        case PersistFault(true) => m := Published(a, file, false);
        case _ => m := Published(a, file, true);
      }
    }
  }

  lemma CommitMoves(c: Catalog, d: Disk, ctx: OperationContext, target: ArchiveTarget, view: DataView,
                    evidence: TransferEvidence, env: Env)
    returns (m: Move)
    requires env.uuid != ""
    requires target.key in c.linked ==> Backs(c.id, d, target.key, c.linked[target.key])
    requires AttemptOf(ctx, target.key) in c.attempts ==>
               AttemptOk(d, AttemptOf(ctx, target.key), c.attempts[AttemptOf(ctx, target.key)])
    ensures var r := Commit(c, d, ctx, target, view, evidence, env);
            Legal(c, d, m) && (r.catalog, r.disk) == Moved(c, d, m) && !m.LaidOut? && !m.Attempted?
            && (m.Published? ==> m.file.receipt.key == target.key && Describes(m.file.receipt, view))
            && (r.result.Ok? ==> Reports(r.catalog, target.key, r.result.value) && Describes(r.result.value, view))
  {
    var a := AttemptOf(ctx, target.key);
    m := LookupMoves(c, d, target.key, env.fault);
    if ctx.Valid() && a in c.attempts && OwnsAttempt(c.attempts[a], ctx, target, view) {
      if Lookup(c, d, target.key, env.fault).result == Ok(None) {
        m := SealAndPublishMoves(c, d, a, view, evidence, env);
      }
    } else {
      m := Same;
    }
  }

  /** Takeover. Once an attempt is prepared, a controller of any epoch that names the same attempt
      and view is given the same target and owns it for commit and resume; one that names another
      view is refused. */
  lemma TakeoverContinuesAttempt(c: Catalog, d: Disk, ctx: OperationContext, key: ArchiveKey, view: DataView, env: Env,
                                 next: OperationContext, other: DataView, env': Env)
    requires Prepare(c, d, ctx, key, view, env).result.Ok?
    requires AttemptOf(ctx, key) in c.attempts ==> AttemptOk(d, AttemptOf(ctx, key), c.attempts[AttemptOf(ctx, key)])
    requires next.Valid() && SameAttempt(ctx, next) && env'.fault.Clean?
    ensures var r := Prepare(c, d, ctx, key, view, env);
            && r.result.value.key == key
            && Prepare(r.catalog, r.disk, next, key, other, env').result
               == (if other == view then r.result else Err(Conflict))
            && OwnsAttempt(r.catalog.attempts[AttemptOf(next, key)], next, r.result.value, view)
  {
    var r := Prepare(c, d, ctx, key, view, env);
    assert AttemptOf(next, key) == AttemptOf(ctx, key);
    assert key !in r.catalog.linked && OwnKey(r.catalog.id, key);
  }

  // ---------- what a call answers ----------

  /** What a lookup without faults answers, and that it leaves the disk as it is. */
  lemma LookupAnswers(c: Catalog, d: Disk, key: ArchiveKey)
    requires CatalogInv(c, d)
    ensures var r := Inspect(c, d, key, Clean);
            && r.result == (if !OwnKey(c.id, key) then Err(Invalid)
                            else if key !in c.linked then Ok(Absent)
                            else Ok(Committed(c.linked[key].receipt)))
            && r.disk == d
    ensures key in c.linked ==> Backs(c.id, d, key, c.linked[key])
  {
    if key in c.linked {
      assert Backs(c.id, d, key, c.linked[key]);
      var root := DecodeEndpoint(c.linked[key].payload).value;
      assert d.dirs[root := d.dirs[root].(synced := true)] == d.dirs;
    }
  }

  /** A prepare without faults is refused exactly for a bad context or key, for a key with a receipt,
      and for an attempt made with another view. It answers with the attempt's own target, or else
      with a new layout. */
  lemma PrepareDecides(c: Catalog, d: Disk, ctx: OperationContext, key: ArchiveKey, view: DataView, uuid: string)
    requires CatalogInv(c, d) && AttemptLayout(uuid) !in d.dirs
    ensures var r, a := Prepare(c, d, ctx, key, view, Env(Clean, uuid)).result, AttemptOf(ctx, key);
            && (r == Err(Invalid) <==> !ctx.Valid() || !OwnKey(c.id, key))
            && (ctx.Valid() && OwnKey(c.id, key) ==>
                  && (r == Err(Conflict) <==> key in c.linked || (a in c.attempts && c.attempts[a].view != view))
                  && (r != Err(Conflict) ==>
                        r == Ok(if a in c.attempts then c.attempts[a].target
                                else ArchiveTarget(key, Endpoint(AttemptLayout(uuid))))))
  {
    LookupAnswers(c, d, key);
    if AttemptOf(ctx, key) in c.attempts {
      assert AttemptOk(d, AttemptOf(ctx, key), c.attempts[AttemptOf(ctx, key)]);
    }
  }

  /** A commit without faults by the attempt's owner answers with the key's receipt if it describes
      the view, whatever has become of the layout. If there is none it makes one, exactly if no copy
      holds the layout, which has just the view's content, and the evidence says so. */
  lemma CommitDecides(c: Catalog, d: Disk, ctx: OperationContext, target: ArchiveTarget, view: DataView,
                      evidence: TransferEvidence, uuid: string)
    requires CatalogInv(c, d) && ctx.Valid() && OwnKey(c.id, target.key)
    ensures var r, a := Commit(c, d, ctx, target, view, evidence, Env(Clean, uuid)).result, AttemptOf(ctx, target.key);
            if a !in c.attempts then r == Err(Io)
            else if !OwnsAttempt(c.attempts[a], ctx, target, view) then r == Err(Conflict)
            else if target.key in c.linked then
              var receipt := c.linked[target.key].receipt;
              r == if Describes(receipt, view) then Ok(receipt) else Err(Conflict)
            else
              var dir := d.dirs[RootOf(c.attempts[a])];
              && (r == Err(Busy) <==> dir.holder.Some?)
              && (r == Err(Io) <==> dir.holder.None? && dir.data.None?)
              && (r.Ok? <==> Sealable(c, d, a) && evidence == ViewContent(view))
              && (r.Ok? ==> Describes(r.value, view) && r.value.key == target.key && r.value.receiptId == uuid)
  {
    LookupAnswers(c, d, target.key);
    var a := AttemptOf(ctx, target.key);
    if a in c.attempts { assert AttemptOk(d, a, c.attempts[a]); }
  }

  /** A resume of the owner's without faults is the commit, unless its layout is gone or unsealed. */
  lemma ResumeDecides(c: Catalog, d: Disk, ctx: OperationContext, target: ArchiveTarget, view: DataView, uuid: string)
    requires CatalogInv(c, d) && ctx.Valid() && OwnKey(c.id, target.key)
    requires var a := AttemptOf(ctx, target.key); a in c.attempts && OwnsAttempt(c.attempts[a], ctx, target, view)
    ensures var r := ResumeCommit(c, d, ctx, target, view, Env(Clean, uuid)).result;
            var dir := d.dirs[RootOf(c.attempts[AttemptOf(ctx, target.key)])];
            && (r == Ok(None) <==> dir.seal.Unsealed?)
            && (!dir.seal.Unsealed? && target.key !in c.linked && dir.holder.None? ==>
                  r.Ok? && r.value.Some? && Describes(r.value.value, view))
            && (!dir.seal.Unsealed? && target.key in c.linked && Describes(c.linked[target.key].receipt, view) ==>
                  r == Ok(Some(c.linked[target.key].receipt)))
  {
    var a := AttemptOf(ctx, target.key);
    assert AttemptOk(d, a, c.attempts[a]);
    CommitDecides(c, d, ctx, target, view, ViewContent(view), uuid);
  }

  /** An open without faults gives exactly a linked receipt's payload, frozen at what it says. */
  lemma OpenDecides(c: Catalog, d: Disk, receipt: ArchiveReceipt)
    requires CatalogInv(c, d) && OwnKey(c.id, receipt.key)
    ensures var r := Open(c, d, receipt, Clean).result;
            && (r == Err(NotFound) <==> receipt.key !in c.linked)
            && (r == Err(Integrity) <==> receipt.key in c.linked && c.linked[receipt.key].receipt != receipt)
            && (r.Ok? <==> receipt.key in c.linked && c.linked[receipt.key].receipt == receipt)
            && (r.Ok? ==> DecodeEndpoint(r.value).Ok? && Frozen(d, DecodeEndpoint(r.value).value, Evidence(receipt)))
  {
    LookupAnswers(c, d, receipt.key);
  }

  lemma FaultsHideLookup(c: Catalog, d: Disk, key: ArchiveKey, fault: Fault)
    ensures var r, clean := Lookup(c, d, key, fault), Lookup(c, d, key, Clean);
            Hides(r.result, clean.result) && (clean.result == Ok(None) ==> (clean.catalog, clean.disk) == (c, d))
            && (r.result == Ok(None) ==> (r.catalog, r.disk) == (c, d))
  {
  }

  lemma FaultsHidePrepare(c: Catalog, d: Disk, ctx: OperationContext, key: ArchiveKey, view: DataView, env: Env)
    ensures Hides(Prepare(c, d, ctx, key, view, env).result,
                  Prepare(c, d, ctx, key, view, Env(Clean, env.uuid)).result)
  {
    FaultsHideLookup(c, d, key, env.fault);
  }

  lemma FaultsHideCommit(c: Catalog, d: Disk, ctx: OperationContext, target: ArchiveTarget, view: DataView,
                         evidence: TransferEvidence, env: Env)
    ensures Hides(Commit(c, d, ctx, target, view, evidence, env).result,
                  Commit(c, d, ctx, target, view, evidence, Env(Clean, env.uuid)).result)
  {
    FaultsHideLookup(c, d, target.key, env.fault);
    assert Hides(SealAndPublish(c, d, target, view, evidence, env).result,
                 SealAndPublish(c, d, target, view, evidence, Env(Clean, env.uuid)).result);
  }

  /** An I/O failure hides an answer of the archive, as Io or Unknown; it never makes another one up. */
  lemma FaultsHideAnswers(c: Catalog, d: Disk, ctx: OperationContext, key: ArchiveKey, target: ArchiveTarget,
                          view: DataView, evidence: TransferEvidence, receipt: ArchiveReceipt, env: Env)
    ensures Hides(Inspect(c, d, key, env.fault).result, Inspect(c, d, key, Clean).result)
    ensures Hides(Prepare(c, d, ctx, key, view, env).result,
                  Prepare(c, d, ctx, key, view, Env(Clean, env.uuid)).result)
    ensures Hides(Commit(c, d, ctx, target, view, evidence, env).result,
                  Commit(c, d, ctx, target, view, evidence, Env(Clean, env.uuid)).result)
    ensures Hides(ResumeCommit(c, d, ctx, target, view, env).result,
                  ResumeCommit(c, d, ctx, target, view, Env(Clean, env.uuid)).result)
    ensures Hides(Open(c, d, receipt, env.fault).result, Open(c, d, receipt, Clean).result)
  {
    FaultsHideLookup(c, d, key, env.fault);
    FaultsHidePrepare(c, d, ctx, key, view, env);
    FaultsHideCommit(c, d, ctx, target, view, evidence, env);
    FaultsHideCommit(c, d, ctx, target, view, ViewContent(view), env);
    FaultsHideLookup(c, d, receipt.key, env.fault);
  }
}
