/**
 The file protocol of util.rs: private layout directories with their advisory transfer lock,
 the seal file, and replace-by-rename metadata files. Each value distinguishes what a reader
 sees now from what survives a crash.
 */
module Files {
  import opened Managed

  /** Where one call meets its first I/O failure. A crash inside a call leaves the files that a
      failure at the same point leaves, so a crash is a faulted call followed by a restart. */
  datatype Fault =
    | Clean
    | LookupFault
    | LayoutFault
    | LockFault
    | ReadFault
    | SyncFault
    | SealFault(sealRenamed: bool)
    | PersistFault(renamed: bool)
    | RemoveFault(at: nat, dataLeft: bool, sealLeft: bool)

  /** The answer under a fault says no more than that the outcome is uncertain, or it is the answer
      without one. */
  ghost predicate Hides<T>(r: Result<T>, clean: Result<T>) {
    r == clean || r == Err(Io) || r == Err(HsmError.Unknown)
  }

  /** One call's share of the environment: its first fault and the UUID it would draw. */
  datatype Env = Env(fault: Fault, uuid: string)

  /** A file replaced by write_json: `visible` is what a reader gets, `durable` what is certain
      to survive a crash. They differ only after a rename whose directory sync failed. */
  datatype Replaceable<T> = Replaceable(durable: T, visible: T)

  datatype Seal = Unsealed | SealLinked | SealDurable

  /** A layout directory. `synced` says that the present data survives a crash. */
  datatype LayoutDir = LayoutDir(data: Option<Bytes>, synced: bool, seal: Seal, holder: Option<string>)

  /** `unlinked` holds directories removed, or partly removed, since the last sync of their parent. */
  datatype Disk = Disk(dirs: map<Path, LayoutDir>, unlinked: set<Path>)

  /** Stands for BLAKE3: only injectivity and a nonempty value are ever used of it. */
  function Digest(bytes: Bytes): ContentDigest {
    ContentDigest("blake3", [0] + bytes)
  }

  lemma DigestIsInjective(a: Bytes, b: Bytes)
    requires Digest(a) == Digest(b)
    ensures a == b
  {
    assert a == Digest(a).value[1..] && b == Digest(b).value[1..];
  }

  function Measure(bytes: Bytes): TransferEvidence {
    TransferEvidence(|bytes|, Digest(bytes))
  }

  /** Reads in bounded buffers of whatever size the system returns, hashing incrementally. */
  method DigestFile(file: Bytes) returns (evidence: TransferEvidence)
    ensures evidence == Measure(file)
  {
    var hashed: Bytes := [];
    var size := 0;
    while size < |file|
      invariant size == |hashed| <= |file|
      invariant hashed == file[..size]
    {
      var count :| 1 <= count <= 131072 && count <= |file| - size;
      hashed := hashed + file[size..size + count];
      size := size + count;
    }
    evidence := TransferEvidence(size, Digest(hashed));
  }

  function Endpoint(root: Path): DataEndpoint {
    DataEndpoint(LOCAL_ADAPTER, Local(root, "data"))
  }

  function DecodeEndpoint(value: DataEndpoint): Result<Path> {
    if value.adapter != LOCAL_ADAPTER then Err(Unsupported)
    else if value.capability.Undecodable? then Err(Integrity)
    else if value.capability.root.Relative? || value.capability.path != "data" then Err(Invalid)
    else Ok(value.capability.root)
  }

  /** A capability names a managed directory exactly if it is the one handed out for it. */
  lemma DecodeInvertsEndpoint(value: DataEndpoint, root: Path)
    requires !root.Relative?
    ensures DecodeEndpoint(value) == Ok(root) <==> value == Endpoint(root)
  {
  }

  /** Whether `transfer_lock` succeeds. The lock is released when the session value is dropped. */
  function TransferLock(d: Disk, root: Path, fault: Fault): Result<()> {
    if fault.LockFault? || root !in d.dirs then Err(Io)
    else if d.dirs[root].holder.Some? then Err(Busy)
    else Ok(())
  }

  const EMPTY_LAYOUT := LayoutDir(None, true, Unsealed, None)

  function NewLayout(d: Disk, path: Path, fault: Fault): Result<Disk> {
    if fault.LayoutFault? || path in d.dirs then Err(Io)
    else Ok(d.(dirs := d.dirs[path := EMPTY_LAYOUT]))
  }

  /** digest_file of a layout's payload. */
  function ReadPayload(d: Disk, root: Path, fault: Fault): Result<TransferEvidence> {
    if fault.ReadFault? || root !in d.dirs || d.dirs[root].data.None? then Err(Io)
    else Ok(Measure(d.dirs[root].data.value))
  }

  /** fsync of the payload and its directory. */
  function SyncPayload(d: Disk, root: Path): Disk {
    if root in d.dirs then d.(dirs := d.dirs[root := d.dirs[root].(synced := true)]) else d
  }

  /** write_json of `sealed.json`; a failed directory sync leaves it visible but not durable. */
  function WriteSeal(d: Disk, root: Path, fault: Fault): (Disk, Result<()>) {
    if fault == SealFault(false) || root !in d.dirs then (d, Err(Io))
    else
      var dir := d.dirs[root];
      var seal := if fault.SealFault? && !dir.seal.SealDurable? then SealLinked else SealDurable;
      (d.(dirs := d.dirs[root := dir.(seal := seal)]), if fault.SealFault? then Err(HsmError.Unknown) else Ok(()))
  }

  /** The directory holds synced bytes of this length and digest. */
  predicate Holds(d: Disk, p: Path, evidence: TransferEvidence) {
    && p in d.dirs
    && d.dirs[p].synced
    && d.dirs[p].data.Some?
    && Measure(d.dirs[p].data.value) == evidence
  }

  /** ... under a durable seal. */
  predicate Frozen(d: Disk, p: Path, evidence: TransferEvidence) {
    Holds(d, p, evidence) && d.dirs[p].seal.SealDurable?
  }

  /** A private directory: once it shows a seal it holds the expected bytes. */
  predicate Faithful(d: Disk, p: Path, evidence: TransferEvidence) {
    p in d.dirs && (!d.dirs[p].seal.Unsealed? ==> Holds(d, p, evidence))
  }

  /** What every operation except garbage collection does to existing directories: none
      disappears, and a sealed one keeps its bytes. */
  ghost predicate Keeps(d: Disk, d': Disk) {
    forall p | p in d.dirs :: p in d'.dirs && KeepsDir(d.dirs[p], d'.dirs[p])
  }

  predicate KeepsDir(x: LayoutDir, y: LayoutDir) {
    && (!x.seal.Unsealed? ==> y.data == x.data && !y.seal.Unsealed? && (x.synced ==> y.synced))
    && (x.seal.SealDurable? ==> y.seal.SealDurable?)
  }

  /** The same, and no seal appears. */
  predicate Undisturbed(d: Disk, d': Disk, p: Path) {
    p in d.dirs ==>
          p in d'.dirs && KeepsDir(d.dirs[p], d'.dirs[p]) && (d.dirs[p].seal.Unsealed? ==> d'.dirs[p].seal.Unsealed?)
  }

  /** What a restart may make of a directory. Unsynced data becomes arbitrary. */
  predicate Settles(x: LayoutDir, y: LayoutDir) {
    && y.holder.None?
    && (x.synced ==> y.data == x.data && y.synced)
    && (x.seal.Unsealed? ==> y.seal.Unsealed?)
    && (x.seal.SealDurable? ==> y.seal.SealDurable?)
  }

  ghost predicate CrashDisk(d: Disk, d': Disk) {
    && (forall p | p in d.dirs && p !in d.unlinked :: p in d'.dirs && Settles(d.dirs[p], d'.dirs[p]))
    && (forall p | p in d'.dirs :: (p in d.dirs || p in d.unlinked) && d'.dirs[p].holder.None?)
    && d'.unlinked <= d.unlinked
  }
}
