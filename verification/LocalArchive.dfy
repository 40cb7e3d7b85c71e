/**
 LocalArchive in its own form: an object whose calls create durable files one after another under
 its serial mutex, over the shared layout directories. Each method is tied to the function of
 Catalog that specifies it.
 */
module LocalArchive {
  import opened Managed
  import opened Files
  import C = Catalog
  import opened LocalStorage

  class Archive {
    const files: Layouts
    const id: string
    var attempts: map<C.AttemptKey, C.Prepared>
    var linked: map<ArchiveKey, C.CommittedFile>
    var durable: map<ArchiveKey, C.CommittedFile>

    constructor (files: Layouts, catalog: C.Catalog)
      ensures this.files == files && Catalog() == catalog
    {
      this.files := files;
      id, attempts, linked, durable := catalog.id, catalog.attempts, catalog.linked, catalog.durable;
    }

    function Catalog(): C.Catalog
      reads this
    {
      C.Catalog(id, attempts, linked, durable)
    }

    /** `committed`: verifies a found receipt against its payload, then syncs everything linked. */
    method Lookup(key: ArchiveKey, fault: Fault) returns (r: Result<Option<C.CommittedFile>>)
      modifies this`durable, files
      ensures C.Answer(Catalog(), files.disk, r) == C.Lookup(old(Catalog()), old(files.disk), key, fault)
    {
      if !C.OwnKey(id, key) {
        return Err(Invalid);
      }
      if fault.LookupFault? {
        return Err(Io);
      }
      if key !in linked {
        return Ok(None);
      }
      var file := linked[key];
      if file.receipt.key != key {
        return Err(Integrity);
      }
      var root := DecodeEndpoint(file.payload);
      if root.Err? {
        return Err(root.error);
      }
      var actual := ReadPayload(files.disk, root.value, fault);
      if actual.Err? {
        return Err(actual.error);
      }
      if actual.value != C.Evidence(file.receipt) {
        return Err(Integrity);
      }
      if fault.SyncFault? {
        return Err(Io);
      }
      files.Sync(root.value);
      durable := linked;
      r := Ok(Some(file));
    }

    method Inspect(key: ArchiveKey, fault: Fault) returns (r: Result<ArchiveStatus>)
      modifies this`durable, files
      ensures C.Answer(Catalog(), files.disk, r) == C.Inspect(old(Catalog()), old(files.disk), key, fault)
    {
      var found := Lookup(key, fault);
      if found.Err? {
        return Err(found.error);
      }
      r := Ok(if found.value.Some? then Committed(found.value.value.receipt) else Absent);
    }

    method Prepare(ctx: OperationContext, key: ArchiveKey, view: DataView, env: Env) returns (r: Result<ArchiveTarget>)
      modifies this, files
      ensures C.Answer(Catalog(), files.disk, r) == C.Prepare(old(Catalog()), old(files.disk), ctx, key, view, env)
    {
      if !ctx.Valid() {
        return Err(Invalid);
      }
      var found := Lookup(key, env.fault);
      if found.Err? {
        return Err(found.error);
      }
      if found.value.Some? {
        return Err(Conflict);
      }
      var a := C.AttemptOf(ctx, key);
      if a in attempts {
        var prior := attempts[a];
        if !C.SameAttempt(prior.context, ctx) || prior.key != key || prior.view != view {
          return Err(Conflict);
        }
        return Ok(prior.target);
      }
      var made := files.New(AttemptLayout(env.uuid), env.fault);
      if made.Err? {
        return Err(made.error);
      }
      var target := ArchiveTarget(key, Endpoint(AttemptLayout(env.uuid)));
      if env.fault == PersistFault(false) {
        return Err(Io);
      }
      attempts := attempts[a := C.Prepared(ctx, key, view, target)];
      r := if env.fault.PersistFault? then Err(HsmError.Unknown) else Ok(target);
    }

    /** publish_receipt: the link is create-only; a failed directory sync leaves it visible. */
    method Publish(file: C.CommittedFile, fault: Fault) returns (r: Result<ArchiveReceipt>)
      modifies this`linked, this`durable
      ensures C.Answer(Catalog(), files.disk, r) == C.Publish(old(Catalog()), old(files.disk), file, fault)
    {
      if fault == PersistFault(false) {
        return Err(Io);
      }
      linked := linked[file.receipt.key := file];
      if fault.PersistFault? {
        return Err(HsmError.Unknown);
      }
      durable := linked;
      r := Ok(file.receipt);
    }

    method Commit(ctx: OperationContext, target: ArchiveTarget, view: DataView, evidence: TransferEvidence, env: Env)
      returns (r: Result<ArchiveReceipt>)
      modifies this, files
      ensures C.Answer(Catalog(), files.disk, r)
              == C.Commit(old(Catalog()), old(files.disk), ctx, target, view, evidence, env)
    {
      if !ctx.Valid() {
        return Err(Invalid);
      }
      var a := C.AttemptOf(ctx, target.key);
      if a !in attempts {
        return Err(Io);
      }
      if !C.OwnsAttempt(attempts[a], ctx, target, view) {
        return Err(Conflict);
      }
      var found := Lookup(target.key, env.fault);
      if found.Err? {
        return Err(found.error);
      }
      if found.value.Some? {
        var receipt := found.value.value.receipt;
        return if C.Describes(receipt, view) then Ok(receipt) else Err(Conflict);
      }
      r := SealAndPublish(target, view, evidence, env);
    }

    method SealAndPublish(target: ArchiveTarget, view: DataView, evidence: TransferEvidence, env: Env)
        returns (r: Result<ArchiveReceipt>)
      modifies this`linked, this`durable, files
      ensures C.Answer(Catalog(), files.disk, r)
              == C.SealAndPublish(old(Catalog()), old(files.disk), target, view, evidence, env)
    {
      var root := DecodeEndpoint(target.destination);
      if root.Err? {
        return Err(root.error);
      }
      var locked := TransferLock(files.disk, root.value, env.fault);
      if locked.Err? {
        return Err(locked.error);
      }
      var read := ReadPayload(files.disk, root.value, env.fault);
      if read.Err? {
        return Err(read.error);
      }
      var actual := read.value;
      if actual != TransferEvidence(view.length, view.digest) || evidence != actual {
        return Err(Integrity);
      }
      if env.fault.SyncFault? {
        return Err(Io);
      }
      files.Sync(root.value);
      var sealed := files.Seal(root.value, env.fault);
      if sealed.Err? {
        return Err(sealed.error);
      }
      var receipt := ArchiveReceipt(target.key, view.data, actual.length, actual.digest, env.uuid, LOCAL_PROFILE);
      r := Publish(C.CommittedFile(receipt, target.destination), env.fault);
    }

    method ResumeCommit(ctx: OperationContext, target: ArchiveTarget, view: DataView, env: Env)
      returns (r: Result<Option<ArchiveReceipt>>)
      modifies this, files
      ensures C.Answer(Catalog(), files.disk, r)
              == C.ResumeCommit(old(Catalog()), old(files.disk), ctx, target, view, env)
    {
      var root := DecodeEndpoint(target.destination);
      if root.Err? {
        return Err(root.error);
      }
      if root.value !in files.disk.dirs || files.disk.dirs[root.value].seal.Unsealed? {
        return Ok(None);
      }
      var done := Commit(ctx, target, view, TransferEvidence(view.length, view.digest), env);
      r := if done.Ok? then Ok(Some(done.value)) else Err(done.error);
    }

    method Open(receipt: ArchiveReceipt, fault: Fault) returns (r: Result<DataEndpoint>)
      modifies this`durable, files
      ensures C.Answer(Catalog(), files.disk, r) == C.Open(old(Catalog()), old(files.disk), receipt, fault)
    {
      var found := Lookup(receipt.key, fault);
      if found.Err? {
        return Err(found.error);
      }
      if found.value.None? {
        return Err(NotFound);
      }
      if found.value.value.receipt != receipt {
        return Err(Integrity);
      }
      r := Ok(found.value.value.payload);
    }
  }
}
