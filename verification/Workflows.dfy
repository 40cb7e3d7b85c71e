/**
 LocalDataMover and HsmEngine in their own form: methods that make one call after another and stop
 at the first failure. Each engine method is tied to the program-counter machine of Engine, run
 without interference, so what is proved of the machine is proved of the code.
 */
module Workflows {
  import opened Managed
  import opened Files
  import opened SourceState
  import opened System
  import E = Engine
  import C = Catalog
  import opened LocalStorage
  import opened LocalArchive

  // ---------- the copy executor ----------

  /** What the transfer writes, chunk by chunk: the destination's payload after each. */
  function Written(d: Disk, s: Session, chunks: seq<Option<Bytes>>): (w: Disk)
    ensures w.dirs.Keys == d.dirs.Keys
    decreases chunks
  {
    if chunks == [] then d else Written(WriteChunk(d, s, chunks[0]), s, chunks[1..])
  }

  /** How one copy goes: what the transfer writes, whether it reports success, the first fault. */
  datatype Transfer = Transfer(chunks: seq<Option<Bytes>>, succeeded: bool, fault: Fault)

  /** Both locks, the seal fence, the transfer, and an independent read-back under the locks. */
  function CopySpec(d: Disk, ctx: OperationContext, from: DataEndpoint, to: DataEndpoint, id: string, t: Transfer)
    : (Disk, Result<TransferEvidence>)
  {
    match BeginCopy(d, ctx, from, to, t.fault)
    case Err(e) => (d, Err(e))
    case Ok(s) =>
      var written := Written(Hold(d, s, Some(id)), s, t.chunks);
      (Hold(written, s, None),
       if !t.succeeded then Err(HsmError.Unknown) else ReadPayload(written, s.destination, t.fault))
  }

  lemma {:induction false} WrittenOnly(d: Disk, s: Session, chunks: seq<Option<Bytes>>)
    requires s.source in d.dirs && s.destination in d.dirs && s.source != s.destination
    ensures var w := Written(d, s, chunks);
            && w.dirs.Keys == d.dirs.Keys && w.unlinked == d.unlinked
            && (forall p | p in d.dirs && p != s.destination :: w.dirs[p] == d.dirs[p])
            && w.dirs[s.destination].seal == d.dirs[s.destination].seal
            && w.dirs[s.destination].holder == d.dirs[s.destination].holder
            && w.dirs[s.destination].data == (if chunks == [] then d.dirs[s.destination].data else chunks[|chunks| - 1])
    decreases chunks
  {
    if chunks != [] {
      WrittenOnly(WriteChunk(d, s, chunks[0]), s, chunks[1..]);
    }
  }

  /** A copy touches nothing but its destination's bytes, never a sealed one's, and what it reports
      is what the destination holds; if the transfer has done its duty that is the source's. */
  lemma CopyIsHonest(d: Disk, ctx: OperationContext, from: DataEndpoint, to: DataEndpoint, id: string, t: Transfer)
    ensures var (d', r) := CopySpec(d, ctx, from, to, id, t);
            && Keeps(d, d') && d'.dirs.Keys == d.dirs.Keys && (!t.succeeded ==> r.Err?)
            && (forall p | p in d.dirs && DecodeEndpoint(to) != Ok(p) && DecodeEndpoint(from) != Ok(p) ::
                 d'.dirs[p] == d.dirs[p])
            && (r.Ok? ==>
                  && DecodeEndpoint(from).Ok? && DecodeEndpoint(to).Ok?
                  && var source, destination := DecodeEndpoint(from).value, DecodeEndpoint(to).value;
                  && source in d'.dirs && destination in d'.dirs && source != destination
                  && d'.dirs[source] == d.dirs[source] && d'.dirs[destination].seal.Unsealed?
                  && d'.dirs[destination].data.Some? && r.value == Measure(d'.dirs[destination].data.value)
                  && (t.chunks != [] && d.dirs[source].data == t.chunks[|t.chunks| - 1] ==>
                        d.dirs[source].data.Some? && r.value == Measure(d.dirs[source].data.value)))
  {
    var begun := BeginCopy(d, ctx, from, to, t.fault);
    if begun.Ok? {
      WrittenOnly(Hold(d, begun.value, Some(id)), begun.value, t.chunks);
    }
  }

  class DataMover {
    const files: Layouts

    constructor (files: Layouts)
      ensures this.files == files
    {
      this.files := files;
    }

    method Copy(ctx: OperationContext, from: DataEndpoint, to: DataEndpoint, id: string, t: Transfer)
        returns (r: Result<TransferEvidence>)
      modifies files
      ensures (files.disk, r) == CopySpec(old(files.disk), ctx, from, to, id, t)
    {
      if !ctx.Valid() {
        return Err(Invalid);
      }
      var source, destination := DecodeEndpoint(from), DecodeEndpoint(to);
      if source.Err? {
        return Err(source.error);
      }
      if destination.Err? {
        return Err(destination.error);
      }
      if source.value == destination.value {
        return Err(Invalid);
      }
      var session := Session(source.value, destination.value);
      var first := TransferLock(files.disk, session.source, t.fault);
      if first.Err? {
        return Err(first.error);
      }
      var second := TransferLock(files.disk, session.destination, t.fault);
      if second.Err? {
        return Err(second.error);
      }
      if !files.disk.dirs[session.destination].seal.Unsealed? {
        return Err(Fenced);
      }
      files.disk := Hold(files.disk, session, Some(id));
      ghost var held := files.disk;
      WrittenOnly(held, session, t.chunks);
      var i := 0;
      while i < |t.chunks|
        invariant i <= |t.chunks| && session.source in files.disk.dirs && session.destination in files.disk.dirs
        invariant Written(held, session, t.chunks) == Written(files.disk, session, t.chunks[i..])
      {
        files.disk := WriteChunk(files.disk, session, t.chunks[i]);
        i := i + 1;
      }
      r := if t.succeeded then ReadPayload(files.disk, session.destination, t.fault) else Err(HsmError.Unknown);
      files.disk := Hold(files.disk, session, None);
    }
  }

  // ---------- a workflow without interference ----------

  /** What the engine's two stores and the disk are between two of its calls. */
  datatype Site = Site(store: Store, catalog: C.Catalog, disk: Disk)

  /** The environment's part in one call. */
  datatype Given = Given(env: Env, transfer: Transfer)

  function SourceCall(s: Site, ctx: OperationContext, req: Request, env: Env): (Site, Result<Reply>) {
    var r := Call(s.store, s.disk, ctx, req, env);
    (Site(r.store, s.catalog, r.disk), r.result)
  }

  function Answered<T>(s: Site, a: C.Answer<T>): Site {
    Site(s.store, a.catalog, a.disk)
  }

  /** One call of the workflow and where it leads. A whole copy is one call. */
  function SoloStep(s: Site, f: E.Flow, t: Given): (Site, E.Pc) {
    var st, c, d := s.store, s.catalog, s.disk;
    match f.pc
    case Ask =>
      (s, if !f.ctx.Valid() then E.Done(Err(Invalid))
          else E.AfterAsk(f, QueryCompleted(st, f.ctx, E.JobData(f.job), E.JobAction(f.job))))
    case Pin =>
      var (s', r) := SourceCall(s, f.ctx, PrepareArchive(E.JobData(f.job)), t.env);
      (s', E.AfterPin(r))
    case Look(view) =>
      var a := C.Inspect(c, d, E.JobKey(f.job), t.env.fault);
      (Answered(s, a), E.AfterLook(f, view, a.result))
    case Target(view) =>
      var a := C.Prepare(c, d, f.ctx, E.JobKey(f.job), view, t.env);
      (Answered(s, a), E.AfterTarget(view, a.result))
    case Resume(view, target) =>
      var a := C.ResumeCommit(c, d, f.ctx, target, view, t.env);
      (Answered(s, a), E.AfterResume(f, view, target, a.result))
    case Copy(view, target) =>
      var (d', r) := CopySpec(d, f.ctx, view.source, target.destination, t.env.uuid, t.transfer);
      (s.(disk := d'), E.AfterCopying(view, target, r))
    case Seal(view, target, evidence) =>
      var a := C.Commit(c, d, f.ctx, target, view, evidence, t.env);
      (Answered(s, a), E.AfterSeal(f, view, a.result))
    case Attach(view, receipt) =>
      var (s', r) := SourceCall(s, f.ctx, CommitArchive(view, receipt), t.env);
      (s', E.Replied(r))
    case Observe => (s, E.AfterObserve(f, Inspect(st, E.JobExpected(f.job).data.entity)))
    case Verify(i) =>
      var a := C.Inspect(c, d, E.AnchorAt(f.job, i).key, t.env.fault);
      (Answered(s, a), E.AfterVerify(f, i, a.result))
    case Detach =>
      var (s', r) := SourceCall(s, f.ctx, ReleaseData(E.JobExpected(f.job)), t.env);
      (s', E.Replied(r))
    case Locate(anchor) =>
      var a := C.Inspect(c, d, E.JobKey(f.job), t.env.fault);
      (Answered(s, a), E.AfterLocate(anchor, a.result))
    case Reserve(anchor) =>
      var (s', r) := SourceCall(s, f.ctx, PrepareRecall(E.JobExpected(f.job), anchor), t.env);
      (s', E.AfterReserve(anchor, r))
    case OpenPayload(anchor, recall) =>
      var a := C.Open(c, d, anchor, t.env.fault);
      (Answered(s, a), E.AfterOpen(recall, a.result))
    case Fetch(source, recall) =>
      var (d', r) := CopySpec(d, f.ctx, source, recall.destination, t.env.uuid, t.transfer);
      (s.(disk := d'), E.AfterFetching(f, recall, r))
    case Publish(recall, evidence) =>
      var (s', r) := SourceCall(s, f.ctx, CommitRecall(recall, evidence), t.env);
      (s', E.Replied(r))
    case _ => (s, f.pc)
  }

  /** A call that is not a copy is exactly one step of the machine. */
  lemma SoloStepIsMachineStep(w: World, f: E.Flow, t: Given)
    requires E.WellFormed(f) && w.source.Opened? && Possible(w, E.CallOf(f, t.env))
    requires !(f.pc.Copy? || f.pc.Copying? || f.pc.Fetch? || f.pc.Fetching?)
    ensures var w' := Apply(w, E.CallOf(f, t.env));
            w'.source.Opened?
            && SoloStep(Site(Handle(w), w.catalog, w.disk), f, t)
               == (Site(Handle(w'), w'.catalog, w'.disk), E.Next(w, f, t.env, t.transfer.succeeded))
  {
  }

  ghost function Writes(w: World, id: string, chunks: seq<Option<Bytes>>): (w': World)
    requires id in w.sessions && w.sessions[id].destination in w.disk.dirs
    ensures w' == w.(disk := Written(w.disk, w.sessions[id], chunks))
    decreases chunks
  {
    if chunks == [] then w else Writes(Apply(w, CopyWrite(id, chunks[0])), id, chunks[1..])
  }

  /** ... and a copy is its begin, its chunks and its end. */
  lemma CopyIsMachineSteps(w: World, ctx: OperationContext, from: DataEndpoint, to: DataEndpoint, id: string,
                           t: Transfer)
    requires id !in w.sessions
    ensures var w1 := Apply(w, CopyBegin(ctx, from, to, id, t.fault));
            var begun := BeginCopy(w.disk, ctx, from, to, t.fault);
            if begun.Err? then w1 == w && CopySpec(w.disk, ctx, from, to, id, t) == (w.disk, Err(begun.error))
            else
              && id in w1.sessions && w1.sessions[id] == begun.value && begun.value.destination in w1.disk.dirs
              && var w2 := Writes(w1, id, t.chunks);
                 Possible(w2, CopyEnd(id))
                 && CopySpec(w.disk, ctx, from, to, id, t)
                    == (Apply(w2, CopyEnd(id)).disk, E.ReadBack(w2, id, t.succeeded, t.fault))
  {
  }

  /** The workflow's calls from the k-th on; a Done workflow makes none. */
  function Solo(s: Site, f: E.Flow, ts: seq<Given>, k: nat): (Site, Result<EntityState>)
    decreases |ts| - k
  {
    if f.pc.Done? then (s, f.pc.result)
    else if k >= |ts| then (s, Err(HsmError.Unknown))
    else
      var (s', pc) := SoloStep(s, f, ts[k]);
      Solo(s', f.(pc := pc), ts, k + 1)
  }

  lemma SoloOnce(s: Site, f: E.Flow, ts: seq<Given>, k: nat)
    requires !f.pc.Done? && k < |ts|
    ensures var (s', pc) := SoloStep(s, f, ts[k]); Solo(s, f, ts, k) == Solo(s', f.(pc := pc), ts, k + 1)
  {
  }

  function StopOr<T>(r: Result<T>, pc: E.Pc): E.Pc {
    if r.Err? then E.Done(Err(r.error)) else pc
  }

  /** HsmEngine over the local adapters. `ts` is the environment's part, call by call. */
  class HsmEngine {
    const storage: Storage
    const backend: Archive
    const mover: DataMover

    constructor (storage: Storage, backend: Archive, mover: DataMover)
      ensures this.storage == storage && this.backend == backend && this.mover == mover
    {
      this.storage, this.backend, this.mover := storage, backend, mover;
    }

    ghost predicate Valid()
      reads this, storage, backend, mover
    {
      storage.files == backend.files == mover.files
    }

    function Here(): Site
      reads this, storage, backend, storage.files
    {
      Site(storage.Store(), backend.Catalog(), storage.files.disk)
    }

    /** `completed`, asked first by every workflow. */
    method Earlier(ask: E.Flow, ts: seq<Given>) returns (r: Option<Result<EntityState>>)
      requires Valid() && ask.pc == E.Ask && ts != []
      ensures var next := if !ask.ctx.Valid() then E.Done(Err(Invalid))
                          else E.AfterAsk(ask,
                                 QueryCompleted(storage.Store(), ask.ctx, E.JobData(ask.job), E.JobAction(ask.job)));
              && next == (if r.Some? then E.Done(r.value) else E.AfterAsk(ask, Ok(None)))
              && Solo(Here(), ask, ts, 0) == Solo(Here(), ask.(pc := next), ts, 1)
    {
      SoloOnce(Here(), ask, ts, 0);
      if !ask.ctx.Valid() {
        return Some(Err(Invalid));
      }
      var completed := storage.QueryCompleted(ask.ctx, E.JobData(ask.job), E.JobAction(ask.job));
      if completed.Err? {
        return Some(Err(completed.error));
      }
      r := if completed.value.Some? then Some(Ok(completed.value.value)) else None;
    }

    method Archive(ctx: OperationContext, data: DataKey, key: ArchiveKey, ts: seq<Given>)
        returns (r: Result<EntityState>)
      requires Valid() && 8 <= |ts|
      modifies storage, backend, storage.files
      ensures Valid() && (Here(), r) == Solo(old(Here()), E.Flow(ctx, E.ArchiveJob(data, key), E.Ask), ts, 0)
    {
      var ask := E.Flow(ctx, E.ArchiveJob(data, key), E.Ask);
      var earlier := Earlier(ask, ts);
      if earlier.Some? {
        return earlier.value;
      }
      SoloOnce(Here(), ask.(pc := E.Pin), ts, 1);
      var pinned := storage.Step(ctx, PrepareArchive(data), ts[1].env);
      if pinned.Err? {
        return Err(pinned.error);
      }
      if !pinned.value.ViewReply? {
        return Err(Integrity);
      }
      var view := pinned.value.view;
      SoloOnce(Here(), ask.(pc := E.Look(view)), ts, 2);
      var status := backend.Inspect(key, ts[2].env.fault);
      if status.Err? {
        return Err(status.error);
      }
      if status.value.Pending? || status.value.Uncertain? {
        return Err(HsmError.Unknown);
      }
      if status.value.Committed? {
        r := Anchor(ask, view, status.value.receipt, ts, 3);
      } else {
        r := Store(ask, view, ts);
      }
    }

    /** The part of `archive` for a key the backend does not have yet. */
    method Store(ask: E.Flow, view: DataView, ts: seq<Given>) returns (r: Result<EntityState>)
      requires Valid() && ask.job.ArchiveJob? && 8 <= |ts|
      modifies storage, backend, storage.files
      ensures Valid() && (Here(), r) == Solo(old(Here()), ask.(pc := E.Target(view)), ts, 3)
    {
      var ctx := ask.ctx;
      SoloOnce(Here(), ask.(pc := E.Target(view)), ts, 3);
      var prepared := backend.Prepare(ctx, E.JobKey(ask.job), view, ts[3].env);
      if prepared.Err? {
        return Err(prepared.error);
      }
      var target := prepared.value;
      SoloOnce(Here(), ask.(pc := E.Resume(view, target)), ts, 4);
      var resumed := backend.ResumeCommit(ctx, target, view, ts[4].env);
      if resumed.Err? {
        return Err(resumed.error);
      }
      if resumed.value.Some? {
        r := Anchor(ask, view, resumed.value.value, ts, 5);
        return;
      }
      r := CopyIn(ask, view, target, ts);
    }

    /** Copies the pinned source into the attempt's layout and commits it. */
    method CopyIn(ask: E.Flow, view: DataView, target: ArchiveTarget, ts: seq<Given>) returns (r: Result<EntityState>)
      requires Valid() && ask.job.ArchiveJob? && 8 <= |ts|
      modifies storage, backend, storage.files
      ensures Valid() && (Here(), r) == Solo(old(Here()), ask.(pc := E.Copy(view, target)), ts, 5)
    {
      var ctx := ask.ctx;
      SoloOnce(Here(), ask.(pc := E.Copy(view, target)), ts, 5);
      var evidence := mover.Copy(ctx, view.source, target.destination, ts[5].env.uuid, ts[5].transfer);
      if evidence.Err? {
        return Err(evidence.error);
      }
      if evidence.value != TransferEvidence(view.length, view.digest) {
        return Err(Integrity);
      }
      SoloOnce(Here(), ask.(pc := E.Seal(view, target, evidence.value)), ts, 6);
      var committed := backend.Commit(ctx, target, view, evidence.value, ts[6].env);
      if committed.Err? {
        return Err(committed.error);
      }
      r := Anchor(ask, view, committed.value, ts, 7);
    }

    /** The receipt check and the source commit that end every archive. */
    method Anchor(ask: E.Flow, view: DataView, receipt: ArchiveReceipt, ts: seq<Given>, k: nat)
        returns (r: Result<EntityState>)
      requires Valid() && ask.job.ArchiveJob? && k < |ts|
      modifies storage, storage.files
      ensures Valid() && (Here(), r) == Solo(old(Here()), ask.(pc := E.Checked(ask, view, receipt)), ts, k)
    {
      if !E.CheckReceipt(receipt, E.JobData(ask.job), E.JobKey(ask.job), view.length, view.digest) {
        return Err(Integrity);
      }
      SoloOnce(Here(), ask.(pc := E.Attach(view, receipt)), ts, k);
      var reply := storage.Step(ask.ctx, CommitArchive(view, receipt), ts[k].env);
      r := StateOf(reply);
    }

    method Recall(ctx: OperationContext, expected: EntityState, key: ArchiveKey, ts: seq<Given>)
        returns (r: Result<EntityState>)
      requires Valid() && 6 <= |ts|
      modifies storage, backend, storage.files
      ensures Valid() && (Here(), r) == Solo(old(Here()), E.Flow(ctx, E.RecallJob(expected, key), E.Ask), ts, 0)
    {
      var ask := E.Flow(ctx, E.RecallJob(expected, key), E.Ask);
      var earlier := Earlier(ask, ts);
      if earlier.Some? {
        return earlier.value;
      }
      if !expected.residency.Offline? {
        return Err(Conflict);
      }
      var found := E.FindAnchor(expected.anchors, key);
      if found.None? {
        return Err(NotFound);
      }
      var anchor := found.value;
      if !E.CheckReceipt(anchor, expected.data, key, expected.length, expected.digest) {
        return Err(Integrity);
      }
      SoloOnce(Here(), ask.(pc := E.Locate(anchor)), ts, 1);
      var status := backend.Inspect(key, ts[1].env.fault);
      if status.Err? {
        return Err(status.error);
      }
      if status.value.Pending? || status.value.Uncertain? {
        return Err(HsmError.Unknown);
      }
      if status.value != Committed(anchor) {
        return Err(Integrity);
      }
      r := FetchBack(ask, anchor, ts);
    }

    /** The part of `recall` after the archive has confirmed the anchor. */
    method FetchBack(ask: E.Flow, anchor: ArchiveReceipt, ts: seq<Given>) returns (r: Result<EntityState>)
      requires Valid() && ask.job.RecallJob? && 6 <= |ts|
      modifies storage, backend, storage.files
      ensures Valid() && (Here(), r) == Solo(old(Here()), ask.(pc := E.Reserve(anchor)), ts, 2)
    {
      var ctx, expected := ask.ctx, E.JobExpected(ask.job);
      SoloOnce(Here(), ask.(pc := E.Reserve(anchor)), ts, 2);
      var reserved := storage.Step(ctx, PrepareRecall(expected, anchor), ts[2].env);
      if reserved.Err? {
        return Err(reserved.error);
      }
      if !reserved.value.TargetReply? {
        return Err(Integrity);
      }
      var target := reserved.value.target;
      SoloOnce(Here(), ask.(pc := E.OpenPayload(anchor, target)), ts, 3);
      var source := backend.Open(anchor, ts[3].env.fault);
      if source.Err? {
        return Err(source.error);
      }
      r := CopyBack(ask, source.value, target, ts);
    }

    /** Copies the archived payload into the private layout and publishes it. */
    method CopyBack(ask: E.Flow, source: DataEndpoint, target: RecallTarget, ts: seq<Given>)
        returns (r: Result<EntityState>)
      requires Valid() && ask.job.RecallJob? && 6 <= |ts|
      modifies storage, storage.files
      ensures Valid() && (Here(), r) == Solo(old(Here()), ask.(pc := E.Fetch(source, target)), ts, 4)
    {
      var ctx, expected := ask.ctx, E.JobExpected(ask.job);
      SoloOnce(Here(), ask.(pc := E.Fetch(source, target)), ts, 4);
      var evidence := mover.Copy(ctx, source, target.destination, ts[4].env.uuid, ts[4].transfer);
      if evidence.Err? {
        return Err(evidence.error);
      }
      if evidence.value != TransferEvidence(expected.length, expected.digest) {
        return Err(Integrity);
      }
      r := Publish(ask, target, evidence.value, ts);
    }

    method Publish(ask: E.Flow, target: RecallTarget, evidence: TransferEvidence, ts: seq<Given>)
        returns (r: Result<EntityState>)
      requires Valid() && ask.job.RecallJob? && 6 <= |ts|
      modifies storage, storage.files
      ensures Valid() && (Here(), r) == Solo(old(Here()), ask.(pc := E.Publish(target, evidence)), ts, 5)
    {
      SoloOnce(Here(), ask.(pc := E.Publish(target, evidence)), ts, 5);
      var reply := storage.Step(ask.ctx, CommitRecall(target, evidence), ts[5].env);
      r := StateOf(reply);
    }

    method Release(ctx: OperationContext, expected: EntityState, ts: seq<Given>) returns (r: Result<EntityState>)
      requires Valid() && |expected.anchors| + 3 <= |ts|
      modifies storage, backend, storage.files
      ensures Valid() && (Here(), r) == Solo(old(Here()), E.Flow(ctx, E.ReleaseJob(expected), E.Ask), ts, 0)
    {
      var ask := E.Flow(ctx, E.ReleaseJob(expected), E.Ask);
      var earlier := Earlier(ask, ts);
      if earlier.Some? {
        return earlier.value;
      }
      var observed := Observed(ask, ts);
      if observed.Err? {
        return Err(observed.error);
      }
      var verified, next := FindVerified(ask, ts);
      if verified.Err? {
        return Err(verified.error);
      }
      SoloOnce(Here(), ask.(pc := E.Detach), ts, next);
      var reply := storage.Step(ctx, ReleaseData(expected), ts[next].env);
      r := StateOf(reply);
    }

    /** The source still shows the state the release was asked for, and it has anchors. */
    method Observed(ask: E.Flow, ts: seq<Given>) returns (r: Result<()>)
      requires Valid() && ask.job.ReleaseJob? && 2 <= |ts|
      ensures Solo(Here(), ask.(pc := E.Observe), ts, 1)
              == Solo(Here(), ask.(pc := StopOr(r, E.VerifyFrom(ask, 0))), ts, 2)
    {
      SoloOnce(Here(), ask.(pc := E.Observe), ts, 1);
      var expected := E.JobExpected(ask.job);
      var observed := storage.Inspect(expected.data.entity);
      if observed.Err? {
        return Err(observed.error);
      }
      if observed.value != expected || expected.anchors == [] {
        return Err(Conflict);
      }
      r := Ok(());
    }

    /** Release's loop: asks for the anchors one by one until one is committed as recorded. */
    method FindVerified(ask: E.Flow, ts: seq<Given>) returns (r: Result<()>, next: nat)
      requires Valid() && ask.job.ReleaseJob? && |E.JobExpected(ask.job).anchors| + 3 <= |ts|
      modifies backend, storage.files
      ensures Valid() && (r.Ok? ==> next < |ts|)
      ensures Solo(old(Here()), ask.(pc := E.VerifyFrom(ask, 0)), ts, 2)
              == Solo(Here(), ask.(pc := StopOr(r, E.Detach)), ts, next)
    {
      var verified := false;
      next := 2;
      while next - 2 < |E.JobExpected(ask.job).anchors| && !verified
        invariant Valid() && 2 <= next
        invariant if verified then next < |ts| else next - 2 <= |E.JobExpected(ask.job).anchors|
        invariant Solo(old(Here()), ask.(pc := E.VerifyFrom(ask, 0)), ts, 2)
               == Solo(Here(), ask.(pc := if verified then E.Detach else E.VerifyFrom(ask, next - 2)), ts, next)
        decreases |ts| - next
      {
        var outcome := VerifyOne(ask, ts, next - 2);
        if outcome.Err? {
          return Err(outcome.error), next;
        }
        verified := outcome.value;
        next := next + 1;
      }
      r := if verified then Ok(()) else Err(Integrity);
    }

    /** One anchor: Ok(true) if it is committed as recorded, Ok(false) if the next one is to be asked. */
    method VerifyOne(ask: E.Flow, ts: seq<Given>, i: nat) returns (r: Result<bool>)
      requires Valid() && ask.job.ReleaseJob? && i < |E.JobExpected(ask.job).anchors| && i + 2 < |ts|
      modifies backend, storage.files
      ensures Valid()
      ensures Solo(old(Here()), ask.(pc := E.VerifyFrom(ask, i)), ts, i + 2)
              == Solo(Here(), ask.(pc := StopOr(r, if r == Ok(true) then E.Detach else E.VerifyFrom(ask, i + 1))),
                      ts, i + 3)
    {
      var expected := E.JobExpected(ask.job);
      var anchor := expected.anchors[i];
      if !E.CheckReceipt(anchor, expected.data, anchor.key, expected.length, expected.digest) {
        return Err(Integrity);
      }
      SoloOnce(Here(), ask.(pc := E.Verify(i)), ts, i + 2);
      var status := backend.Inspect(anchor.key, ts[i + 2].env.fault);
      if status.Err? {
        return Err(status.error);
      }
      if status.value.Pending? || status.value.Uncertain? {
        return Err(HsmError.Unknown);
      }
      r := Ok(status.value == Committed(anchor));
    }

    function StateOf(reply: Result<Reply>): Result<EntityState> {
      match reply
      case Err(e) => Err(e)
      case Ok(StateReply(state)) => Ok(state)
      case Ok(_) => Err(Integrity)
    }
  }
}
