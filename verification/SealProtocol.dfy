/**
 The layout lock and seal protocol at the grain of single file operations. Movers and committers
 interleave freely: a mover locks its source, then its destination, checks the seal, writes chunk
 after chunk; a committer locks the layout, digests it, flushes it, writes the seal. Sealed bytes
 never change, and what a committer digested is what its layout holds forever. The coarser System,
 where a copy begins and a commit happens in one step, is refined step by step.
 */
module SealProtocol {
  import opened Managed
  import opened Files
  import opened System
  import S = SourceState
  import Cat = Catalog

  datatype Stage = HasSource | HasBoth | Writing

  datatype Progress = Locked | Verified | Flushed

  datatype Agent =
    | Mover(source: Path, destination: Path, stage: Stage)
    | Committer(layout: Path, wanted: TransferEvidence, progress: Progress)

  /** The agents between their first lock and their last file operation. */
  datatype Fine = Fine(dirs: map<Path, LayoutDir>, agents: map<string, Agent>)

  datatype Step =
    | LockSource(id: string, source: Path, destination: Path)
    | LockDestination(id: string)
    | CheckSeal(id: string)
    | Write(id: string, data: Option<Bytes>)
    | LockLayout(id: string, layout: Path, wanted: TransferEvidence)
    | DigestIt(id: string)
    | Flush(id: string)
    | SealIt(id: string, durable: bool)
    | Leave(id: string)
    | Crash(dirs: map<Path, LayoutDir>)

  predicate Unlocked(x: Fine, p: Path) {
    p in x.dirs && x.dirs[p].holder.None?
  }

  predicate IsMover(x: Fine, id: string, stage: Stage) {
    id in x.agents && x.agents[id].Mover? && x.agents[id].stage == stage
    && x.agents[id].source in x.dirs && x.agents[id].destination in x.dirs
  }

  predicate IsCommitter(x: Fine, id: string, progress: Progress) {
    id in x.agents && x.agents[id].Committer? && x.agents[id].progress == progress && x.agents[id].layout in x.dirs
  }

  /** Every lock of an agent is dropped, however it ends. */
  function Dropped(dirs: map<Path, LayoutDir>, id: string): map<Path, LayoutDir> {
    map p | p in dirs :: if dirs[p].holder == Some(id) then dirs[p].(holder := None) else dirs[p]
  }

  function Gone(x: Fine, id: string): Fine {
    Fine(Dropped(x.dirs, id), x.agents - {id})
  }

  function Changed(x: Fine, p: Path, dir: LayoutDir, id: string, agent: Agent): Fine {
    Fine(x.dirs[p := dir], x.agents[id := agent])
  }

  ghost predicate Next(x: Fine, s: Step, y: Fine) {
    match s
    case LockSource(id, source, destination) =>
      && id !in x.agents && source != destination && Unlocked(x, source)
      && y == Changed(x, source, x.dirs[source].(holder := Some(id)), id, Mover(source, destination, HasSource))
    case LockDestination(id) =>
      && id in x.agents && x.agents[id].Mover? && x.agents[id].stage.HasSource? && Unlocked(x, x.agents[id].destination)
      && var p := x.agents[id].destination;
         y == Changed(x, p, x.dirs[p].(holder := Some(id)), id, x.agents[id].(stage := HasBoth))
    case CheckSeal(id) =>
      && IsMover(x, id, HasBoth)
      && var a := x.agents[id];
         y == if x.dirs[a.destination].seal.Unsealed?
              then x.(agents := x.agents[id := a.(stage := Writing)])
              else Gone(x, id)
    case Write(id, data) =>
      && IsMover(x, id, Writing)
      && var p := x.agents[id].destination;
         y == x.(dirs := x.dirs[p := x.dirs[p].(data := data, synced := false)])
    case LockLayout(id, layout, wanted) =>
      && id !in x.agents && Unlocked(x, layout)
      && y == Changed(x, layout, x.dirs[layout].(holder := Some(id)), id, Committer(layout, wanted, Locked))
    case DigestIt(id) =>
      && IsCommitter(x, id, Locked)
      && var a := x.agents[id];
         var data := x.dirs[a.layout].data;
         y == if data.Some? && Measure(data.value) == a.wanted
              then x.(agents := x.agents[id := a.(progress := Verified)])
              else Gone(x, id)
    case Flush(id) =>
      && IsCommitter(x, id, Verified)
      && var a := x.agents[id];
         y == Changed(x, a.layout, x.dirs[a.layout].(synced := true), id, a.(progress := Flushed))
    case SealIt(id, durable) =>
      && IsCommitter(x, id, Flushed)
      && var p := x.agents[id].layout;
         var seal := if durable || x.dirs[p].seal.SealDurable? then SealDurable else SealLinked;
         y == Gone(x.(dirs := x.dirs[p := x.dirs[p].(seal := seal)]), id)
    case Leave(id) => id in x.agents && y == Gone(x, id)
    case Crash(dirs) =>
      && dirs.Keys == x.dirs.Keys && (forall p | p in x.dirs :: Settles(x.dirs[p], dirs[p]))
      && y == Fine(dirs, map[])
  }

  // ---------- invariant ----------

  predicate Holder(x: Fine, id: string, p: Path) {
    p in x.dirs && x.dirs[p].holder == Some(id)
  }

  predicate AgentOk(x: Fine, id: string) {
    id in x.agents &&
    match x.agents[id]
    case Mover(source, destination, stage) =>
      && source != destination && Holder(x, id, source)
      && (!stage.HasSource? ==> Holder(x, id, destination))
      && (stage.Writing? ==> x.dirs[destination].seal.Unsealed?)
    case Committer(layout, wanted, progress) =>
      && Holder(x, id, layout)
      && (!progress.Locked? ==> x.dirs[layout].data.Some? && Measure(x.dirs[layout].data.value) == wanted)
      && (progress.Flushed? ==> x.dirs[layout].synced)
  }

  /** A lock belongs to an agent that knows it; sealed data is on disk. */
  predicate DirOk(x: Fine, p: Path) {
    p in x.dirs
    && (x.dirs[p].holder.Some? ==> x.dirs[p].holder.value in x.agents && Names(x.agents[x.dirs[p].holder.value], p))
    && (!x.dirs[p].seal.Unsealed? ==> x.dirs[p].synced && x.dirs[p].data.Some?)
  }

  predicate Names(a: Agent, p: Path) {
    if a.Mover? then p == a.source || (p == a.destination && !a.stage.HasSource?) else p == a.layout
  }

  ghost predicate FineInv(x: Fine) {
    && (forall id | id in x.agents :: AgentOk(x, id))
    && (forall p | p in x.dirs :: DirOk(x, p))
  }

  lemma NextKeepsDirs(x: Fine, s: Step, y: Fine)
    requires FineInv(x) && Next(x, s, y)
    ensures forall p | p in y.dirs :: DirOk(y, p)
  {
    forall p | p in y.dirs ensures DirOk(y, p) {
      assert DirOk(x, p);
      if x.dirs[p].holder.Some? { assert AgentOk(x, x.dirs[p].holder.value); }
      if s.SealIt? { assert AgentOk(x, s.id); }
    }
  }

  lemma NextKeepsInv(x: Fine, s: Step, y: Fine)
    requires FineInv(x) && Next(x, s, y)
    ensures FineInv(y)
  {
    forall id | id in y.agents ensures AgentOk(y, id) {
      if id in x.agents { assert AgentOk(x, id); }
    }
    NextKeepsDirs(x, s, y);
  }

  // ---------- sealed bytes ----------

  predicate FrozenAs(dir: LayoutDir, data: Option<Bytes>) {
    dir.seal.SealDurable? && dir.synced && dir.data == data
  }

  /** No single operation, nor a crash, changes a layout whose seal is durable. */
  lemma NextKeepsSealed(x: Fine, s: Step, y: Fine, p: Path)
    requires FineInv(x) && Next(x, s, y) && p in x.dirs && x.dirs[p].seal.SealDurable?
    ensures p in y.dirs && FrozenAs(y.dirs[p], x.dirs[p].data)
  {
    assert DirOk(x, p);
    if s.Write? { assert AgentOk(x, s.id); }
  }

  ghost predicate FineRun(xs: seq<Fine>, ss: seq<Step>) {
    |xs| == |ss| + 1 && FineInv(xs[0]) && forall i {:trigger ss[i]} | 0 <= i < |ss| :: Next(xs[i], ss[i], xs[i + 1])
  }

  lemma {:induction false} RunKeepsFineInv(xs: seq<Fine>, ss: seq<Step>, i: nat)
    requires FineRun(xs, ss) && i < |xs|
    ensures FineInv(xs[i])
  {
    if i > 0 {
      RunKeepsFineInv(xs, ss, i - 1);
      NextKeepsInv(xs[i - 1], ss[i - 1], xs[i]);
    }
  }

  lemma {:induction false} SealedForever(xs: seq<Fine>, ss: seq<Step>, i: nat, j: nat, p: Path)
    requires FineRun(xs, ss) && i <= j < |xs| && p in xs[i].dirs && xs[i].dirs[p].seal.SealDurable?
    ensures p in xs[j].dirs && FrozenAs(xs[j].dirs[p], xs[i].dirs[p].data)
  {
    if i == j {
      RunKeepsFineInv(xs, ss, i);
      assert DirOk(xs[i], p);
    } else {
      SealedForever(xs, ss, i, j - 1, p);
      RunKeepsFineInv(xs, ss, j - 1);
      NextKeepsSealed(xs[j - 1], ss[j - 1], xs[j], p);
    }
  }

  /** What a committer digested before it sealed is the digest of its layout ever after, whichever
      movers raced it before the seal or try to write after it. */
  lemma VerifiedForever(xs: seq<Fine>, ss: seq<Step>, i: nat, j: nat, id: string)
    requires FineRun(xs, ss) && i < j < |xs| && ss[i] == SealIt(id, true)
    ensures id in xs[i].agents && xs[i].agents[id].Committer?
    ensures var a := xs[i].agents[id]; Frozen(Disk(xs[j].dirs, {}), a.layout, a.wanted)
  {
    assert Next(xs[i], ss[i], xs[i + 1]);
    RunKeepsFineInv(xs, ss, i);
    assert AgentOk(xs[i], id);
    var p := xs[i].agents[id].layout;
    assert xs[i + 1].dirs[p].seal.SealDurable? && xs[i + 1].dirs[p].data == xs[i].dirs[p].data;
    SealedForever(xs, ss, i + 1, j, p);
  }

  // ---------- refinement of the atomic actions ----------

  /** The lock as the atomic model shows it: held only by a copy under way. */
  function Shown(x: Fine, p: Path): Option<string> {
    var holder := if p in x.dirs then x.dirs[p].holder else None;
    if holder.Some? && holder.value in x.agents && x.agents[holder.value].Mover?
       && x.agents[holder.value].stage.Writing?
    then holder
    else None
  }

  predicate Alike(x: Fine, p: Path, dir: LayoutDir) {
    p in x.dirs && dir.data == x.dirs[p].data && dir.seal == x.dirs[p].seal && (dir.synced ==> x.dirs[p].synced)
    && dir.holder == Shown(x, p)
  }

  ghost predicate Refines(x: Fine, d: Disk) {
    d.dirs.Keys == x.dirs.Keys && d.unlinked == {} && forall p | p in d.dirs :: Alike(x, p, d.dirs[p])
  }

  /** The atomic action a fine step is, if it is one. */
  datatype Coarse =
    | Stutter
    | Begin(session: Session, id: string)
    | Chunk(session: Session, data: Option<Bytes>)
    | End(session: Session)
    | Commit(layout: Path, wanted: TransferEvidence, fault: Fault)
    | Reboot(dirs: map<Path, LayoutDir>)

  ghost predicate CoarseNext(d: Disk, c: Coarse, d': Disk) {
    match c
    case Stutter => d' == d
    case Begin(s, id) =>
      && TransferLock(d, s.source, Clean).Ok? && TransferLock(d, s.destination, Clean).Ok?
      && d.dirs[s.destination].seal.Unsealed? && d' == Hold(d, s, Some(id))
    case Chunk(s, data) => s.destination in d.dirs && d.dirs[s.destination].holder.Some? && d' == WriteChunk(d, s, data)
    case End(s) => s.source in d.dirs && s.destination in d.dirs && d' == Hold(d, s, None)
    case Commit(layout, wanted, fault) =>
      && TransferLock(d, layout, fault).Ok? && ReadPayload(d, layout, fault) == Ok(wanted)
      && d' == WriteSeal(SyncPayload(d, layout), layout, fault).0
    case Reboot(dirs) => CrashDisk(d, d') && d'.dirs == dirs
  }

  function SessionOf(a: Agent): Session {
    if a.Mover? then Session(a.source, a.destination) else Session(a.layout, a.layout)
  }

  /** A committer's whole commit takes effect at its seal, a mover's begin at its seal check;
      every other operation on the way changes nothing the atomic model shows. */
  function Atomic(x: Fine, s: Step): Coarse {
    match s
    case CheckSeal(id) =>
      if IsMover(x, id, HasBoth) && x.dirs[x.agents[id].destination].seal.Unsealed?
      then Begin(SessionOf(x.agents[id]), id)
      else Stutter
    case Write(id, data) => if IsMover(x, id, Writing) then Chunk(SessionOf(x.agents[id]), data) else Stutter
    case SealIt(id, durable) =>
      if IsCommitter(x, id, Flushed)
      then Commit(x.agents[id].layout, x.agents[id].wanted, if durable then Clean else SealFault(true))
      else Stutter
    case Leave(id) => if IsMover(x, id, Writing) then End(SessionOf(x.agents[id])) else Stutter
    case Crash(dirs) => Reboot(dirs)
    case _ => Stutter
  }

  // One layout at a time.

  lemma QuietAlike(x: Fine, s: Step, y: Fine, p: Path, dir: LayoutDir)
    requires Next(x, s, y) && Atomic(x, s).Stutter? && DirOk(x, p) && Alike(x, p, dir)
    requires s.id in x.agents ==> AgentOk(x, s.id)
    ensures Alike(y, p, dir)
  {
  }

  lemma BeginAlike(x: Fine, id: string, y: Fine, p: Path, dir: LayoutDir)
    requires Next(x, CheckSeal(id), y) && Atomic(x, CheckSeal(id)).Begin? && DirOk(x, p) && AgentOk(x, id)
             && Alike(x, p, dir)
    ensures var locked := p == x.agents[id].source || p == x.agents[id].destination;
            Alike(y, p, if locked then dir.(holder := Some(id)) else dir)
  {
  }

  lemma SealAlike(x: Fine, id: string, durable: bool, y: Fine, p: Path, dir: LayoutDir)
    requires Next(x, SealIt(id, durable), y) && DirOk(x, p) && AgentOk(x, id) && Alike(x, p, dir)
    ensures var seal := if durable || dir.seal.SealDurable? then SealDurable else SealLinked;
            Alike(y, p, if p == x.agents[id].layout then dir.(synced := true, seal := seal) else dir)
  {
  }

  lemma LeaveAlike(x: Fine, id: string, y: Fine, p: Path, dir: LayoutDir)
    requires Next(x, Leave(id), y) && IsMover(x, id, Writing) && DirOk(x, p) && AgentOk(x, id) && Alike(x, p, dir)
    ensures Alike(y, p, if p == x.agents[id].source || p == x.agents[id].destination then dir.(holder := None) else dir)
  {
  }

  /** Operations that only take, keep or drop locks no copy is shown to hold. */
  lemma QuietRefines(x: Fine, s: Step, y: Fine, d: Disk)
    requires FineInv(x) && Next(x, s, y) && Refines(x, d) && Atomic(x, s).Stutter?
    ensures Refines(y, d)
  {
    forall p | p in d.dirs ensures Alike(y, p, d.dirs[p]) {
      assert DirOk(x, p);
      QuietAlike(x, s, y, p, d.dirs[p]);
    }
  }

  lemma BeginRefines(x: Fine, id: string, y: Fine, d: Disk) returns (d': Disk)
    requires FineInv(x) && Next(x, CheckSeal(id), y) && Refines(x, d) && Atomic(x, CheckSeal(id)).Begin?
    ensures CoarseNext(d, Atomic(x, CheckSeal(id)), d') && Refines(y, d')
  {
    assert AgentOk(x, id);
    var a := x.agents[id];
    assert Alike(x, a.source, d.dirs[a.source]) && Alike(x, a.destination, d.dirs[a.destination]);
    d' := Hold(d, SessionOf(a), Some(id));
    forall p | p in d'.dirs ensures Alike(y, p, d'.dirs[p]) {
      assert DirOk(x, p);
      BeginAlike(x, id, y, p, d.dirs[p]);
    }
  }

  lemma WriteRefines(x: Fine, id: string, data: Option<Bytes>, y: Fine, d: Disk) returns (d': Disk)
    requires FineInv(x) && Next(x, Write(id, data), y) && Refines(x, d)
    ensures CoarseNext(d, Atomic(x, Write(id, data)), d') && Refines(y, d')
  {
    assert AgentOk(x, id);
    assert Alike(x, x.agents[id].destination, d.dirs[x.agents[id].destination]);
    d' := WriteChunk(d, SessionOf(x.agents[id]), data);
    forall p | p in d'.dirs ensures Alike(y, p, d'.dirs[p]) {
      assert Alike(x, p, d.dirs[p]);
    }
  }

  lemma SealRefines(x: Fine, id: string, durable: bool, y: Fine, d: Disk) returns (d': Disk)
    requires FineInv(x) && Next(x, SealIt(id, durable), y) && Refines(x, d)
    ensures CoarseNext(d, Atomic(x, SealIt(id, durable)), d') && Refines(y, d')
  {
    assert AgentOk(x, id);
    var p := x.agents[id].layout;
    assert Alike(x, p, d.dirs[p]);
    d' := WriteSeal(SyncPayload(d, p), p, if durable then Clean else SealFault(true)).0;
    forall q | q in d'.dirs ensures Alike(y, q, d'.dirs[q]) {
      assert DirOk(x, q);
      SealAlike(x, id, durable, y, q, d.dirs[q]);
    }
  }

  lemma LeaveRefines(x: Fine, id: string, y: Fine, d: Disk) returns (d': Disk)
    requires FineInv(x) && Next(x, Leave(id), y) && Refines(x, d) && IsMover(x, id, Writing)
    ensures CoarseNext(d, Atomic(x, Leave(id)), d') && Refines(y, d')
  {
    assert AgentOk(x, id);
    d' := Hold(d, SessionOf(x.agents[id]), None);
    forall p | p in d'.dirs ensures Alike(y, p, d'.dirs[p]) {
      assert DirOk(x, p);
      LeaveAlike(x, id, y, p, d.dirs[p]);
    }
  }

  lemma CrashRefines(x: Fine, dirs: map<Path, LayoutDir>, y: Fine, d: Disk) returns (d': Disk)
    requires FineInv(x) && Next(x, Crash(dirs), y) && Refines(x, d)
    ensures CoarseNext(d, Atomic(x, Crash(dirs)), d') && Refines(y, d')
  {
    d' := Disk(dirs, {});
    forall p | p in d.dirs ensures Settles(d.dirs[p], dirs[p]) && Alike(y, p, dirs[p]) {
      assert Alike(x, p, d.dirs[p]);
    }
  }

  /** Each single operation is one step of the atomic model or none. */
  lemma StepRefines(x: Fine, s: Step, y: Fine, d: Disk) returns (d': Disk)
    requires FineInv(x) && Next(x, s, y) && Refines(x, d)
    ensures CoarseNext(d, Atomic(x, s), d') && Refines(y, d')
  {
    if Atomic(x, s).Stutter? {
      d' := d;
      QuietRefines(x, s, y, d);
    } else {
      match s
      case CheckSeal(id) => d' := BeginRefines(x, id, y, d);
      case Write(id, data) => d' := WriteRefines(x, id, data, y, d);
      case SealIt(id, durable) => d' := SealRefines(x, id, durable, y, d);
      case Leave(id) => d' := LeaveRefines(x, id, y, d);
      case Crash(dirs) => d' := CrashRefines(x, dirs, y, d);
    }
  }

  ghost predicate Matches(xs: seq<Fine>, ss: seq<Step>, ds: seq<Disk>, i: nat)
    requires |ds| <= |xs| == |ss| + 1
  {
    i + 1 < |ds| ==> Refines(xs[i + 1], ds[i + 1]) && CoarseNext(ds[i], Atomic(xs[i], ss[i]), ds[i + 1])
  }

  /** Every interleaving of single operations is a run of the atomic model. */
  lemma RunRefines(xs: seq<Fine>, ss: seq<Step>, d: Disk) returns (ds: seq<Disk>)
    requires FineRun(xs, ss) && Refines(xs[0], d)
    ensures |ds| == |xs| && ds[0] == d && forall i: nat :: Matches(xs, ss, ds, i)
  {
    ds := [d];
    for j := 0 to |ss|
      invariant |ds| == j + 1 && ds[0] == d && Refines(xs[j], ds[j])
      invariant forall i: nat :: Matches(xs, ss, ds, i)
    {
      RunKeepsFineInv(xs, ss, j);
      var next := StepRefines(xs[j], ss[j], xs[j + 1], ds[j]);
      var longer := ds + [next];
      forall i: nat ensures Matches(xs, ss, longer, i) {
        assert Matches(xs, ss, ds, i);
      }
      ds := longer;
    }
  }

  // ---------- the atomic model is the system's ----------

  /** A coarse copy step is what the system's copy action does to the disk. */
  lemma CoarseCopyIsSystemStep(w: World, ctx: OperationContext, c: Coarse, id: string, d': Disk)
    requires CoarseNext(w.disk, c, d') && ctx.Valid()
    requires c.Begin? ==> c.id == id && id !in w.sessions && c.session.source != c.session.destination
                          && !c.session.source.Relative? && !c.session.destination.Relative?
    requires c.Chunk? || c.End? ==> id in w.sessions && w.sessions[id] == c.session
    ensures c.Begin? ==>
              var a := CopyBegin(ctx, Endpoint(c.session.source), Endpoint(c.session.destination), id, Clean);
              Possible(w, a) && Apply(w, a).disk == d' && id in Apply(w, a).sessions
                  && Apply(w, a).sessions[id] == c.session
    ensures c.Chunk? ==> Possible(w, CopyWrite(id, c.data)) && Apply(w, CopyWrite(id, c.data)).disk == d'
    ensures c.End? ==> Possible(w, CopyEnd(id)) && Apply(w, CopyEnd(id)).disk == d'
  {
    if c.Begin? {
      assert BeginCopy(w.disk, ctx, Endpoint(c.session.source), Endpoint(c.session.destination), Clean)
          == Ok(c.session);
    }
  }

  /** A coarse commit is what the archive's commit does to the disk once its lookup found nothing, */
  lemma CoarseCommitIsArchiveCommit(c: Cat.Catalog, d: Disk, layout: Path, wanted: TransferEvidence, key: ArchiveKey,
                                    view: DataView, env: Env, d': Disk)
    requires CoarseNext(d, Commit(layout, wanted, env.fault), d') && !layout.Relative? && !env.fault.SyncFault?
    requires wanted == Cat.ViewContent(view)
    ensures Cat.SealAndPublish(c, d, ArchiveTarget(key, Endpoint(layout)), view, wanted, env).disk == d'
  {
  }

  /** and what commit_recall does to it for its own recall. */
  lemma CoarseCommitIsRecallCommit(s: S.State, d: Disk, ctx: OperationContext, target: RecallTarget,
                                   wanted: TransferEvidence, env: Env, d': Disk)
    requires CoarseNext(d, Commit(SourceLayout(target.layoutId), wanted, env.fault), d') && !env.fault.SyncFault?
    requires target.destination == Endpoint(SourceLayout(target.layoutId)) && target.layoutId in s.recalls
    requires s.recalls[target.layoutId].context == ctx && s.recalls[target.layoutId].target == target
    requires S.EntityOf(s, target.data).Ok? && S.EntityOf(s, target.data).value.published.None?
    requires Content(S.EntityOf(s, target.data).value.public) == wanted
    requires s.recalls[target.layoutId].anchor in S.EntityOf(s, target.data).value.public.anchors
    ensures S.CommitRecallEffect(s, d, ctx, target, wanted, env).disk == d'
  {
    assert DecodeEndpoint(target.destination) == Ok(SourceLayout(target.layoutId));
  }
}
