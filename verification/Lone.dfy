/**
 One workflow that nothing else disturbs: any fault at any call, any restart, and as many re-runs
 with the same context as it takes.
 */
module Lone {
  import opened Managed
  import opened Files
  import opened SourceState
  import opened SourceInvariants
  import opened SourceSteps
  import opened System
  import opened SystemSafety
  import opened SystemTheorems
  import opened Engine
  import Cat = Catalog

  datatype Lone = Lone(world: World, flow: Flow)

  /** The workflow is run again, takes its next step, or its copy writes something; the machine
      crashes, taking the workflow down; the storage's handle is dropped between two copies, with
      the workflow that used it; the storage is reopened. */
  datatype Turn =
    | Again
    | Take(env: Env, transferred: bool)
    | Chunk(session: string, data: Option<Bytes>)
    | Crash(restart: Action)
    | Drop
    | Recover

  ghost predicate LoneNext(x: Lone, t: Turn, y: Lone) {
    match t
    case Again => x.flow.pc.Done? && y == x.(flow := x.flow.(pc := Ask))
    case Take(env, transferred) => CanTake(x, env) && y == Taken(x, env, transferred)
    case Chunk(session, data) =>
      Possible(x.world, CopyWrite(session, data)) && y == x.(world := Apply(x.world, CopyWrite(session, data)))
    case Crash(restart) =>
      restart.Restart? && Possible(x.world, restart)
      && y == Lone(Apply(x.world, restart), x.flow.(pc := Done(Err(HsmError.Unknown))))
    case Drop =>
      Copies(x.flow) == {} && Possible(x.world, Close)
      && y == Lone(Apply(x.world, Close), x.flow.(pc := Done(Err(HsmError.Unknown))))
    case Recover => Possible(x.world, Reopen) && y == x.(world := Apply(x.world, Reopen))
  }

  ghost predicate CanTake(x: Lone, env: Env) {
    WellFormed(x.flow) && x.world.source.Opened? && Possible(x.world, CallOf(x.flow, env))
  }

  /** The workflow after its next step, if it can take one. */
  ghost function Taken(x: Lone, env: Env, transferred: bool): Lone {
    if CanTake(x, env) then
      Lone(Apply(x.world, CallOf(x.flow, env)), x.flow.(pc := Next(x.world, x.flow, env, transferred)))
    else x
  }

  const NOTHING := Entity(NO_STATE, None)

  lemma TakeIsAllowed(w: World, f: Flow, env: Env)
    requires FlowOk(w, f)
    ensures Allowed(w, CallOf(f, env))
  {
  }

  lemma ActionKeepsInv(w: World, a: Action)
    requires SystemInv(w) && Possible(w, a) && Allowed(w, a)
    ensures SystemInv(Apply(w, a)) && w.reported <= Apply(w, a).reported
  {
    StepKeepsInv(w, a);
    StepKeepsReports(w, a);
  }

  lemma TurnKeepsSystem(x: Lone, t: Turn, y: Lone)
    requires SystemInv(x.world) && FlowOk(x.world, x.flow) && LoneNext(x, t, y)
    ensures SystemInv(y.world) && FlowOk(y.world, y.flow)
  {
    match t
    case Again =>
    case Take(env, transferred) =>
      TakeIsAllowed(x.world, x.flow, env);
      ActionKeepsInv(x.world, CallOf(x.flow, env));
      AdvanceKeepsFlow(x.world, x.flow, env, transferred);
    case Chunk(session, data) =>
      ActionKeepsInv(x.world, CopyWrite(session, data));
      FlowKept(x.world, x.flow, y.world);
    case Crash(restart) =>
      ActionKeepsInv(x.world, restart);
    case Drop =>
      ActionKeepsInv(x.world, Close);
    case Recover =>
      ActionKeepsInv(x.world, Reopen);
      FlowKept(x.world, x.flow, y.world);
  }

  lemma TakeIsFresh(x: Lone, env: Env)
    requires CanTake(x, env) && Draws(x.flow.pc)
    ensures FreshId(x.world, env.uuid)
  {
  }

  /** The calls that may draw a UUID. */
  predicate Draws(pc: Pc) {
    pc.Pin? || pc.Target? || pc.Resume? || pc.Seal? || pc.Attach? || pc.Detach? || pc.Reserve? || pc.Publish?
  }

  /** The parts of the system invariant that recovery reads. */
  ghost predicate Sound(w: World) {
    var s := FileOf(w.source).durable;
    && Entities(s) && Backed(s, w.disk, w.catalog) && Named(s, w.issued)
    && Cat.CatalogInv(w.catalog, w.disk) && DiskNamed(w.disk, w.issued)
  }

  predicate Free(d: Disk, p: Path) {
    p in d.dirs && d.dirs[p].holder.None?
  }

  function ClearStore(s: State): Store {
    Store(Replaceable(s, s), s, false)
  }

  // ---------- locks ----------

  predicate HolderOk(d: Disk, sessions: map<string, Session>, p: Path) {
    p in d.dirs && d.dirs[p].holder.Some? ==>
      var h := d.dirs[p].holder.value;
      h in sessions && (p == sessions[h].source || p == sessions[h].destination)
  }

  /** No lock outlives its copy. */
  ghost predicate Lodged(d: Disk, sessions: map<string, Session>) {
    forall p | p in d.dirs :: HolderOk(d, sessions, p)
  }

  function Copies(f: Flow): set<string> {
    match f.pc
    case Copying(_, _, session) => {session}
    case Fetching(_, session) => {session}
    case _ => {}
  }

  /** The only copy under way is the workflow's own. */
  ghost predicate Alone(x: Lone) {
    Lodged(x.world.disk, x.world.sessions) && x.world.sessions.Keys <= Copies(x.flow)
  }

  lemma AloneIsFree(x: Lone, p: Path)
    requires Alone(x) && Copies(x.flow) == {} && p in x.world.disk.dirs
    ensures x.world.disk.dirs[p].holder.None? && x.world.sessions == map[]
  {
    assert HolderOk(x.world.disk, x.world.sessions, p);
    assert forall k :: k in x.world.sessions ==> k in x.world.sessions.Keys;
  }

  lemma TouchKeepsLodged(d: Disk, sessions: map<string, Session>, touch: Touch)
    requires Lodged(d, sessions) && CanTouch(d, touch)
    ensures Lodged(Touched(d, touch), sessions)
  {
    forall p | p in Touched(d, touch).dirs ensures HolderOk(Touched(d, touch), sessions, p) {
      if p in d.dirs { assert HolderOk(d, sessions, p); }
    }
  }

  lemma MoveKeepsLodged(c: Cat.Catalog, d: Disk, sessions: map<string, Session>, m: Cat.Move)
    requires Lodged(d, sessions) && Cat.Legal(c, d, m)
    ensures Lodged(Cat.Moved(c, d, m).1, sessions)
  {
    var d' := Cat.Moved(c, d, m).1;
    forall p | p in d'.dirs ensures HolderOk(d', sessions, p) {
      if p in d.dirs { assert HolderOk(d, sessions, p); }
    }
  }

  lemma CallKeepsLodged(w: World, ctx: OperationContext, req: Request, env: Env)
    requires Lodged(w.disk, w.sessions) && Possible(w, DoCall(ctx, req, env))
    ensures var w' := Apply(w, DoCall(ctx, req, env)); Lodged(w'.disk, w'.sessions) && w'.sessions == w.sessions
  {
    CallWrites(Handle(w), w.disk, ctx, req, env);
    var touch := EffectTouches(Memory(w), w.disk, ctx, req, env);
    TouchKeepsLodged(w.disk, w.sessions, touch);
  }

  lemma ArchiveKeepsLodged(w: World, a: Action)
    requires Cat.CatalogInv(w.catalog, w.disk) && Lodged(w.disk, w.sessions) && Possible(w, a)
    requires a.DoInspect? || a.DoPrepare? || a.DoCommit? || a.DoResume? || a.DoOpen?
    ensures var w' := Apply(w, a); Lodged(w'.disk, w'.sessions) && w'.sessions == w.sessions
  {
    var m, uuid, receipts := ArchiveCallMoves(w, a);
    MoveKeepsLodged(w.catalog, w.disk, w.sessions, m);
  }

  lemma BeginKeepsLodged(w: World, ctx: OperationContext, from: DataEndpoint, to: DataEndpoint, session: string,
                         fault: Fault)
    requires Lodged(w.disk, w.sessions) && Possible(w, CopyBegin(ctx, from, to, session, fault))
    ensures var w' := Apply(w, CopyBegin(ctx, from, to, session, fault));
            Lodged(w'.disk, w'.sessions) && w'.sessions.Keys <= w.sessions.Keys + {session}
            && (BeginCopy(w.disk, ctx, from, to, fault).Err? ==> w' == w)
  {
    var w' := Apply(w, CopyBegin(ctx, from, to, session, fault));
    forall p | p in w'.disk.dirs ensures HolderOk(w'.disk, w'.sessions, p) {
      assert HolderOk(w.disk, w.sessions, p);
    }
  }

  lemma EndKeepsLodged(w: World, session: string)
    requires Lodged(w.disk, w.sessions) && Possible(w, CopyEnd(session))
    ensures var w' := Apply(w, CopyEnd(session));
            Lodged(w'.disk, w'.sessions) && w'.sessions.Keys <= w.sessions.Keys - {session}
  {
    var w' := Apply(w, CopyEnd(session));
    forall p | p in w'.disk.dirs ensures HolderOk(w'.disk, w'.sessions, p) {
      assert HolderOk(w.disk, w.sessions, p);
    }
  }

  lemma WriteKeepsLodged(w: World, session: string, data: Option<Bytes>)
    requires Lodged(w.disk, w.sessions) && Possible(w, CopyWrite(session, data))
    ensures var w' := Apply(w, CopyWrite(session, data)); Lodged(w'.disk, w'.sessions)
  {
    var w' := Apply(w, CopyWrite(session, data));
    forall p | p in w'.disk.dirs ensures HolderOk(w'.disk, w'.sessions, p) {
      assert HolderOk(w.disk, w.sessions, p);
    }
  }

  lemma TakeKeepsAlone(x: Lone, env: Env, transferred: bool)
    requires Cat.CatalogInv(x.world.catalog, x.world.disk) && Alone(x) && CanTake(x, env)
    ensures Alone(Taken(x, env, transferred))
  {
    var a := CallOf(x.flow, env);
    match a
    case DoCall(ctx, req, e) => CallKeepsLodged(x.world, ctx, req, e);
    case CopyBegin(ctx, from, to, session, fault) => BeginKeepsLodged(x.world, ctx, from, to, session, fault);
    case CopyEnd(session) => EndKeepsLodged(x.world, session);
    case Idle =>
    case _ => ArchiveKeepsLodged(x.world, a);
  }

  lemma DoneTurn(x: Lone, env: Env, transferred: bool)
    requires x.flow.pc.Done?
    ensures Taken(x, env, transferred) == x
  {
  }

  lemma TurnKeepsAlone(x: Lone, t: Turn, y: Lone)
    requires Cat.CatalogInv(x.world.catalog, x.world.disk) && Alone(x) && LoneNext(x, t, y)
    ensures Alone(y)
  {
    match t
    case Again =>
    case Take(env, transferred) => TakeKeepsAlone(x, env, transferred);
    case Chunk(session, data) => WriteKeepsLodged(x.world, session, data);
    case Crash(restart) =>
      forall p | p in y.world.disk.dirs ensures HolderOk(y.world.disk, y.world.sessions, p) {
        assert y.world.disk.dirs[p].holder.None?;
      }
    case Drop =>
    case Recover =>
  }

  ghost predicate LoneRun(xs: seq<Lone>, ts: seq<Turn>) {
    |xs| == |ts| + 1 && forall i {:trigger ts[i]} | 0 <= i < |ts| :: LoneNext(xs[i], ts[i], xs[i + 1])
  }

  /** What every step of the workflow keeps of the rest of the system. */
  lemma TakeKeeps(x: Lone, env: Env, transferred: bool)
    requires SystemInv(x.world) && FlowOk(x.world, x.flow) && Alone(x) && CanTake(x, env)
    ensures var y := Taken(x, env, transferred); SystemInv(y.world) && FlowOk(y.world, y.flow) && Alone(y)
  {
    TurnKeepsSystem(x, Take(env, transferred), Taken(x, env, transferred));
    TakeKeepsAlone(x, env, transferred);
  }

  // ---------- a re-run without faults ----------

  /** A transfer that succeeds has left the source's bytes at the destination. */
  ghost function Delivered(w: World, session: string): World {
    if session in w.sessions && w.sessions[session].source in w.disk.dirs
        && w.sessions[session].destination in w.disk.dirs
    then Apply(w, CopyWrite(session, w.disk.dirs[w.sessions[session].source].data))
    else w
  }

  /** The next step without a fault. */
  ghost function Clean1(x: Lone, uuid: string): Lone {
    if CanTake(x, Env(Clean, uuid)) then Taken(x, Env(Clean, uuid), true) else x
  }

  /** ... and a copy that has begun is carried out. */
  ghost function CleanStep(x: Lone, uuid: string): Lone {
    var y := Clean1(x, uuid);
    if Copies(y.flow) == {} then y else y.(world := Delivered(y.world, uuid))
  }

  ghost function Rerun(x: Lone, uuids: seq<string>): Lone
    decreases uuids
  {
    if x.flow.pc.Done? || uuids == [] then x else Rerun(CleanStep(x, uuids[0]), uuids[1..])
  }

  /** A step of the workflow that is not a copy. */
  lemma StepIs(x: Lone, uuid: string, a: Action, pc: Pc)
    requires CanTake(x, Env(Clean, uuid)) && CallOf(x.flow, Env(Clean, uuid)) == a && !Ends(pc)
    requires Next(x.world, x.flow, Env(Clean, uuid), true) == pc
    ensures CleanStep(x, uuid) == Lone(Apply(x.world, a), x.flow.(pc := pc))
  {
  }

  lemma RerunSteps(x: Lone, uuids: seq<string>, y: Lone)
    requires !x.flow.pc.Done? && uuids != [] && CleanStep(x, uuids[0]) == y
    ensures Rerun(x, uuids) == Rerun(y, uuids[1..])
  {
  }

  /** UUIDs the environment may still hand out, in this order. */
  ghost predicate FreshIds(w: World, uuids: seq<string>) {
    && (forall i | 0 <= i < |uuids| :: FreshId(w, uuids[i]))
    && (forall i, j | 0 <= i < j < |uuids| :: uuids[i] != uuids[j])
  }

  lemma Clean1Issues(x: Lone, uuid: string)
    ensures Clean1(x, uuid).world.issued <= x.world.issued + {uuid}
  {
  }

  lemma CleanStepIssuesOne(x: Lone, uuid: string)
    ensures CleanStep(x, uuid).world.issued <= x.world.issued + {uuid}
  {
    Clean1Issues(x, uuid);
  }

  lemma CleanStepIssues(x: Lone, uuids: seq<string>)
    requires FreshIds(x.world, uuids) && uuids != []
    ensures FreshIds(CleanStep(x, uuids[0]).world, uuids[1..])
  {
    CleanStepIssuesOne(x, uuids[0]);
  }

  /** Whatever the next call is, nothing stands in its way. */
  lemma NothingBlocks(x: Lone, env: Env)
    requires WellFormed(x.flow) && x.world.source.Opened? && Alone(x) && FreshId(x.world, env.uuid)
    requires Ends(x.flow.pc) ==> SessionLive(x.world, CopyId(x.flow.pc))
    ensures CanTake(x, env)
  {
    if Copies(x.flow) == {} {
      assert forall k :: k in x.world.sessions ==> k in x.world.sessions.Keys;
    }
  }

  predicate EndedOk(pc: Pc) {
    pc.Done? && pc.result.Ok?
  }

  predicate Failed(pc: Pc) {
    pc.Done? && pc.result.Err?
  }

  predicate Ends(pc: Pc) {
    pc.Copying? || pc.Fetching?
  }

  function CopyId(pc: Pc): string {
    if Ends(pc) then pc.session else ""
  }

  predicate SessionLive(w: World, session: string) {
    session in w.sessions && w.sessions[session].source in w.disk.dirs && w.sessions[session].destination in w.disk.dirs
  }

  /** Carrying out a copy is one of its chunks. */
  lemma DeliveredIsChunk(y: Lone, session: string)
    requires SessionLive(y.world, session)
    requires y.world.sessions[session].source != y.world.sessions[session].destination
    ensures var s := y.world.sessions[session];
            var w := Delivered(y.world, session);
            var data := y.world.disk.dirs[s.source].data;
            && w == Apply(y.world, CopyWrite(session, data))
            && LoneNext(y, Chunk(session, data), y.(world := w))
            && s.source in w.disk.dirs && w.disk.dirs[s.source] == y.world.disk.dirs[s.source]
            && s.destination in w.disk.dirs && w.disk.dirs[s.destination].data == data
            && w.source == y.world.source && w.sessions == y.world.sessions
  {
  }

  // ---------- reachable worlds ----------

  /** The ends of system runs. A workflow's turns and re-runs are system steps, so what a lone
      workflow can be brought to from a reachable world is reachable; and the environment never runs
      out of UUIDs. */
  ghost predicate Reachable(w: World) {
    exists ws, acts :: Run(ws, acts) && ws[|acts|] == w
  }

  lemma FirstIsReachable(w: World)
    requires Init(w)
    ensures Reachable(w)
  {
    var acts: seq<Action> := [];
    assert Run([w], acts) && [w][|acts|] == w;
  }

  lemma StepIsReachable(w: World, a: Action)
    requires Reachable(w) && Enabled(w, a)
    ensures Reachable(Apply(w, a))
  {
    var ws, acts :| Run(ws, acts) && ws[|acts|] == w;
    var longer, more := ws + [Apply(w, a)], acts + [a];
    RunExtends(ws, acts, a, longer, more);
  }

  lemma RunExtends(ws: seq<World>, acts: seq<Action>, a: Action, longer: seq<World>, more: seq<Action>)
    requires Run(ws, acts) && Enabled(ws[|acts|], a)
    requires longer == ws + [Apply(ws[|acts|], a)] && more == acts + [a]
    ensures Run(longer, more)
  {
    forall i {:trigger more[i]} | 0 <= i < |more|
      ensures Enabled(longer[i], more[i]) && longer[i + 1] == Apply(longer[i], more[i])
    {
      if i < |acts| { assert more[i] == acts[i]; }
    }
  }

  lemma ReachableIsSound(w: World)
    requires Reachable(w)
    ensures SystemInv(w)
  {
    var ws, acts :| Run(ws, acts) && ws[|acts|] == w;
    RunKeepsInv(ws, acts, |acts|);
  }

  // ---------- a lone workflow's turns ----------

  /** The system action a turn is. */
  function ActionOfTurn(x: Lone, t: Turn): Action {
    match t
    case Again => Idle
    case Take(env, _) => if WellFormed(x.flow) then CallOf(x.flow, env) else Idle
    case Chunk(session, data) => CopyWrite(session, data)
    case Crash(restart) => restart
    case Drop => Close
    case Recover => Reopen
  }

  lemma TurnIsAction(x: Lone, t: Turn, y: Lone)
    requires LoneNext(x, t, y)
    ensures Possible(x.world, ActionOfTurn(x, t)) && y.world == Apply(x.world, ActionOfTurn(x, t))
  {
  }

  lemma TurnIsReachable(x: Lone, t: Turn, y: Lone)
    requires Reachable(x.world) && FlowOk(x.world, x.flow) && LoneNext(x, t, y)
    ensures Reachable(y.world) && FlowOk(y.world, y.flow)
  {
    ReachableIsSound(x.world);
    TurnKeepsSystem(x, t, y);
    TurnIsAction(x, t, y);
    TurnIsEnabled(x, t);
    StepIsReachable(x.world, ActionOfTurn(x, t));
  }

  lemma TurnIsEnabled(x: Lone, t: Turn)
    requires FlowOk(x.world, x.flow) && (t.Crash? ==> t.restart.Restart?)
    ensures Allowed(x.world, ActionOfTurn(x, t))
  {
    if t.Take? { TakeIsAllowed(x.world, x.flow, t.env); }
  }

  lemma RunIsReachable(xs: seq<Lone>, ts: seq<Turn>, i: nat)
    requires LoneRun(xs, ts) && Reachable(xs[0].world) && FlowOk(xs[0].world, xs[0].flow) && i < |xs|
    ensures Reachable(xs[i].world) && FlowOk(xs[i].world, xs[i].flow)
  {
    for j := 0 to i
      invariant Reachable(xs[j].world) && FlowOk(xs[j].world, xs[j].flow)
    {
      TurnIsReachable(xs[j], ts[j], xs[j + 1]);
    }
  }

  // ---------- runs of turns ----------

  /** The workflow can get from one moment to the other by turns of its own. */
  ghost predicate Leads(x: Lone, y: Lone) {
    exists xs, ts :: LoneRun(xs, ts) && xs[0] == x && xs[|ts|] == y
  }

  lemma LeadsNowhere(x: Lone)
    ensures Leads(x, x)
  {
    var ts: seq<Turn> := [];
    assert LoneRun([x], ts) && [x][0] == x && [x][|ts|] == x;
  }

  lemma OneTurnLeads(x: Lone, t: Turn, y: Lone)
    requires LoneNext(x, t, y)
    ensures Leads(x, y)
  {
    assert LoneRun([x, y], [t]) && [x, y][0] == x && [x, y][|[t]|] == y;
  }

  lemma LeadsOn(x: Lone, y: Lone, z: Lone)
    requires Leads(x, y) && Leads(y, z)
    ensures Leads(x, z)
  {
    var xs, ts :| LoneRun(xs, ts) && xs[0] == x && xs[|ts|] == y;
    var ys, us :| LoneRun(ys, us) && ys[0] == y && ys[|us|] == z;
    RunsJoin(xs, ts, ys, us);
    assert (xs[..|ts|] + ys)[0] == x && (xs[..|ts|] + ys)[|ts + us|] == z;
  }

  lemma RunsJoin(xs: seq<Lone>, ts: seq<Turn>, ys: seq<Lone>, us: seq<Turn>)
    requires LoneRun(xs, ts) && LoneRun(ys, us) && xs[|ts|] == ys[0]
    ensures LoneRun(xs[..|ts|] + ys, ts + us)
  {
    var zs, vs := xs[..|ts|] + ys, ts + us;
    forall i {:trigger vs[i]} | 0 <= i < |vs| ensures LoneNext(zs[i], vs[i], zs[i + 1]) {
      if i < |ts| {
        assert vs[i] == ts[i] && zs[i] == xs[i] && zs[i + 1] == xs[i + 1];
      } else {
        assert vs[i] == us[i - |ts|] && zs[i] == ys[i - |ts|] && zs[i + 1] == ys[i - |ts| + 1];
      }
    }
  }

  lemma CleanStepLeads(x: Lone, uuid: string)
    ensures Leads(x, CleanStep(x, uuid))
  {
    var y, z := Clean1(x, uuid), CleanStep(x, uuid);
    LeadsNowhere(x);
    if CanTake(x, Env(Clean, uuid)) {
      OneTurnLeads(x, Take(Env(Clean, uuid), true), y);
    }
    if z != y {
      DeliveryLeads(y, uuid);
      LeadsOn(x, y, z);
    }
  }

  lemma DeliveryLeads(y: Lone, uuid: string)
    ensures Leads(y, y.(world := Delivered(y.world, uuid)))
  {
    var w := y.world;
    LeadsNowhere(y);
    if uuid in w.sessions && w.sessions[uuid].source in w.disk.dirs && w.sessions[uuid].destination in w.disk.dirs {
      var data := w.disk.dirs[w.sessions[uuid].source].data;
      OneTurnLeads(y, Chunk(uuid, data), y.(world := Delivered(w, uuid)));
    }
  }

  lemma {:induction false} RerunLeads(x: Lone, uuids: seq<string>)
    ensures Leads(x, Rerun(x, uuids))
    decreases uuids
  {
    LeadsNowhere(x);
    if !x.flow.pc.Done? && uuids != [] {
      CleanStepLeads(x, uuids[0]);
      RerunLeads(CleanStep(x, uuids[0]), uuids[1..]);
      LeadsOn(x, CleanStep(x, uuids[0]), Rerun(x, uuids));
    }
  }

  lemma LeadsReaches(x: Lone, y: Lone)
    requires Leads(x, y) && Reachable(x.world) && FlowOk(x.world, x.flow)
    ensures Reachable(y.world) && FlowOk(y.world, y.flow)
  {
    var xs, ts :| LoneRun(xs, ts) && xs[0] == x && xs[|ts|] == y;
    RunIsReachable(xs, ts, |ts|);
  }

  /** A re-run keeps what every step keeps. */
  lemma RerunKeeps(x: Lone, uuids: seq<string>)
    requires SystemInv(x.world) && FlowOk(x.world, x.flow) && Alone(x)
    ensures var z := Rerun(x, uuids); SystemInv(z.world) && FlowOk(z.world, z.flow) && Alone(z)
  {
    RerunLeads(x, uuids);
    var z := Rerun(x, uuids);
    var xs: seq<Lone>, ts :| LoneRun(xs, ts) && xs[0] == x && xs[|ts|] == z;
    for j := 0 to |ts|
      invariant SystemInv(xs[j].world) && FlowOk(xs[j].world, xs[j].flow) && Alone(xs[j])
    {
      TurnKeepsBoth(xs[j], ts[j], xs[j + 1]);
    }
  }

  lemma TurnKeepsBoth(x: Lone, t: Turn, y: Lone)
    requires SystemInv(x.world) && FlowOk(x.world, x.flow) && Alone(x) && LoneNext(x, t, y)
    ensures SystemInv(y.world) && FlowOk(y.world, y.flow) && Alone(y)
  {
    TurnKeepsSystem(x, t, y);
    TurnKeepsAlone(x, t, y);
  }

  // ---------- UUIDs ----------

  function Longer(issued: set<string>, n: nat): bool {
    forall u | u in issued :: |u| < n
  }

  lemma {:induction false} SomeLengthIsLonger(issued: set<string>) returns (n: nat)
    ensures Longer(issued, n)
  {
    n := 0;
    if issued != {} {
      var u :| u in issued;
      var m := SomeLengthIsLonger(issued - {u});
      n := if |u| < m then m else |u| + 1;
    }
  }

  function Name(length: nat): (s: string)
    ensures |s| == length
  {
    seq(length, i => 'u')
  }

  /** However many have been drawn, any number of UUIDs is left. */
  lemma FreshIdsExist(w: World, count: nat) returns (uuids: seq<string>)
    ensures |uuids| == count && FreshIds(w, uuids)
  {
    var n := SomeLengthIsLonger(w.issued);
    uuids := seq(count, i requires 0 <= i < count => Name(n + i + 1));
    forall i | 0 <= i < |uuids| ensures FreshId(w, uuids[i]) {
      assert uuids[i] == Name(n + i + 1);
    }
    forall i, j | 0 <= i < j < |uuids| ensures uuids[i] != uuids[j] {
      assert uuids[i] == Name(n + i + 1) && uuids[j] == Name(n + j + 1);
    }
  }

  lemma FreshIdExists(w: World) returns (uuid: string)
    ensures FreshId(w, uuid)
  {
    var uuids := FreshIdsExist(w, 1);
    assert FreshId(w, uuids[0]);
    uuid := uuids[0];
  }

  // ---------- a restart from anywhere ----------

  /** The crash that loses every seal it can. */
  function Unsettled(dir: LayoutDir): LayoutDir {
    LayoutDir(dir.data, dir.synced, if dir.seal.SealDurable? then SealDurable else Unsealed, None)
  }

  function Losing(d: Disk): Disk {
    d.(dirs := map p | p in d.dirs :: Unsettled(d.dirs[p]))
  }

  function LosingCrash(w: World, renameKept: bool): Action {
    Restart(Losing(w.disk), w.catalog.linked, w.catalog.attempts, renameKept)
  }

  lemma LosingCrashIsPossible(w: World, renameKept: bool)
    requires Cat.CatalogInv(w.catalog, w.disk)
    ensures Possible(w, LosingCrash(w, renameKept))
  {
  }

  // ---------- later worlds ----------

  /** Some run passes through the one world and ends in the other. */
  ghost predicate Onward(w: World, z: World) {
    exists ws, acts, i: nat :: Run(ws, acts) && i <= |acts| && ws[i] == w && ws[|acts|] == z
  }

  lemma OnwardFrom(w: World)
    requires Reachable(w)
    ensures Onward(w, w)
  {
    var ws, acts :| Run(ws, acts) && ws[|acts|] == w;
    assert Run(ws, acts) && ws[|acts|] == w;
  }

  lemma OnwardIsReachable(w: World, z: World)
    requires Onward(w, z)
    ensures Reachable(z)
  {
    var ws, acts, i: nat :| Run(ws, acts) && i <= |acts| && ws[i] == w && ws[|acts|] == z;
    assert Run(ws, acts) && ws[|acts|] == z;
  }

  lemma OnwardStep(w: World, z: World, a: Action)
    requires Onward(w, z) && Enabled(z, a)
    ensures Onward(w, Apply(z, a))
  {
    var ws, acts, i: nat :| Run(ws, acts) && i <= |acts| && ws[i] == w && ws[|acts|] == z;
    var longer, more := ws + [Apply(z, a)], acts + [a];
    RunExtends(ws, acts, a, longer, more);
    assert longer[i] == w && longer[|more|] == Apply(z, a);
  }

  lemma OnwardJoins(w: World, x: World, y: World)
    requires Onward(w, x) && Onward(x, y)
    ensures Onward(w, y)
  {
    var ws, acts, i: nat :| Run(ws, acts) && i <= |acts| && ws[i] == w && ws[|acts|] == x;
    var vs, bcts, j: nat :| Run(vs, bcts) && j <= |bcts| && vs[j] == x && vs[|bcts|] == y;
    var longer, more := ws + vs[j + 1..], acts + bcts[j..];
    forall k {:trigger more[k]} | 0 <= k < |more| ensures Enabled(longer[k], more[k])
        && longer[k + 1] == Apply(longer[k], more[k]) {
      if k < |acts| {
        assert more[k] == acts[k];
      } else {
        assert more[k] == bcts[j + k - |acts|] && longer[k] == vs[j + k - |acts|]
            && longer[k + 1] == vs[j + k + 1 - |acts|];
      }
    }
    assert Run(longer, more) && longer[i] == w && longer[|more|] == y;
  }

  lemma TurnIsOnward(w: World, x: Lone, t: Turn, y: Lone)
    requires Onward(w, x.world) && FlowOk(x.world, x.flow) && LoneNext(x, t, y)
    ensures Onward(w, y.world) && FlowOk(y.world, y.flow)
  {
    OnwardIsReachable(w, x.world);
    TurnIsReachable(x, t, y);
    TurnIsAction(x, t, y);
    TurnIsEnabled(x, t);
    OnwardStep(w, x.world, ActionOfTurn(x, t));
  }

  lemma LeadsIsOnward(w: World, x: Lone, y: Lone)
    requires Onward(w, x.world) && FlowOk(x.world, x.flow) && Leads(x, y)
    ensures Onward(w, y.world) && FlowOk(y.world, y.flow)
  {
    var xs: seq<Lone>, ts :| LoneRun(xs, ts) && xs[0] == x && xs[|ts|] == y;
    for j := 0 to |ts|
      invariant Onward(w, xs[j].world) && FlowOk(xs[j].world, xs[j].flow)
    {
      TurnIsOnward(w, xs[j], ts[j], xs[j + 1]);
    }
  }

  /** The metadata a healthy handle knew is part of what any later healthy one knows. */
  lemma OnwardEvolves(w: World, z: World)
    requires Onward(w, z) && Healthy(w) && Healthy(z)
    ensures Evolves(Memory(w), Memory(z))
  {
    var ws, acts, i: nat :| Run(ws, acts) && i <= |acts| && ws[i] == w && ws[|acts|] == z;
    HealthyStateSurvives(ws, acts, i, |acts|);
  }
}
