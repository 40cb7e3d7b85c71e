/**
 The recall window from the inside: what puts a recall into it, that it is for good once the seal is
 durable, and that it is the only thing that keeps re-runs from finishing.
 */
module RecallWindow {
  import opened Managed
  import opened Files
  import opened SourceState
  import opened SourceInvariants
  import opened SourceSteps
  import opened System
  import opened SystemSafety
  import opened SystemTheorems
  import E = Engine
  import opened Lone
  import R = RecallRecovery
  import Cat = Catalog

  // ---------- into the window ----------

  predicate DurablySealed(d: Disk, l: string) {
    SourceLayout(l) in d.dirs && d.dirs[SourceLayout(l)].seal.SealDurable?
  }

  /** A commit_recall cut off between the seal and the persisted metadata leaves the metadata file
      as it was and the layout sealed: for good, if only the metadata write failed. */
  lemma CutPublishSeals(o: R.Operation, l: string, st: Store, d: Disk, env: Env)
    requires R.Given(o) && R.At(o, R.Reserved(l), st.state) && !st.poisoned && R.Filled(o, d, l)
    requires env.fault == PersistFault(false) || env.fault == SealFault(true)
    ensures var r := Call(st, d, o.ctx, CommitRecall(R.TargetOf(o, l), Content(o.expected)), env);
            && r.result.Err? && r.store.file == st.file && r.store.state == st.state && R.SealedLayout(r.disk, l)
            && (env.fault.PersistFault? ==> DurablySealed(r.disk, l))
  {
    R.PublishEffect(o, l, st.state, d, env);
  }

  // ---------- in the window for good ----------

  /** Neither version of the metadata file has the commit, and the seal survives a crash. */
  ghost predicate Jammed(o: R.Operation, x: Lone, l: string) {
    R.Stand(o, x, R.Reserved(l), R.Reserved(l)) && DurablySealed(x.world.disk, l)
  }

  lemma JammedIsFrozen(o: R.Operation, x: Lone, l: string)
    requires Jammed(o, x, l)
    ensures Frozen(x.world.disk, SourceLayout(l), Content(o.expected)) && SourceLayout(l) !in x.world.disk.unlinked
    ensures !x.flow.pc.Publish? && !EndedOk(x.flow.pc)
  {
    R.ReservedIsThere(o, x, R.Reserved(l));
    R.StandKnowsReserved(o, x.world, R.Reserved(l), R.Reserved(l));
  }

  /** No turn of the operation leads out: no step, no fault, no restart, no re-run. */
  lemma JammedTurn(o: R.Operation, x: Lone, t: Turn, y: Lone, l: string)
    requires Jammed(o, x, l) && LoneNext(x, t, y)
    ensures Jammed(o, y, l)
  {
    JammedIsFrozen(o, x, l);
    var dq, vq := R.TurnStands(o, x, t, y, R.Reserved(l), R.Reserved(l));
    TurnIsAction(x, t, y);
    TurnIsEnabled(x, t);
    SealedStaysFrozen(x.world, ActionOfTurn(x, t), SourceLayout(l), Content(o.expected));
  }

  lemma JammedForever(o: R.Operation, xs: seq<Lone>, ts: seq<Turn>, i: nat, l: string)
    requires LoneRun(xs, ts) && Jammed(o, xs[0], l) && i < |xs|
    ensures Jammed(o, xs[i], l) && !EndedOk(xs[i].flow.pc)
  {
    for j := 0 to i
      invariant Jammed(o, xs[j], l)
    {
      JammedTurn(o, xs[j], ts[j], xs[j + 1], l);
    }
    JammedIsFrozen(o, xs[i], l);
  }

  // ---------- out of it ----------

  /** After that crash and a reopening the workflow starts again. */
  ghost function Restarted(x: Lone, renameKept: bool): Lone {
    var w := Apply(x.world, LosingCrash(x.world, renameKept));
    Lone(Apply(w, Reopen), x.flow.(pc := E.Ask))
  }

  lemma RestartedLeads(x: Lone, renameKept: bool)
    requires Possible(x.world, LosingCrash(x.world, renameKept))
    ensures Leads(x, Restarted(x, renameKept))
  {
    var a := LosingCrash(x.world, renameKept);
    var failed := x.flow.(pc := E.Done(Err(HsmError.Unknown)));
    var y := Lone(Apply(x.world, a), failed);
    var z := Lone(Apply(y.world, Reopen), failed);
    OneTurnLeads(x, Crash(a), y);
    OneTurnLeads(y, Recover, z);
    OneTurnLeads(z, Again, Restarted(x, renameKept));
    LeadsOn(x, y, z);
    LeadsOn(x, z, Restarted(x, renameKept));
  }

  lemma RecoverTurn(o: R.Operation, y: Lone, dp: R.Phase, vp: R.Phase, z: Lone)
    requires R.Stand(o, y, dp, vp) && LoneNext(y, Recover, z)
    ensures R.Stand(o, z, vp, vp)
  {
    var dq, vq := R.TurnStands(o, y, Recover, z, dp, vp);
  }

  lemma AgainTurn(o: R.Operation, y: Lone, dp: R.Phase, z: Lone)
    requires R.Stand(o, y, dp, dp) && LoneNext(y, Again, z)
    ensures R.Stand(o, z, dp, dp)
  {
    var dq, vq := R.TurnStands(o, y, Again, z, dp, dp);
  }

  /** The crash, the reopening and the new start are turns, and leave a healthy handle and the
      durable seals only. */
  lemma RestartedTurns(x: Lone, renameKept: bool) returns (y: Lone, z: Lone)
    requires Cat.CatalogInv(x.world.catalog, x.world.disk)
    ensures Possible(x.world, LosingCrash(x.world, renameKept))
    ensures LoneNext(x, Crash(LosingCrash(x.world, renameKept)), y) && LoneNext(y, Recover, z)
    ensures LoneNext(z, Again, Restarted(x, renameKept))
    ensures Healthy(Restarted(x, renameKept).world) && Restarted(x, renameKept).flow.pc == E.Ask
    ensures Restarted(x, renameKept).world.disk == Losing(x.world.disk)
  {
    LosingCrashIsPossible(x.world, renameKept);
    var failed := x.flow.(pc := E.Done(Err(HsmError.Unknown)));
    y := Lone(Apply(x.world, LosingCrash(x.world, renameKept)), failed);
    z := Lone(Apply(y.world, Reopen), failed);
  }

  /** What the restart reveals. */
  lemma RestartedStands(o: R.Operation, x: Lone, dp: R.Phase, vp: R.Phase, renameKept: bool) returns (p: R.Phase)
    requires R.Stand(o, x, dp, vp)
    ensures p == (if renameKept then vp else dp)
    ensures Possible(x.world, LosingCrash(x.world, renameKept)) && R.Stand(o, Restarted(x, renameKept), p, p)
  {
    var y, z := RestartedTurns(x, renameKept);
    var dq;
    dq, p := R.TurnStands(o, x, Crash(LosingCrash(x.world, renameKept)), y, dp, vp);
    RecoverTurn(o, y, dp, p, z);
    AgainTurn(o, z, p, Restarted(x, renameKept));
  }

  ghost predicate CanFinish(x: Lone) {
    exists y :: Leads(x, y) && EndedOk(y.flow.pc)
  }

  /** Where the durable layout of an open recall is not sealed, or one version of the file is not
      waiting for it, a restart and a re-run finish. */
  lemma UnjammedCanFinish(o: R.Operation, x: Lone, dp: R.Phase, vp: R.Phase)
    requires R.Stand(o, x, dp, vp)
    requires !(dp.Reserved? && vp.Reserved? && DurablySealed(x.world.disk, R.LayoutId(dp)))
    ensures CanFinish(x)
  {
    var renameKept := !dp.Unstarted?;
    var p := RestartedStands(o, x, dp, vp, renameKept);
    var z := Restarted(x, renameKept);
    RestartedIsReady(o, x, renameKept, p);
    var uuids := FreshIdsExist(z.world, 7);
    var q := R.RerunEnds(o, z, uuids, p);
    RestartedLeads(x, renameKept);
    RerunLeads(z, uuids);
    LeadsOn(x, z, Rerun(z, uuids));
  }

  lemma RestartedIsReady(o: R.Operation, x: Lone, renameKept: bool, p: R.Phase)
    requires Cat.CatalogInv(x.world.catalog, x.world.disk) && Possible(x.world, LosingCrash(x.world, renameKept))
    requires R.Stand(o, Restarted(x, renameKept), p, p)
    requires p.Reserved? ==> !DurablySealed(x.world.disk, R.LayoutId(p))
    ensures R.Ready(o, Restarted(x, renameKept), p) && !R.Wedged(Restarted(x, renameKept).world.disk, p, p)
    ensures Restarted(x, renameKept).flow.pc == E.Ask
  {
    var y, z := RestartedTurns(x, renameKept);
  }

  // ---------- the exact condition ----------

  /** Both versions of the metadata file, the visible and the durable one, have a recall of the data
      key open whose layout is durably sealed. */
  predicate Window(w: World, data: DataKey) {
    var s, t := FileOf(w.source).durable.recalls, FileOf(w.source).visible.recalls;
    exists l | l in s && l in t :: s[l].target.data == data && DurablySealed(w.disk, l)
  }

  lemma WindowIsJammed(o: R.Operation, w: World, dp: R.Phase, vp: R.Phase)
    requires R.Given(o) && R.SourceStand(o, w.source, dp, vp)
    ensures Window(w, o.expected.data) <==> dp.Reserved? && vp.Reserved? && DurablySealed(w.disk, dp.layoutId)
  {
    var s := FileOf(w.source).durable.recalls;
    if dp.Reserved? {
      assert s[dp.layoutId].target == R.TargetOf(o, dp.layoutId);
    }
    assert forall l | l in s && !(dp.Reserved? && l == dp.layoutId) :: l in o.base.recalls && s[l] == o.base.recalls[l];
  }

  /** At every moment of every history of an undisturbed recall: some continuation, by whatever
      faults, restarts and re-runs, still finishes it, if and only if it is not in the window. */
  lemma RecallCanFinishIffOutsideTheWindow(o: R.Operation, x: Lone)
    requires R.Stands(o, x)
    ensures R.Given(o) && (CanFinish(x) <==> !Window(x.world, o.expected.data))
  {
    var dp, vp :| R.Stand(o, x, dp, vp);
    StandCanFinishIffOutsideTheWindow(o, x, dp, vp);
  }

  lemma StandCanFinishIffOutsideTheWindow(o: R.Operation, x: Lone, dp: R.Phase, vp: R.Phase)
    requires R.Stand(o, x, dp, vp)
    ensures CanFinish(x) <==> !Window(x.world, o.expected.data)
  {
    WindowIsJammed(o, x.world, dp, vp);
    if Window(x.world, o.expected.data) {
      forall y | Leads(x, y) ensures !EndedOk(y.flow.pc) {
        var xs, ts :| LoneRun(xs, ts) && xs[0] == x && xs[|ts|] == y;
        JammedForever(o, xs, ts, |ts|, dp.layoutId);
      }
    } else {
      UnjammedCanFinish(o, x, dp, vp);
    }
  }

  // ---------- every recall can get into it ----------

  /** The workflow is under way and has not published. */
  ghost predicate Approaching(o: R.Operation, x: Lone, dp: R.Phase) {
    R.Ready(o, x, dp) && !R.Wedged(x.world.disk, dp, dp) && !x.flow.pc.Done? && !dp.Recalled?
  }

  lemma ApproachStep(o: R.Operation, x: Lone, uuid: string, dp: R.Phase) returns (dq: R.Phase)
    requires Approaching(o, x, dp) && !x.flow.pc.Publish? && FreshId(x.world, uuid)
    ensures var z := CleanStep(x, uuid); Approaching(o, z, dq) && R.Rank(z.flow.pc) < R.Rank(x.flow.pc)
  {
    var y, z := Clean1(x, uuid), CleanStep(x, uuid);
    dq := R.CleanTakeStands(o, x, uuid, dp);
    R.CopySession(x, uuid);
    R.CleanStepStands(o, x, y, z, uuid, dq);
  }

  lemma AtPublish(o: R.Operation, x: Lone, dp: R.Phase) returns (l: string)
    requires R.Standing(o, x.world, x.flow.pc, dp, dp) && x.flow.pc.Publish?
    ensures dp == R.Reserved(l)
  {
    l := dp.layoutId;
  }

  /** Without faults it gets to its publish step. */
  lemma {:induction false} PublishIsReached(o: R.Operation, x: Lone, dp: R.Phase) returns (y: Lone, l: string)
    requires Approaching(o, x, dp)
    ensures Leads(x, y) && Approaching(o, y, R.Reserved(l)) && y.flow.pc.Publish?
    decreases R.Rank(x.flow.pc)
  {
    if x.flow.pc.Publish? {
      y := x;
      l := AtPublish(o, x, dp);
      LeadsNowhere(x);
    } else {
      var uuid := FreshIdExists(x.world);
      var dq := ApproachStep(o, x, uuid, dp);
      var z := CleanStep(x, uuid);
      CleanStepLeads(x, uuid);
      y, l := PublishIsReached(o, z, dq);
      LeadsOn(x, z, y);
    }
  }

  lemma PhaseIsUnique(o: R.Operation, p: R.Phase, q: R.Phase, s: State)
    requires R.Given(o) && R.At(o, p, s) && R.At(o, q, s)
    ensures p == q
  {
    var k := StepKey(o.ctx, PrepareRecallStep);
    assert k in s.steps <==> !p.Unstarted?;
    assert k in s.steps <==> !q.Unstarted?;
    assert o.ctx.operationId in s.completed <==> p.Recalled?;
    assert o.ctx.operationId in s.completed <==> q.Recalled?;
    if !p.Unstarted? {
      assert s.steps[k].result == Ok(TargetReply(R.TargetOf(o, p.layoutId)));
      assert s.steps[k].result == Ok(TargetReply(R.TargetOf(o, q.layoutId)));
    }
  }

  /** The publish step, with a metadata write that fails. */
  lemma CutTake(o: R.Operation, x: Lone, l: string, env: Env)
    requires R.Given(o) && x.flow.ctx == o.ctx && x.flow.job == E.RecallJob(o.expected, o.key)
    requires x.flow.pc == E.Publish(R.TargetOf(o, l), Content(o.expected)) && CanTake(x, env)
             && env.fault == PersistFault(false)
    requires Healthy(x.world) && R.At(o, R.Reserved(l), Memory(x.world)) && R.Filled(o, x.world.disk, l)
    ensures var y := Taken(x, env, false);
            && FileOf(y.world.source) == FileOf(x.world.source) && DurablySealed(y.world.disk, l)
            && y.flow.pc.Done? && y.world.source.Opened?
  {
    CutPublishSeals(o, l, Handle(x.world), x.world.disk, env);
  }

  /** So from any first call of a recall, one failed write leads into the window, for good; and
      reopening the storage shows it there, healthy. */
  lemma AnyRecallCanBeJammed(o: R.Operation, x: Lone) returns (y: Lone, l: string)
    requires R.Begun(o, x)
    ensures Leads(x, y) && Jammed(o, y, l) && Healthy(y.world) && y.flow.pc.Done?
  {
    R.BegunStands(o, x);
    var at;
    at, l := PublishIsReached(o, x, R.Unstarted);
    var uuid := FreshIdExists(at.world);
    var cut := CutIsJammed(o, at, l, uuid);
    y := JammedReopens(o, cut, l);
    LeadsOn(x, at, cut);
    LeadsOn(x, cut, y);
  }

  lemma CutIsJammed(o: R.Operation, x: Lone, l: string, uuid: string) returns (y: Lone)
    requires Approaching(o, x, R.Reserved(l)) && x.flow.pc.Publish? && FreshId(x.world, uuid)
    ensures Leads(x, y) && Jammed(o, y, l) && y.flow.pc.Done? && y.world.source.Opened?
  {
    var t := Take(Env(PersistFault(false), uuid), false);
    AloneIsFree(x, SourceLayout(l));
    NothingBlocks(x, t.env);
    CutTake(o, x, l, t.env);
    y := Taken(x, t.env, t.transferred);
    var dq, vq := R.TurnStands(o, x, t, y, R.Reserved(l), R.Reserved(l));
    PhaseIsUnique(o, R.Reserved(l), dq, FileOf(x.world.source).durable);
    PhaseIsUnique(o, R.Reserved(l), vq, FileOf(x.world.source).visible);
    OneTurnLeads(x, t, y);
  }

  lemma DropTurns(x: Lone) returns (y: Lone, z: Lone)
    requires x.flow.pc.Done? && x.world.source.Opened?
    ensures LoneNext(x, Drop, y) && LoneNext(y, Recover, z) && z.flow.pc.Done? && Healthy(z.world)
  {
    y := Lone(Apply(x.world, Close), x.flow.(pc := E.Done(Err(HsmError.Unknown))));
    z := y.(world := Apply(y.world, Reopen));
  }

  lemma JammedReopens(o: R.Operation, x: Lone, l: string) returns (z: Lone)
    requires Jammed(o, x, l) && x.flow.pc.Done? && x.world.source.Opened?
    ensures Leads(x, z) && Jammed(o, z, l) && z.flow.pc.Done? && Healthy(z.world)
  {
    var y;
    y, z := DropTurns(x);
    JammedTurn(o, x, Drop, y, l);
    JammedTurn(o, y, Recover, z, l);
    OneTurnLeads(x, Drop, y);
    OneTurnLeads(y, Recover, z);
    LeadsOn(x, y, z);
  }
}
