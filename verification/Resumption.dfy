/**
 Re-runs after anything. Whatever any number of other clients, copies, collections and crashes have
 done before, an operation that is undecided at the source is finished from any quiet moment by a
 re-run without faults: an archive always, a recall exactly if its layout is not sealed.
 */
module Resumption {
  import opened Managed
  import opened Files
  import opened SourceState
  import opened SourceInvariants
  import opened System
  import opened SystemSafety
  import opened Pinning
  import opened Unpinning
  import E = Engine
  import opened Lone
  import A = ArchiveRecovery
  import R = RecallRecovery
  import L = Lifecycle
  import Cat = Catalog

  // ---------- archive ----------

  /** The operation has not been called yet and nobody else has a view, or it has its own. */
  predicate ViewIsOwn(s: State, ctx: OperationContext, data: DataKey, view: Option<DataView>) {
    match view
    case None => StepKey(ctx, PrepareArchiveStep) !in s.steps && !Viewed(s, data)
    case Some(v) => HasView(s, ctx, v) && v.data == data
  }

  /** The key is free or names this content; an attempt on it under this context is for the view. */
  predicate KeyIsOwn(c: Cat.Catalog, ctx: OperationContext, e: Entity, key: ArchiveKey, view: Option<DataView>) {
    && Cat.OwnKey(c.id, key)
    && (key in c.linked ==>
          var r := c.linked[key].receipt;
          r.data == e.public.data && r.length == e.public.length && r.digest == e.public.digest)
    && (Cat.AttemptOf(ctx, key) in c.attempts ==> view == Some(c.attempts[Cat.AttemptOf(ctx, key)].view))
  }

  predicate ArchiveResumable(w: World, ctx: OperationContext, e: Entity, key: ArchiveKey, view: Option<DataView>) {
    var s := Memory(w);
    && w.source.Opened? && Qualify(ctx).Ok? && EntityOf(s, e.public.data) == Ok(e) && e.published.Some?
    && Undecided(s, ctx, CommitArchiveStep)
    && ViewIsOwn(s, ctx, e.public.data, view) && KeyIsOwn(w.catalog, ctx, e, key, view)
  }

  /** The metadata with the archive done: one receipt attached, the view closed, nothing else. */
  predicate ArchiveDone(s: State, t: State, ctx: OperationContext, e: Entity, key: ArchiveKey, view: Option<DataView>,
                        receipt: ArchiveReceipt) {
    var f := Attach(e, receipt);
    && t.entities == s.entities[e.public.data.entity.entity := f]
    && t.views == (if view.Some? then s.views - {view.value.viewId} else s.views)
    && t.recalls == s.recalls && t.gc == s.gc
    && t.completed == s.completed[ctx.operationId := Completed(ctx, e.public.data, Archive(key), f.public)]
    && receipt.key == key && receipt.data == e.public.data
    && receipt.length == e.public.length && receipt.digest == e.public.digest
  }

  function OperationAt(s: State, ctx: OperationContext, data: DataKey, key: ArchiveKey,
                       view: Option<DataView>): A.Operation {
    if view.Some? then PinnedOperation(s, ctx, view.value, key) else A.Operation(s, ctx, data, key)
  }

  function PhaseAt(view: Option<DataView>): A.Phase {
    if view.Some? then A.Pinned(view.value.viewId) else A.Unstarted
  }

  lemma ResumableIsAt(s: State, issued: set<string>, ctx: OperationContext, e: Entity, key: ArchiveKey,
                      view: Option<DataView>)
    requires Entities(s) && Pins(s) && Ledger(s) && PinLedger(s) && Settled(s, issued)
    requires Qualify(ctx).Ok? && EntityOf(s, e.public.data) == Ok(e) && e.published.Some?
    requires Undecided(s, ctx, CommitArchiveStep) && ViewIsOwn(s, ctx, e.public.data, view)
    ensures var o := OperationAt(s, ctx, e.public.data, key, view);
            A.Given(o) && A.At(o, PhaseAt(view), s) && A.Before(o) == e
  {
    if view.Some? {
      PinnedStands(s, issued, ctx, view.value, key);
    }
  }

  lemma KeyStands(w: World, o: A.Operation, e: Entity, view: Option<DataView>)
    requires A.Given(o) && A.Before(o) == e && e.public.data == o.data && Cat.CatalogInv(w.catalog, w.disk)
    requires KeyIsOwn(w.catalog, o.ctx, e, o.key, view)
    requires view.Some? ==> A.ViewOf(o, view.value.viewId) == view.value
    ensures A.CatalogStand(o, w.catalog, PhaseAt(view))
  {
    if o.key in w.catalog.linked {
      assert Cat.Backs(w.catalog.id, w.disk, o.key, w.catalog.linked[o.key]);
    }
  }

  lemma ResumableStands(w: World, ctx: OperationContext, e: Entity, key: ArchiveKey, view: Option<DataView>)
      returns (o: A.Operation, x: Lone)
    requires Reachable(w) && L.Quiet(w) && ArchiveResumable(w, ctx, e, key, view)
    ensures o == OperationAt(Memory(w), ctx, e.public.data, key, view)
    ensures x == Lone(w, E.Flow(ctx, E.ArchiveJob(e.public.data, key), E.Ask))
    ensures A.Stand(o, x, PhaseAt(view), PhaseAt(view)) && A.Before(o) == e
  {
    var s := Memory(w);
    o := OperationAt(s, ctx, e.public.data, key, view);
    x := Lone(w, E.Flow(ctx, E.ArchiveJob(e.public.data, key), E.Ask));
    SettledWhenReachable(w);
    ResumableIsAt(s, w.issued, ctx, e, key, view);
    if view.Some? { OwnViewIsTheView(s, o, view.value); }
    KeyStands(w, o, e, view);
  }

  lemma OwnViewIsTheView(s: State, o: A.Operation, view: DataView)
    requires A.Given(o) && A.At(o, A.Pinned(view.viewId), s) && HasView(s, o.ctx, view)
    ensures A.ViewOf(o, view.viewId) == view
  {
    assert s.steps[StepKey(o.ctx, PrepareArchiveStep)].result == Ok(ViewReply(A.ViewOf(o, view.viewId)));
  }

  /** From any reachable quiet moment, after whatever anybody has done, an undecided archive is
      finished by a re-run without faults, and nothing but its own records change. */
  lemma ArchiveResumes(w: World, ctx: OperationContext, e: Entity, key: ArchiveKey, view: Option<DataView>,
                       uuids: seq<string>)
    returns (receipt: ArchiveReceipt)
    requires Reachable(w) && L.Quiet(w) && ArchiveResumable(w, ctx, e, key, view) && FreshIds(w, uuids) && 9 <= |uuids|
    ensures var z := Rerun(Lone(w, E.Flow(ctx, E.ArchiveJob(e.public.data, key), E.Ask)), uuids);
            && L.Quiet(z.world) && z.flow.pc == E.Done(Ok(Attach(e, receipt).public))
            && ArchiveDone(Memory(w), Memory(z.world), ctx, e, key, view, receipt)
  {
    var o, x := ResumableStands(w, ctx, e, key, view);
    var dp, vp := A.RerunEnds(o, x, uuids, PhaseAt(view), PhaseAt(view));
    var v;
    v, receipt := L.ArchiveEnd(o, Rerun(x, uuids), dp, vp);
  }

  // ---------- recall ----------

  /** The operation has not been called yet and nobody else recalls, or it has its own target, asked
      for with the same state and anchor. */
  predicate TargetIsOwn(s: State, ctx: OperationContext, expected: EntityState, anchor: ArchiveReceipt,
                        target: Option<RecallTarget>) {
    var k := StepKey(ctx, PrepareRecallStep);
    match target
    case None => k !in s.steps && !Recalling(s, expected.data)
    case Some(t) =>
      HasTarget(s, ctx, t) && s.steps[k].request == PrepareRecall(expected, anchor)
      && t.data == expected.data && t.archive == anchor.key
  }

  predicate RecallResumable(w: World, ctx: OperationContext, e: Entity, anchor: ArchiveReceipt,
                            target: Option<RecallTarget>) {
    var s := Memory(w);
    && w.source.Opened? && Qualify(ctx).Ok? && EntityOf(s, e.public.data) == Ok(e) && e.public.residency.Offline?
       && anchor in e.public.anchors
    && Undecided(s, ctx, CommitRecallStep) && TargetIsOwn(s, ctx, e.public, anchor, target)
  }

  /** The metadata with the recall done: the entity published at the layout, the recall closed. */
  predicate RecallDone(s: State, t: State, ctx: OperationContext, e: Entity, key: ArchiveKey,
                       target: Option<RecallTarget>, l: string) {
    var f := Attached(e, l);
    && t.entities == s.entities[e.public.data.entity.entity := f]
    && t.recalls == (if target.Some? then s.recalls - {target.value.layoutId} else s.recalls)
    && t.views == s.views && t.gc == s.gc
    && t.completed == s.completed[ctx.operationId := Completed(ctx, e.public.data, Recall(key), f.public)]
  }

  function RecallAt(s: State, ctx: OperationContext, p: EntityState, key: ArchiveKey,
                    target: Option<RecallTarget>): R.Operation {
    var base := if target.None? then s
                else s.(recalls := s.recalls - {target.value.layoutId},
                      steps := s.steps - {StepKey(ctx, PrepareRecallStep)});
    R.Operation(base, ctx, p, key)
  }

  function RecallPhase(target: Option<RecallTarget>): R.Phase {
    if target.Some? then R.Reserved(target.value.layoutId) else R.Unstarted
  }

  /** An anchor is the one its key finds. */
  lemma AnchorIsFound(s: State, id: string, e: Entity, anchor: ArchiveReceipt)
    requires EntityOk(s, id, e) && anchor in e.public.anchors
    ensures E.FindAnchor(e.public.anchors, anchor.key) == Some(anchor)
    ensures E.CheckReceipt(anchor, e.public.data, anchor.key, e.public.length, e.public.digest)
  {
    var found := E.FindAnchor(e.public.anchors, anchor.key);
    var i :| 0 <= i < |e.public.anchors| && e.public.anchors[i] == anchor;
    assert Binds(e.public.anchors[i], e.public);
    var j :| 0 <= j < |e.public.anchors| && e.public.anchors[j] == found.value;
  }

  lemma OwnTargetFacts(s: State, ctx: OperationContext, e: Entity, anchor: ArchiveReceipt, t: RecallTarget)
    requires Entities(s) && Pins(s) && Ledger(s) && PinLedger(s) && Undecided(s, ctx, CommitRecallStep)
    requires EntityOf(s, e.public.data) == Ok(e) && anchor in e.public.anchors
    requires TargetIsOwn(s, ctx, e.public, anchor, Some(t))
    ensures t.layoutId in s.recalls && s.recalls[t.layoutId] == RecallOwner(ctx, t, anchor)
    ensures t.destination == Endpoint(SourceLayout(t.layoutId))
    ensures forall l | l in s.recalls && l != t.layoutId :: s.recalls[l].target.data != e.public.data
  {
    var k := StepKey(ctx, PrepareRecallStep);
    assert RecallAccounted(s, k) && RecallOk(s, t.layoutId);
    EntityOfIsItsKey(s, e.public.data);
    AnchorIsFound(s, e.public.data.entity.entity, e, anchor);
    AnchorIsFound(s, e.public.data.entity.entity, e, s.recalls[t.layoutId].anchor);
  }

  lemma RecallIsAt(s: State, ctx: OperationContext, e: Entity, anchor: ArchiveReceipt, target: Option<RecallTarget>)
    requires Entities(s) && Pins(s) && Ledger(s) && PinLedger(s) && Qualify(ctx).Ok?
             && Undecided(s, ctx, CommitRecallStep)
    requires EntityOf(s, e.public.data) == Ok(e) && e.public.residency.Offline? && anchor in e.public.anchors
    requires TargetIsOwn(s, ctx, e.public, anchor, target)
    ensures var o := RecallAt(s, ctx, e.public, anchor.key, target);
            R.Given(o) && R.At(o, RecallPhase(target), s) && R.Before(o) == e
  {
    EntityOfIsItsKey(s, e.public.data);
    AnchorIsFound(s, e.public.data.entity.entity, e, anchor);
    var o := RecallAt(s, ctx, e.public, anchor.key, target);
    if target.Some? {
      OwnTargetFacts(s, ctx, e, anchor, target.value);
      RecallMatches(s, ctx, e, anchor, target.value, o);
    }
  }

  lemma RecallMatches(s: State, ctx: OperationContext, e: Entity, anchor: ArchiveReceipt, t: RecallTarget,
                      o: R.Operation)
    requires Qualify(ctx).Ok? && Undecided(s, ctx, CommitRecallStep)
             && o == RecallAt(s, ctx, e.public, anchor.key, Some(t))
    requires EntityOf(s, e.public.data) == Ok(e) && e.published.None? && e.public.residency.Offline?
    requires E.FindAnchor(e.public.anchors, anchor.key) == Some(anchor)
    requires E.CheckReceipt(anchor, e.public.data, anchor.key, e.public.length, e.public.digest)
    requires TargetIsOwn(s, ctx, e.public, anchor, Some(t))
    requires t.layoutId in s.recalls && s.recalls[t.layoutId] == RecallOwner(ctx, t, anchor)
    requires t.destination == Endpoint(SourceLayout(t.layoutId))
    requires forall l | l in s.recalls && l != t.layoutId :: s.recalls[l].target.data != e.public.data
    ensures R.Given(o) && R.At(o, R.Reserved(t.layoutId), s) && R.Before(o) == e
  {
    assert EntityOf(o.base, e.public.data) == Ok(e);
    assert R.TargetOf(o, t.layoutId) == t;
    assert o.base.recalls[t.layoutId := RecallOwner(ctx, t, anchor)] == s.recalls;
    assert R.WithReservation(o, t.layoutId) == s.steps;
  }

  lemma RecallStands(w: World, ctx: OperationContext, e: Entity, anchor: ArchiveReceipt, target: Option<RecallTarget>)
      returns (o: R.Operation, x: Lone)
    requires L.Quiet(w) && RecallResumable(w, ctx, e, anchor, target)
    ensures o == RecallAt(Memory(w), ctx, e.public, anchor.key, target)
    ensures x == Lone(w, E.Flow(ctx, E.RecallJob(e.public, anchor.key), E.Ask))
    ensures R.Ready(o, x, RecallPhase(target)) && R.Before(o) == e
  {
    var s := Memory(w);
    o := RecallAt(s, ctx, e.public, anchor.key, target);
    x := Lone(w, E.Flow(ctx, E.RecallJob(e.public, anchor.key), E.Ask));
    RecallIsAt(s, ctx, e, anchor, target);
  }

  /** From any reachable quiet moment, after whatever anybody has done, an undecided recall is
      finished by a re-run without faults if and only if its layout is not sealed; if it is, the
      re-run is fenced and changes no metadata. */
  lemma RecallResumesIffUnsealed(w: World, ctx: OperationContext, e: Entity, anchor: ArchiveReceipt,
                                 target: Option<RecallTarget>, uuids: seq<string>)
    returns (l: string)
    requires L.Quiet(w) && RecallResumable(w, ctx, e, anchor, target) && FreshIds(w, uuids) && 7 <= |uuids|
    ensures var z := Rerun(Lone(w, E.Flow(ctx, E.RecallJob(e.public, anchor.key), E.Ask)), uuids);
            if R.SealedRecall(w, e.public.data)
            then z.flow.pc == E.Done(Err(Fenced)) && z.world.source == w.source
            else z.flow.pc == E.Done(Ok(Attached(e, l).public)) && Healthy(z.world)
                 && RecallDone(Memory(w), Memory(z.world), ctx, e, anchor.key, target, l)
  {
    var o, x := RecallStands(w, ctx, e, anchor, target);
    var p := RecallPhase(target);
    R.WedgedIsSealedRecall(o, w, p);
    var q := R.RerunEnds(o, x, uuids, p);
    R.EndedMeans(o, Rerun(x, uuids), R.Wedged(w.disk, p, p), p, q);
    R.HealthySource(o, w, p, p);
    l := q.layoutId;
  }
}
