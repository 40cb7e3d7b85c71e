/**
 Every transition of the system keeps its invariant, whatever the interleaving, the I/O failures
 and the restarts.
 */
module SystemSafety {
  import opened Managed
  import opened Files
  import opened SourceState
  import opened SourceInvariants
  import opened SourceSteps
  import opened System
  import Cat = Catalog

  // ---------- framing ----------

  lemma EntityBackedKept(e: Entity, d: Disk, c: Cat.Catalog, d': Disk, c': Cat.Catalog)
    requires EntityBacked(d, c, e) && Keeps(d, d') && Extends(c.durable, c'.durable)
    ensures EntityBacked(d', c', e)
  {
    forall a | a in e.public.anchors ensures Cat.Reports(c', a.key, a) {
      assert Cat.Reports(c, a.key, a);
    }
  }

  lemma BackedKept(s: State, d: Disk, c: Cat.Catalog, d': Disk, c': Cat.Catalog)
    requires Backed(s, d, c) && Keeps(d, d') && Extends(c.durable, c'.durable)
    requires forall l | l in s.recalls :: Undisturbed(d, d', SourceLayout(l))
    ensures Backed(s, d', c')
  {
    forall id | id in s.entities ensures EntityBacked(d', c', s.entities[id]) {
      EntityBackedKept(s.entities[id], d, c, d', c');
    }
    forall l | l in s.recalls ensures RecallBacked(s, d', l) {
      assert RecallBacked(s, d, l);
    }
  }

  lemma StateOkKept(s: State, w: World, w': World)
    requires StateOk(s, w) && Keeps(w.disk, w'.disk) && Extends(w.catalog.durable, w'.catalog.durable)
    requires forall l | l in s.recalls :: Undisturbed(w.disk, w'.disk, SourceLayout(l))
    requires w.issued <= w'.issued && w'.disk.unlinked == w.disk.unlinked
    ensures StateOk(s, w')
  {
    BackedKept(s, w.disk, w.catalog, w'.disk, w'.catalog);
  }

  lemma ReportedKept(w: World, c': Cat.Catalog, receipts: set<ArchiveReceipt>)
    requires forall r | r in w.reported :: Cat.Reports(w.catalog, r.key, r)
    requires Extends(w.catalog.durable, c'.durable)
    requires forall r | r in receipts :: Cat.Reports(c', r.key, r)
    ensures forall r | r in w.reported + receipts :: Cat.Reports(c', r.key, r)
  {
    forall r | r in w.reported + receipts ensures Cat.Reports(c', r.key, r) {
      if r in w.reported { assert Cat.Reports(w.catalog, r.key, r); }
    }
  }

  // ---------- archive calls ----------

  lemma ArchiveMoveNamed(w: World, m: Cat.Move, uuid: set<string>)
    requires DiskNamed(w.disk, w.issued) && Cat.Legal(w.catalog, w.disk, m)
    requires m.LaidOut? ==> m.id in uuid
    requires m.Attempted? ==> m.id in uuid
    ensures DiskNamed(Cat.Moved(w.catalog, w.disk, m).1, w.issued + uuid)
  {
    var d' := Cat.Moved(w.catalog, w.disk, m).1;
    forall p | p in d'.dirs ensures PathIssued(p, w.issued + uuid) {
      if p in w.disk.dirs { assert PathIssued(p, w.issued); }
    }
    forall p | p in d'.unlinked ensures PathIssued(p, w.issued + uuid) && p.SourceLayout? {
      assert PathIssued(p, w.issued);
    }
  }

  lemma ArchiveMoveSessions(w: World, m: Cat.Move)
    requires (forall id | id in w.sessions :: SessionOk(w.disk, id, w.sessions[id])) && Cat.Legal(w.catalog, w.disk, m)
    ensures forall id | id in w.sessions :: SessionOk(Cat.Moved(w.catalog, w.disk, m).1, id, w.sessions[id])
  {
    forall id | id in w.sessions ensures SessionOk(Cat.Moved(w.catalog, w.disk, m).1, id, w.sessions[id]) {
      assert SessionOk(w.disk, id, w.sessions[id]);
    }
  }

  lemma ArchiveMoveKeepsInv(w: World, m: Cat.Move, uuid: set<string>, receipts: set<ArchiveReceipt>, w': World)
    requires SystemInv(w) && Cat.Legal(w.catalog, w.disk, m)
    requires m.LaidOut? ==> m.id in uuid
    requires m.Attempted? ==> m.id in uuid
    requires w' == w.(catalog := Cat.Moved(w.catalog, w.disk, m).0, disk := Cat.Moved(w.catalog, w.disk, m).1,
                      issued := w.issued + uuid, reported := w.reported + receipts)
    requires forall r | r in receipts :: Cat.Reports(w'.catalog, r.key, r)
    ensures SystemInv(w')
  {
    Cat.MoveSound(w.catalog, w.disk, m);
    Cat.MoveSparesSource(w.catalog, w.disk, m);
    ArchiveMoveNamed(w, m, uuid);
    ArchiveMoveSessions(w, m);
    StateOkKept(FileOf(w.source).durable, w, w');
    StateOkKept(FileOf(w.source).visible, w, w');
    ReportedKept(w, w'.catalog, receipts);
  }

  lemma CatalogFacts(w: World, key: ArchiveKey, a: Cat.AttemptKey)
    requires Cat.CatalogInv(w.catalog, w.disk)
    ensures key in w.catalog.linked ==> Cat.Backs(w.catalog.id, w.disk, key, w.catalog.linked[key])
    ensures a in w.catalog.attempts ==> Cat.AttemptOk(w.disk, a, w.catalog.attempts[a])
  {
  }

  /** A new attempt or receipt is about the call's own key and view. */
  predicate Attributed(a: Action, m: Cat.Move) {
    && (m.Attempted? ==> a.DoPrepare? && m.attempt == Cat.AttemptOf(a.ctx, a.key) && m.prepared.view == a.view)
    && (m.Published? ==>
         (a.DoCommit? || a.DoResume?) && m.file.receipt.key == a.target.key && Cat.Describes(m.file.receipt, a.view))
  }

  /** What an archive call's answer says about the catalog it leaves. */
  lemma ArchiveCallMoves(w: World, a: Action) returns (m: Cat.Move, uuid: set<string>, receipts: set<ArchiveReceipt>)
    requires Cat.CatalogInv(w.catalog, w.disk) && Enabled(w, a)
    requires a.DoInspect? || a.DoPrepare? || a.DoCommit? || a.DoResume? || a.DoOpen?
    ensures Cat.Legal(w.catalog, w.disk, m)
    ensures m.LaidOut? ==> m.id in uuid
    ensures m.Attempted? ==> m.id in uuid
    ensures var w' := Apply(w, a);
            w' == w.(catalog := Cat.Moved(w.catalog, w.disk, m).0, disk := Cat.Moved(w.catalog, w.disk, m).1,
                     issued := w.issued + uuid, reported := w.reported + receipts)
            && forall r | r in receipts :: Cat.Reports(w'.catalog, r.key, r)
    ensures Attributed(a, m)
  {
    var c, d := w.catalog, w.disk;
    uuid := {};
    match a
    case DoInspect(key, env) =>
      CatalogFacts(w, key, Cat.AttemptKey("", 0, key));
      m := Cat.LookupMoves(c, d, key, env.fault);
      receipts := StatusReceipts(Cat.Inspect(c, d, key, env.fault).result);
    case DoOpen(receipt, env) =>
      CatalogFacts(w, receipt.key, Cat.AttemptKey("", 0, receipt.key));
      m := Cat.LookupMoves(c, d, receipt.key, env.fault);
      receipts := if Cat.Open(c, d, receipt, env.fault).result.Ok? then {receipt} else {};
    case DoPrepare(ctx, key, view, env) =>
      CatalogFacts(w, key, Cat.AttemptOf(ctx, key));
      m := Cat.PrepareMoves(c, d, ctx, key, view, env);
      uuid := {env.uuid};
      receipts := {};
    case DoCommit(ctx, target, view, evidence, env) =>
      CatalogFacts(w, target.key, Cat.AttemptOf(ctx, target.key));
      m := Cat.CommitMoves(c, d, ctx, target, view, evidence, env);
      uuid := {env.uuid};
      receipts := Receipts(Cat.Commit(c, d, ctx, target, view, evidence, env).result);
    case DoResume(ctx, target, view, env) =>
      CatalogFacts(w, target.key, Cat.AttemptOf(ctx, target.key));
      m := ResumeMoves(w, ctx, target, view, env);
      uuid := {env.uuid};
      receipts := ResumedReceipts(Cat.ResumeCommit(c, d, ctx, target, view, env).result);
  }

  lemma ResumeMoves(w: World, ctx: OperationContext, target: ArchiveTarget, view: DataView, env: Env)
      returns (m: Cat.Move)
    requires env.uuid != ""
    requires target.key in w.catalog.linked ==>
               Cat.Backs(w.catalog.id, w.disk, target.key, w.catalog.linked[target.key])
    requires var a := Cat.AttemptOf(ctx, target.key);
             a in w.catalog.attempts ==> Cat.AttemptOk(w.disk, a, w.catalog.attempts[a])
    ensures var r := Cat.ResumeCommit(w.catalog, w.disk, ctx, target, view, env);
            Cat.Legal(w.catalog, w.disk, m) && (r.catalog, r.disk) == Cat.Moved(w.catalog, w.disk, m)
            && !m.LaidOut? && !m.Attempted?
            && (m.Published? ==> m.file.receipt.key == target.key && Cat.Describes(m.file.receipt, view))
            && forall x | x in ResumedReceipts(r.result) :: Cat.Reports(r.catalog, x.key, x)
  {
    m := Cat.CommitMoves(w.catalog, w.disk, ctx, target, view, TransferEvidence(view.length, view.digest), env);
    var r := Cat.ResumeCommit(w.catalog, w.disk, ctx, target, view, env);
    if DecodeEndpoint(target.destination).Err? || DecodeEndpoint(target.destination).value !in w.disk.dirs
       || w.disk.dirs[DecodeEndpoint(target.destination).value].seal.Unsealed? {
      m := Cat.Same;
    }
  }

  // ---------- storage calls ----------

  lemma TouchKeepsDisk(d: Disk, touch: Touch)
    requires CanTouch(d, touch)
    ensures Keeps(d, Touched(d, touch)) && Touched(d, touch).unlinked == d.unlinked
  {
  }

  lemma TouchNamed(w: World, touch: Touch, uuid: set<string>)
    requires DiskNamed(w.disk, w.issued) && CanTouch(w.disk, touch)
    requires touch.NewDir? ==> touch.id in uuid
    ensures DiskNamed(Touched(w.disk, touch), w.issued + uuid)
  {
    var d' := Touched(w.disk, touch);
    forall p | p in d'.dirs ensures PathIssued(p, w.issued + uuid) {
      if p in w.disk.dirs { assert PathIssued(p, w.issued); }
    }
    forall p | p in d'.unlinked ensures PathIssued(p, w.issued + uuid) && p.SourceLayout? {
      assert PathIssued(p, w.issued);
    }
  }

  lemma TouchSessions(w: World, touch: Touch)
    requires (forall id | id in w.sessions :: SessionOk(w.disk, id, w.sessions[id])) && CanTouch(w.disk, touch)
    ensures forall id | id in w.sessions :: SessionOk(Touched(w.disk, touch), id, w.sessions[id])
  {
    forall id | id in w.sessions ensures SessionOk(Touched(w.disk, touch), id, w.sessions[id]) {
      assert SessionOk(w.disk, id, w.sessions[id]);
    }
  }

  lemma FreshIdIsFresh(s: State, w: World, uuid: string)
    requires Named(s, w.issued) && FreshId(w, uuid)
    ensures FreshFor(s, uuid)
  {
  }

  lemma TouchSparesArchive(d: Disk, touch: Touch)
    requires CanTouch(d, touch)
    ensures forall p | p in d.dirs && p.AttemptLayout? :: Undisturbed(d, Touched(d, touch), p)
  {
  }

  /** Sealing a recall's layout is faithful in every state that knows the recall. */
  lemma TouchKeepsBacked(s: State, d: Disk, c: Cat.Catalog, touch: Touch)
    requires Backed(s, d, c) && CanTouch(d, touch)
    requires touch.NewDir? ==> touch.id !in s.recalls
    requires touch.Flushed? ==> VerifiedRecall(s, d, touch.layout)
    ensures Backed(s, Touched(d, touch), c)
  {
    var d' := Touched(d, touch);
    TouchKeepsDisk(d, touch);
    forall id | id in s.entities ensures EntityBacked(d', c, s.entities[id]) {
      EntityBackedKept(s.entities[id], d, c, d', c);
    }
    forall l | l in s.recalls ensures RecallBacked(s, d', l) {
      assert RecallBacked(s, d, l);
    }
  }

  lemma TouchKeepsStateOk(s: State, w: World, touch: Touch, uuid: set<string>)
    requires StateOk(s, w) && CanTouch(w.disk, touch)
    requires touch.NewDir? ==> touch.id !in s.recalls
    requires touch.Flushed? ==> VerifiedRecall(s, w.disk, touch.layout)
    ensures StateOk(s, w.(disk := Touched(w.disk, touch), issued := w.issued + uuid))
  {
    TouchKeepsDisk(w.disk, touch);
    TouchKeepsBacked(s, w.disk, w.catalog, touch);
  }

  lemma TouchKeepsInv(w: World, touch: Touch, uuid: set<string>)
    requires SystemInv(w) && CanTouch(w.disk, touch)
    requires touch.NewDir? ==> touch.id in uuid && touch.id !in w.issued
    requires touch.Flushed? ==> Healthy(w) && VerifiedRecall(Memory(w), w.disk, touch.layout)
    ensures SystemInv(w.(disk := Touched(w.disk, touch), issued := w.issued + uuid))
  {
    var w' := w.(disk := Touched(w.disk, touch), issued := w.issued + uuid);
    TouchKeepsDisk(w.disk, touch);
    TouchNamed(w, touch, uuid);
    TouchSessions(w, touch);
    TouchKeepsStateOk(FileOf(w.source).durable, w, touch, uuid);
    TouchKeepsStateOk(FileOf(w.source).visible, w, touch, uuid);
    TouchSparesArchive(w.disk, touch);
    Cat.DiskKeepsCatalog(w.catalog, w.disk, w'.disk);
  }

  /** Only the source's file and memory change. */
  lemma SourceKeepsInv(w: World, source: Source)
    requires SystemInv(w) && HandleOk(source) && Evolves(FileOf(source).durable, FileOf(source).visible)
    requires StateOk(FileOf(source).durable, w) && StateOk(FileOf(source).visible, w)
    ensures SystemInv(w.(source := source))
  {
    StateOkKept(FileOf(source).durable, w, w.(source := source));
    StateOkKept(FileOf(source).visible, w, w.(source := source));
  }

  lemma PersistKeepsInv(w: World, next: State, fault: Fault)
    requires SystemInv(w) && w.source.Opened? && !Handle(w).poisoned
    requires StateOk(next, w) && Evolves(Memory(w), next)
    ensures SystemInv(w.(source := Opened(Persist(Handle(w), next, fault).0)))
  {
    EvolvesReflexive(next);
    EvolvesReflexive(Memory(w));
    SourceKeepsInv(w, Opened(Persist(Handle(w), next, fault).0));
  }

  lemma EvolvesReflexive(s: State)
    ensures Evolves(s, s)
  {
  }

  // What a successful effect leaves is backed and named.

  lemma OpensViewStateOk(s: State, t: State, w: World, w': World, ctx: OperationContext, req: Request, view: DataView,
                         e: Entity, uuid: string)
    requires StateOk(s, w') && Inv(t) && OpensView(s, t, ctx, req, view, e) && view.viewId == uuid && uuid in w'.issued
    ensures StateOk(t, w')
  {
    SamePinsBacked(s, t, w'.disk, w'.catalog);
  }

  lemma SamePinsBacked(s: State, t: State, d: Disk, c: Cat.Catalog)
    requires Backed(s, d, c) && t.entities == s.entities && t.recalls == s.recalls
    ensures Backed(t, d, c)
  {
    forall l | l in t.recalls ensures RecallBacked(t, d, l) { assert RecallBacked(s, d, l); }
  }

  lemma OpensRecallStateOk(s: State, t: State, w': World, ctx: OperationContext, req: Request, target: RecallTarget,
                           anchor: ArchiveReceipt, e: Entity)
    requires StateOk(s, w') && Inv(t) && OpensRecall(s, t, ctx, req, target, anchor, e)
    requires target.layoutId in w'.issued && SourceLayout(target.layoutId) !in w'.disk.unlinked
    requires SourceLayout(target.layoutId) in w'.disk.dirs && w'.disk.dirs[SourceLayout(target.layoutId)].seal.Unsealed?
    ensures StateOk(t, w')
  {
    forall l | l in t.recalls ensures RecallBacked(t, w'.disk, l) { assert l == target.layoutId
        || RecallBacked(s, w'.disk, l); }
  }

  lemma MoveBacked(s: State, t: State, d: Disk, c: Cat.Catalog, id: string, f: Entity)
    requires Backed(s, d, c) && EntityBacked(d, c, f)
    requires t.entities == s.entities[id := f]
    requires id in s.entities ==> SameContent(s.entities[id].public, f.public)
    requires forall l | l in t.recalls :: l in s.recalls && t.recalls[l] == s.recalls[l]
    ensures Backed(t, d, c)
  {
    forall l | l in t.recalls ensures RecallBacked(t, d, l) {
      assert RecallBacked(s, d, l);
    }
  }

  lemma MoveNamed(s: State, t: State, issued: set<string>, id: string, f: Entity)
    requires Named(s, issued) && t.entities == s.entities[id := f]
    requires t.recalls.Keys <= s.recalls.Keys && t.views.Keys <= s.views.Keys
    requires t.gc == s.gc
             || (id in s.entities && s.entities[id].published.Some? && t.gc == s.gc + [s.entities[id].published.value])
    requires f.published.Some? ==> f.published.value in issued
    ensures Named(t, issued)
  {
  }

  lemma MoveUnwanted(s: State, t: State, d: Disk, id: string, f: Entity)
    requires Unwanted(s, d) && t.entities == s.entities[id := f] && t.recalls.Keys <= s.recalls.Keys
    requires f.published.Some? ==> SourceLayout(f.published.value) !in d.unlinked
    ensures Unwanted(t, d)
  {
  }

  lemma AttachBacked(e: Entity, receipt: ArchiveReceipt, d: Disk, c: Cat.Catalog)
    requires EntityBacked(d, c, e) && Cat.Reports(c, receipt.key, receipt)
    ensures EntityBacked(d, c, Attach(e, receipt))
  {
    forall a | a in Attach(e, receipt).public.anchors ensures Cat.Reports(c, a.key, a) {
      assert a in e.public.anchors || a == receipt;
    }
  }

  /** The published layout of a terminated step's entity: kept, dropped, or the recall's own. */
  lemma TerminatesPublishes(s: State, t: State, ctx: OperationContext, req: Request, f: Entity)
    requires Terminal(NameOf(req)) && Terminates(s, t, ctx, req, f)
    ensures var id := f.public.data.entity.entity;
            && id in s.entities && t.entities == s.entities[id := f] && SameContent(s.entities[id].public, f.public)
            && (forall l | l in t.recalls :: l in s.recalls && t.recalls[l] == s.recalls[l])
            && t.recalls.Keys <= s.recalls.Keys && t.views.Keys <= s.views.Keys
            && (t.gc == s.gc || (s.entities[id].published.Some? && t.gc == s.gc + [s.entities[id].published.value]))
            && (f.published.Some? ==> f.published == s.entities[id].published || f.published.value in s.recalls)
  {
  }

  lemma TerminatesStateOk(s: State, t: State, w': World, ctx: OperationContext, req: Request, f: Entity)
    requires StateOk(s, w') && Inv(t) && Terminal(NameOf(req)) && Terminates(s, t, ctx, req, f)
    requires EntityBacked(w'.disk, w'.catalog, f)
    ensures StateOk(t, w')
  {
    var id := f.public.data.entity.entity;
    TerminatesPublishes(s, t, ctx, req, f);
    MoveBacked(s, t, w'.disk, w'.catalog, id, f);
    MoveNamed(s, t, w'.issued, id, f);
    MoveUnwanted(s, t, w'.disk, id, f);
  }

  /** The entity a terminal effect leaves is backed by the files it leaves. */
  lemma TerminalEntityBacked(s: State, d: Disk, c: Cat.Catalog, ctx: OperationContext, req: Request, env: Env,
                             f: Entity)
    requires Backed(s, d, c) && Terminal(NameOf(req)) && Effect(s, d, ctx, req, env).result.Ok?
    requires Terminates(s, After(s, d, ctx, req, env), ctx, req, f)
    requires req.CommitArchive? ==> Cat.Reports(c, req.receipt.key, req.receipt)
    ensures EntityBacked(Effect(s, d, ctx, req, env).disk, c, f)
  {
    var id := f.public.data.entity.entity;
    assert EntityBacked(d, c, s.entities[id]);
    match req
    case CommitArchive(view, receipt) =>
      CommitArchiveGuards(s, d, ctx, view, receipt, env);
      AttachBacked(s.entities[id], receipt, d, c);
    case ReleaseData(expected) =>
      ReleaseGuards(s, d, ctx, expected, env);
    case CommitRecall(target, evidence) =>
      CommitRecallGuards(s, d, ctx, target, evidence, env);
  }

  predicate ReceiptReported(c: Cat.Catalog, req: Request) {
    req.CommitArchive? ==> Cat.Reports(c, req.receipt.key, req.receipt)
  }

  /** What a first-run call attempts to persist is fit to be the system's metadata. */
  lemma AttemptedStateOk(st: Store, d: Disk, w1: World, ctx: OperationContext, req: Request, env: Env)
    requires StateOk(st.state, w1) && Backed(st.state, d, w1.catalog) && Attempted(st, d, ctx, req, env).Some?
    requires Inv(Attempted(st, d, ctx, req, env).value)
    requires w1.disk == Effect(st.state, d, ctx, req, env).disk && env.uuid in w1.issued
             && SourceLayout(env.uuid) !in w1.disk.unlinked
    requires ReceiptReported(w1.catalog, req)
    requires req.PrepareRecall? && Effect(st.state, d, ctx, req, env).result.Ok? ==>
               Open(w1.disk, SourceLayout(env.uuid))
    ensures StateOk(Attempted(st, d, ctx, req, env).value, w1)
  {
    var out := Effect(st.state, d, ctx, req, env);
    if out.result.Err? {
      var t := Record(st.state, KeyOf(ctx, req), SavedStep(req, Err(out.result.error)));
      SamePinsBacked(st.state, t, w1.disk, w1.catalog);
    } else {
      AfterStateOk(st.state, d, w1, ctx, req, env);
    }
  }

  lemma AfterStateOk(s: State, d: Disk, w1: World, ctx: OperationContext, req: Request, env: Env)
    requires StateOk(s, w1) && Backed(s, d, w1.catalog) && Inv(After(s, d, ctx, req, env))
    requires Qualify(ctx).Ok? && KeyOf(ctx, req) !in s.steps && Effect(s, d, ctx, req, env).result.Ok?
    requires w1.disk == Effect(s, d, ctx, req, env).disk && env.uuid in w1.issued
             && SourceLayout(env.uuid) !in w1.disk.unlinked
    requires ReceiptReported(w1.catalog, req)
    requires req.PrepareRecall? ==>
               Open(w1.disk, SourceLayout(env.uuid))
    ensures StateOk(After(s, d, ctx, req, env), w1)
  {
    var t := After(s, d, ctx, req, env);
    match req
    case PrepareArchive(data) =>
      var view, e := PrepareArchiveOpens(s, d, ctx, data, env);
      OpensViewStateOk(s, t, w1, w1, ctx, req, view, e, env.uuid);
    case PrepareRecall(expected, anchor) =>
      var target, e := PrepareRecallOpens(s, d, ctx, expected, anchor, env);
      OpensRecallStateOk(s, t, w1, ctx, req, target, anchor, e);
    case _ =>
      var f := EffectTerminates(s, d, ctx, req, env);
      TerminalEntityBacked(s, d, w1.catalog, ctx, req, env, f);
      TerminatesStateOk(s, t, w1, ctx, req, f);
  }

  lemma FirstRunStateOk(w: World, ctx: OperationContext, req: Request, env: Env, touch: Touch, d: Disk)
    requires w.source.Opened? && d == Effect(Memory(w), w.disk, ctx, req, env).disk
    requires Inv(Memory(w)) && Backed(Memory(w), w.disk, w.catalog)
             && FreshFor(Memory(w), env.uuid)
    requires Attempted(Handle(w), w.disk, ctx, req, env).Some?
    requires CanTouch(w.disk, touch) && d == Touched(w.disk, touch)
    requires req.PrepareRecall? && Effect(Memory(w), w.disk, ctx, req, env).result.Ok? ==>
               touch == NewDir(env.uuid, EMPTY_LAYOUT)
    requires ReceiptReported(w.catalog, req)
    ensures var next := Attempted(Handle(w), w.disk, ctx, req, env).value;
            var w1 := w.(disk := d, issued := w.issued + {env.uuid});
            && Evolves(Memory(w), next)
            && (StateOk(Memory(w), w1) && SourceLayout(env.uuid) !in d.unlinked ==> StateOk(next, w1))
  {
    AttemptedKeepsInv(Handle(w), w.disk, ctx, req, env);
    var w1 := w.(disk := d, issued := w.issued + {env.uuid});
    if StateOk(Memory(w), w1) && SourceLayout(env.uuid) !in d.unlinked {
      AttemptedStateOk(Handle(w), w.disk, w1, ctx, req, env);
    }
  }

  /** A call in the abstract: what it touches and what it tries to persist. */
  lemma CallShape(w: World, ctx: OperationContext, req: Request, env: Env) returns (touch: Touch, next: Option<State>)
    requires w.source.Opened? && Inv(Memory(w))
    requires Backed(Memory(w), w.disk, w.catalog) && FreshFor(Memory(w), env.uuid)
    requires ReceiptReported(w.catalog, req)
    ensures CanTouch(w.disk, touch) && (touch.NewDir? ==> touch.id == env.uuid)
    ensures touch.Flushed? ==> !Handle(w).poisoned && VerifiedRecall(Memory(w), w.disk, touch.layout)
    ensures Call(Handle(w), w.disk, ctx, req, env).disk == Touched(w.disk, touch)
    ensures next.None? ==> Call(Handle(w), w.disk, ctx, req, env).store == Handle(w)
    ensures next.Some? ==>
              !Handle(w).poisoned
              && Call(Handle(w), w.disk, ctx, req, env).store == Persist(Handle(w), next.value, env.fault).0
              && Evolves(Memory(w), next.value)
    ensures next.Some? ==>
              var w1 := w.(disk := Touched(w.disk, touch), issued := w.issued + {env.uuid});
              StateOk(Memory(w), w1) && SourceLayout(env.uuid) !in w1.disk.unlinked ==>
                    StateOk(next.value, w1)
  {
    var st := Handle(w);
    CallWrites(st, w.disk, ctx, req, env);
    touch, next := Untouched, Attempted(st, w.disk, ctx, req, env);
    if !(Qualify(ctx).Err? || st.poisoned || KeyOf(ctx, req) in st.state.steps) {
      touch := EffectTouches(st.state, w.disk, ctx, req, env);
      if next.Some? {
        FirstRunStateOk(w, ctx, req, env, touch, Touched(w.disk, touch));
      }
    }
  }

  lemma CallKeepsInv(w: World, ctx: OperationContext, req: Request, env: Env)
    requires SystemInv(w) && Enabled(w, DoCall(ctx, req, env))
    ensures SystemInv(Apply(w, DoCall(ctx, req, env)))
  {
    var r := Call(Handle(w), w.disk, ctx, req, env);
    assert Apply(w, DoCall(ctx, req, env)) == AfterSource(w, r.store, r.disk, {env.uuid});
    FreshIdIsFresh(Memory(w), w, env.uuid);
    var touch, next := CallShape(w, ctx, req, env);
    if next.Some? {
      var w1 := w.(disk := Touched(w.disk, touch), issued := w.issued + {env.uuid});
      assert SystemInv(w1) by { TouchKeepsInv(w, touch, {env.uuid}); }
      assert SourceLayout(env.uuid) !in Touched(w.disk, touch).unlinked by { TouchKeepsDisk(w.disk, touch); }
      PersistKeepsInv(w1, next.value, env.fault);
    } else {
      TouchKeepsInv(w, touch, {env.uuid});
    }
  }

  lemma ImportKeepsSystem(w: World, id: string, bytes: Bytes, env: Env)
    requires SystemInv(w) && Enabled(w, DoImport(id, bytes, env))
    ensures SystemInv(Apply(w, DoImport(id, bytes, env)))
  {
    var st := Handle(w);
    var touch, next := ImportWrites(st, w.disk, id, bytes, env);
    TouchKeepsInv(w, touch, {env.uuid});
    if next.Some? {
      var w1 := w.(disk := Touched(w.disk, touch), issued := w.issued + {env.uuid});
      FreshIdIsFresh(st.state, w, env.uuid);
      ImportKeepsInv(st.state, id, env.uuid, bytes);
      assert SourceLayout(env.uuid) !in w1.disk.unlinked by { assert w1.disk.unlinked == w.disk.unlinked; }
      AddedStateOk(st.state, next.value, w1, id, NewEntity(st.state, id, env.uuid, bytes), env.uuid);
      PersistKeepsInv(w1, next.value, env.fault);
    }
  }

  lemma AddedStateOk(s: State, t: State, w: World, id: string, e: Entity, layout: string)
    requires StateOk(s, w) && Inv(t) && Adds(s, t, id, e) && e.published == Some(layout) && e.public.anchors == []
    requires layout in w.issued && SourceLayout(layout) !in w.disk.unlinked
    requires Frozen(w.disk, SourceLayout(layout), Content(e.public))
    ensures StateOk(t, w)
  {
    MoveBacked(s, t, w.disk, w.catalog, id, e);
    MoveNamed(s, t, w.issued, id, e);
    MoveUnwanted(s, t, w.disk, id, e);
  }

  // ---------- garbage collection ----------

  /** Directories may vanish as long as none is published, a recall target or a catalog layout. */
  ghost predicate Sweeps(w: World, d': Disk) {
    && (forall p | p in d'.dirs :: p in w.disk.dirs)
    && (forall p | p in w.disk.dirs && !(p.SourceLayout? && p.id in Memory(w).gc) ::
         p in d'.dirs && d'.dirs[p] == w.disk.dirs[p])
    && (forall p | p in w.disk.dirs && w.disk.dirs[p].holder.Some? :: p in d'.dirs && d'.dirs[p] == w.disk.dirs[p])
    && (forall p | p in d'.unlinked :: p in w.disk.unlinked || (p.SourceLayout? && p.id in Memory(w).gc))
  }

  lemma SweptStateOk(s: State, w: World, w': World)
    requires w.source.Opened? && s == Memory(w) && StateOk(s, w) && Sweeps(w, w'.disk)
    requires w'.catalog == w.catalog && w'.issued == w.issued
    ensures StateOk(s, w')
  {
    forall l | l in s.recalls ensures RecallBacked(s, w'.disk, l) { assert RecallBacked(s, w.disk, l); }
    forall id | id in s.entities
      ensures EntityBacked(w'.disk, w'.catalog, s.entities[id])
      ensures s.entities[id].published.Some? ==> SourceLayout(s.entities[id].published.value) !in w'.disk.unlinked
    {
      assert EntityBacked(w.disk, w.catalog, s.entities[id]);
      if s.entities[id].published.Some? {
        assert Publishes(s, id, s.entities[id].published.value);
      }
    }
  }

  lemma SweepKeepsInv(w: World, d': Disk)
    requires SystemInv(w) && w.source.Opened? && !Handle(w).poisoned && Sweeps(w, d')
    ensures SystemInv(w.(disk := d'))
  {
    var w' := w.(disk := d');
    SweptStateOk(Memory(w), w, w');
    Cat.DiskKeepsCatalog(w.catalog, w.disk, d');
    SweptNamed(w, d');
    forall id | id in w.sessions ensures SessionOk(d', id, w.sessions[id]) {
      assert SessionOk(w.disk, id, w.sessions[id]);
    }
  }

  lemma SweptNamed(w: World, d': Disk)
    requires w.source.Opened? && DiskNamed(w.disk, w.issued) && Named(Memory(w), w.issued) && Sweeps(w, d')
    ensures DiskNamed(d', w.issued)
  {
    forall p | p in d'.dirs ensures PathIssued(p, w.issued) { assert PathIssued(p, w.issued); }
  }

  lemma SweptKeepsSystem(w: World, d': Disk, fault: Fault)
    requires SystemInv(w) && Healthy(w) && Sweeps(w, d')
    ensures var next := Memory(w).(gc := []);
            SystemInv(w.(disk := d', source := Opened(Persist(Handle(w), next, fault).0)))
  {
    var s := Memory(w);
    var w2 := w.(disk := d');
    SweepKeepsInv(w, d');
    CollectKeepsInv(s);
    SamePinsBacked(s, s.(gc := []), w2.disk, w2.catalog);
    PersistKeepsInv(w2, s.(gc := []), fault);
  }

  /** A collection in the abstract: what it sweeps, and whether it persists the emptied queue. */
  lemma CollectShape(w: World, env: Env) returns (d': Disk, persisted: bool)
    requires Healthy(w)
    ensures Sweeps(w, d') && CollectGarbage(Handle(w), w.disk, env.fault).disk == d'
    ensures CollectGarbage(Handle(w), w.disk, env.fault).store
            == if persisted then Persist(Handle(w), Memory(w).(gc := []), env.fault).0
                else Handle(w)
  {
    var st := Handle(w);
    var (d1, removed) := RemoveAll(w.disk, st.state.gc, 0, env.fault);
    RemoveAllOnly(w.disk, st.state.gc, 0, env.fault);
    persisted := removed.Ok? && !env.fault.SyncFault?;
    d' := if persisted then d1.(unlinked := set p | p in d1.unlinked && !p.SourceLayout?) else d1;
  }

  lemma CollectKeepsSystem(w: World, env: Env)
    requires SystemInv(w) && Enabled(w, DoCollect(env))
    ensures SystemInv(Apply(w, DoCollect(env)))
  {
    assert w.issued + {} == w.issued;
    if !Handle(w).poisoned {
      var d', persisted := CollectShape(w, env);
      if persisted {
        SweptKeepsSystem(w, d', env.fault);
      } else {
        SweepKeepsInv(w, d');
      }
    }
  }

  // ---------- copies ----------

  lemma CopyKeepsInv(w: World, w': World)
    requires SystemInv(w) && Keeps(w.disk, w'.disk) && (forall p | p in w.disk.dirs :: Undisturbed(w.disk, w'.disk, p))
    requires w'.disk.unlinked == w.disk.unlinked && w'.disk.dirs.Keys == w.disk.dirs.Keys
    requires w' == w.(disk := w'.disk, sessions := w'.sessions)
    requires forall id | id in w'.sessions :: SessionOk(w'.disk, id, w'.sessions[id])
    ensures SystemInv(w')
  {
    StateOkKept(FileOf(w.source).durable, w, w');
    StateOkKept(FileOf(w.source).visible, w, w');
    Cat.DiskKeepsCatalog(w.catalog, w.disk, w'.disk);
    forall p | p in w'.disk.dirs ensures PathIssued(p, w.issued) { assert PathIssued(p, w.issued); }
  }

  lemma HoldKeepsDisk(d: Disk, s: Session, holder: Option<string>)
    requires s.source in d.dirs && s.destination in d.dirs
    ensures var d' := Hold(d, s, holder);
            && Keeps(d, d') && d'.unlinked == d.unlinked && d'.dirs.Keys == d.dirs.Keys
            && (forall p | p in d.dirs && p != s.source && p != s.destination :: d'.dirs[p] == d.dirs[p])
            && (forall p | p in d.dirs :: Undisturbed(d, d', p))
  {
  }

  lemma BeginGuards(d: Disk, ctx: OperationContext, from: DataEndpoint, to: DataEndpoint, fault: Fault)
    ensures BeginCopy(d, ctx, from, to, fault).Ok? ==>
              var s := BeginCopy(d, ctx, from, to, fault).value;
              && s.source != s.destination
              && s.source in d.dirs && d.dirs[s.source].holder.None?
              && s.destination in d.dirs && d.dirs[s.destination].holder.None? && d.dirs[s.destination].seal.Unsealed?
  {
  }

  lemma BeginKeepsSystem(w: World, begun: Result<Session>, session: string, w': World)
    requires SystemInv(w) && session !in w.sessions
    requires begun.Ok? ==>
               var s := begun.value;
               && s.source != s.destination
               && s.source in w.disk.dirs && w.disk.dirs[s.source].holder.None?
               && s.destination in w.disk.dirs && w.disk.dirs[s.destination].holder.None?
               && w.disk.dirs[s.destination].seal.Unsealed?
               && w' == w.(disk := Hold(w.disk, s, Some(session)), sessions := w.sessions[session := s])
    requires begun.Err? ==> w' == w
    ensures SystemInv(w')
  {
    if begun.Ok? {
      HoldKeepsDisk(w.disk, begun.value, Some(session));
      BegunSessions(w, w', begun.value, session);
      CopyKeepsInv(w, w');
    }
  }

  lemma CopyBeginKeepsSystem(w: World, ctx: OperationContext, from: DataEndpoint, to: DataEndpoint, session: string,
                             fault: Fault)
    requires SystemInv(w) && Enabled(w, CopyBegin(ctx, from, to, session, fault))
    ensures SystemInv(Apply(w, CopyBegin(ctx, from, to, session, fault)))
  {
    BeginGuards(w.disk, ctx, from, to, fault);
    BeginKeepsSystem(w, BeginCopy(w.disk, ctx, from, to, fault), session,
                     Apply(w, CopyBegin(ctx, from, to, session, fault)));
  }

  lemma BegunSessions(w: World, w': World, s: Session, session: string)
    requires (forall id | id in w.sessions :: SessionOk(w.disk, id, w.sessions[id])) && session !in w.sessions
    requires s.source != s.destination
    requires s.source in w.disk.dirs && w.disk.dirs[s.source].holder.None?
    requires s.destination in w.disk.dirs && w.disk.dirs[s.destination].holder.None?
             && w.disk.dirs[s.destination].seal.Unsealed?
    requires w'.disk == Hold(w.disk, s, Some(session)) && w'.sessions == w.sessions[session := s]
    ensures forall id | id in w'.sessions :: SessionOk(w'.disk, id, w'.sessions[id])
  {
    forall id | id in w'.sessions ensures SessionOk(w'.disk, id, w'.sessions[id]) {
      assert id == session || SessionOk(w.disk, id, w.sessions[id]);
    }
  }

  lemma EndedSessions(w: World, session: string)
    requires forall id | id in w.sessions :: SessionOk(w.disk, id, w.sessions[id])
    requires session in w.sessions && w.sessions[session].source in w.disk.dirs
             && w.sessions[session].destination in w.disk.dirs
    ensures forall id | id in w.sessions - {session} ::
              SessionOk(Hold(w.disk, w.sessions[session], None), id, w.sessions[id])
  {
    assert SessionOk(w.disk, session, w.sessions[session]);
    forall id | id in w.sessions - {session}
      ensures SessionOk(Hold(w.disk, w.sessions[session], None), id, w.sessions[id])
    {
      assert SessionOk(w.disk, id, w.sessions[id]);
    }
  }

  lemma WriteKeepsDisk(d: Disk, s: Session, data: Option<Bytes>)
    requires s.destination in d.dirs && d.dirs[s.destination].seal.Unsealed?
    ensures var d' := WriteChunk(d, s, data);
            && Keeps(d, d') && d'.unlinked == d.unlinked && d'.dirs.Keys == d.dirs.Keys
            && forall p | p in d.dirs :: Undisturbed(d, d', p)
  {
  }

  lemma WrittenSessions(w: World, session: string, data: Option<Bytes>)
    requires (forall id | id in w.sessions :: SessionOk(w.disk, id, w.sessions[id]))
    requires session in w.sessions && w.sessions[session].destination in w.disk.dirs
    ensures forall id | id in w.sessions :: SessionOk(WriteChunk(w.disk, w.sessions[session], data), id, w.sessions[id])
  {
    forall id | id in w.sessions ensures SessionOk(WriteChunk(w.disk, w.sessions[session], data), id, w.sessions[id]) {
      assert SessionOk(w.disk, id, w.sessions[id]);
    }
  }

  lemma CopyWriteKeepsSystem(w: World, session: string, data: Option<Bytes>)
    requires SystemInv(w) && Enabled(w, CopyWrite(session, data))
    ensures SystemInv(Apply(w, CopyWrite(session, data)))
  {
    var w' := Apply(w, CopyWrite(session, data));
    assert SessionOk(w.disk, session, w.sessions[session]);
    WriteKeepsDisk(w.disk, w.sessions[session], data);
    WrittenSessions(w, session, data);
    CopyKeepsInv(w, w');
  }

  lemma EndedKeepsSystem(w: World, session: string, w': World)
    requires SystemInv(w) && session in w.sessions
    requires w.sessions[session].source in w.disk.dirs && w.sessions[session].destination in w.disk.dirs
    requires w' == w.(disk := Hold(w.disk, w.sessions[session], None), sessions := w.sessions - {session})
    ensures SystemInv(w')
  {
    HoldKeepsDisk(w.disk, w.sessions[session], None);
    EndedSessions(w, session);
    CopyKeepsInv(w, w');
  }

  lemma CopyEndKeepsSystem(w: World, session: string)
    requires SystemInv(w) && Enabled(w, CopyEnd(session))
    ensures SystemInv(Apply(w, CopyEnd(session)))
  {
    EndedKeepsSystem(w, session, Apply(w, CopyEnd(session)));
  }

  // ---------- restart ----------

  lemma CrashBacked(s: State, d: Disk, c: Cat.Catalog, d': Disk, c': Cat.Catalog)
    requires Backed(s, d, c) && Unwanted(s, d) && CrashDisk(d, d') && c'.durable == c.durable
    ensures Backed(s, d', c') && Unwanted(s, d')
  {
    forall id | id in s.entities ensures EntityBacked(d', c', s.entities[id]) {
      var e := s.entities[id];
      assert EntityBacked(d, c, e);
      forall a | a in e.public.anchors ensures Cat.Reports(c', a.key, a) { assert Cat.Reports(c, a.key, a); }
    }
    forall l | l in s.recalls ensures RecallBacked(s, d', l) { assert RecallBacked(s, d, l); }
  }

  lemma CrashCatalog(w: World, a: Action)
    requires Cat.CatalogInv(w.catalog, w.disk) && DiskNamed(w.disk, w.issued) && a.Restart? && Enabled(w, a)
    ensures Cat.CatalogInv(w.catalog.(linked := a.linked, attempts := a.attempts), a.disk)
  {
    var c := w.catalog.(linked := a.linked, attempts := a.attempts);
    forall k | k in c.linked ensures Cat.Backs(c.id, a.disk, k, c.linked[k]) {
      assert Cat.Backs(c.id, w.disk, k, w.catalog.linked[k]);
    }
    forall k | k in c.attempts ensures Cat.AttemptOk(a.disk, k, c.attempts[k]) {
      assert Cat.AttemptOk(w.disk, k, w.catalog.attempts[k]);
    }
  }

  lemma RestartKeepsSystem(w: World, a: Action)
    requires SystemInv(w) && a.Restart? && Enabled(w, a)
    ensures SystemInv(Apply(w, a))
  {
    var w' := Apply(w, a);
    CrashCatalog(w, a);
    CrashBacked(FileOf(w.source).durable, w.disk, w.catalog, w'.disk, w'.catalog);
    CrashBacked(FileOf(w.source).visible, w.disk, w.catalog, w'.disk, w'.catalog);
    EvolvesReflexive(FileOf(w.source).durable);
    forall p | p in w'.disk.dirs ensures PathIssued(p, w.issued) { assert PathIssued(p, w.issued); }
    forall r | r in w'.reported ensures Cat.Reports(w'.catalog, r.key, r) { assert Cat.Reports(w.catalog, r.key, r); }
  }

  /** Dropping the handle leaves its file, and every copy and lock, as they are. */
  lemma CloseKeepsSystem(w: World)
    requires SystemInv(w) && w.source.Opened?
    ensures SystemInv(Apply(w, Close))
  {
    assert Apply(w, Close) == w.(source := Closed(Handle(w).file));
    SourceKeepsInv(w, Closed(Handle(w).file));
  }

  lemma ReopenKeepsSystem(w: World)
    requires SystemInv(w) && w.source.Closed?
    ensures SystemInv(Apply(w, Reopen))
  {
    var s := w.source.file.visible;
    EvolvesReflexive(s);
    SourceKeepsInv(w, Opened(Store(Replaceable(s, s), s, false)));
  }

  // ---------- the theorem ----------

  lemma InitEstablishesInv(w: World)
    requires Init(w)
    ensures SystemInv(w)
  {
    var s := Memory(w);
    assert Inv(s);
    EvolvesReflexive(s);
  }

  lemma ArchiveCallKeepsInv(w: World, a: Action)
    requires SystemInv(w) && Enabled(w, a)
    requires a.DoInspect? || a.DoPrepare? || a.DoCommit? || a.DoResume? || a.DoOpen?
    ensures SystemInv(Apply(w, a))
  {
    var m, uuid, receipts := ArchiveCallMoves(w, a);
    ArchiveMoveKeepsInv(w, m, uuid, receipts, Apply(w, a));
  }

  lemma StepKeepsInv(w: World, a: Action)
    requires SystemInv(w) && Enabled(w, a)
    ensures SystemInv(Apply(w, a))
  {
    match a
    case DoImport(id, bytes, env) => ImportKeepsSystem(w, id, bytes, env);
    case DoCall(ctx, req, env) => CallKeepsInv(w, ctx, req, env);
    case DoCollect(env) => CollectKeepsSystem(w, env);
    case CopyBegin(ctx, from, to, session, fault) => CopyBeginKeepsSystem(w, ctx, from, to, session, fault);
    case CopyWrite(session, data) => CopyWriteKeepsSystem(w, session, data);
    case CopyEnd(session) => CopyEndKeepsSystem(w, session);
    case Restart(_, _, _, _) => RestartKeepsSystem(w, a);
    case Idle =>
    case Close => CloseKeepsSystem(w);
    case Reopen => ReopenKeepsSystem(w);
    case _ => ArchiveCallKeepsInv(w, a);
  }
}
