/**
 What clients of one LocalStorage may rely on: retries, failures, crashes, pins, residency and
 garbage collection.
 */
module SourceTheorems {
  import opened Managed
  import opened Files
  import opened SourceState
  import opened SourceInvariants
  import opened SourceSteps

  predicate Clear(st: Store) {
    !st.poisoned && st.file == Replaceable(st.state, st.state)
  }

  // ---------- retry elimination ----------

  datatype Invocation = Invocation(ctx: OperationContext, req: Request, env: Env)

  function RunCalls(st: Store, d: Disk, calls: seq<Invocation>): (Store, Disk)
    decreases calls
  {
    if calls == [] then (st, d)
    else
      var r := Call(st, d, calls[0].ctx, calls[0].req, calls[0].env);
      RunCalls(r.store, r.disk, calls[1..])
  }

  /** A call whose step the metadata already records. */
  predicate Repeated(st: Store, c: Invocation) {
    Qualify(c.ctx).Ok? && KeyOf(c.ctx, c.req) in st.state.steps
  }

  /** The calls that are not repeats at the moment they are made. */
  function Novel(st: Store, d: Disk, calls: seq<Invocation>): seq<Invocation>
    decreases calls
  {
    if calls == [] then []
    else
      var r := Call(st, d, calls[0].ctx, calls[0].req, calls[0].env);
      var rest := Novel(r.store, r.disk, calls[1..]);
      if Repeated(st, calls[0]) then rest else [calls[0]] + rest
  }

  /** Dropping every repeat leaves the same metadata and the same files. */
  lemma {:induction false} RetriesAreInvisible(st: Store, d: Disk, calls: seq<Invocation>)
    ensures RunCalls(st, d, calls) == RunCalls(st, d, Novel(st, d, calls))
    decreases calls
  {
    if calls != [] {
      var r := Call(st, d, calls[0].ctx, calls[0].req, calls[0].env);
      RetriesAreInvisible(r.store, r.disk, calls[1..]);
      var rest := Novel(r.store, r.disk, calls[1..]);
      if Repeated(st, calls[0]) {
        assert r.store == st && r.disk == d;
      } else {
        assert ([calls[0]] + rest)[1..] == rest;
      }
    }
  }

  lemma CallKeepsSteps(st: Store, d: Disk, c: Invocation)
    ensures Extends(st.state.steps, Call(st, d, c.ctx, c.req, c.env).store.state.steps)
  {
    CallWrites(st, d, c.ctx, c.req, c.env);
    var next := Attempted(st, d, c.ctx, c.req, c.env);
    if next.Some? {
      var k := KeyOf(c.ctx, c.req);
      EffectKeepsSteps(st.state, d, c.ctx, c.req, c.env);
      UpdateExtends(st.state.steps, k, next.value.steps[k]);
    }
  }

  lemma EffectKeepsSteps(s: State, d: Disk, ctx: OperationContext, req: Request, env: Env)
    ensures Effect(s, d, ctx, req, env).state.steps == s.steps
  {
  }

  lemma {:induction false} RunKeepsSteps(st: Store, d: Disk, calls: seq<Invocation>)
    ensures Extends(st.state.steps, RunCalls(st, d, calls).0.state.steps)
    decreases calls
  {
    if calls != [] {
      var r := Call(st, d, calls[0].ctx, calls[0].req, calls[0].env);
      CallKeepsSteps(st, d, calls[0]);
      RunKeepsSteps(r.store, r.disk, calls[1..]);
      ExtendsTransitive(st.state.steps, r.store.state.steps, RunCalls(st, d, calls).0.state.steps);
    }
  }

  /** Once a call has been answered and recorded, then after any further calls the same request
      gets that answer again and any other request under the step gets Conflict. */
  lemma RepeatsGetTheFirstAnswer(st: Store, d: Disk, first: Invocation, between: seq<Invocation>, again: Invocation)
    requires Qualify(first.ctx).Ok? && !st.poisoned && KeyOf(first.ctx, first.req) !in st.state.steps
    requires KeyOf(again.ctx, again.req) == KeyOf(first.ctx, first.req)
    requires var r := Call(st, d, first.ctx, first.req, first.env); r.result.Ok? || Definite(r.result.error)
    requires var r := Call(st, d, first.ctx, first.req, first.env); !RunCalls(r.store, r.disk, between).0.poisoned
    ensures var r := Call(st, d, first.ctx, first.req, first.env);
            var (st', d') := RunCalls(r.store, r.disk, between);
            Call(st', d', again.ctx, again.req, again.env)
            == Called(st', d', if again.req == first.req then r.result else Err(Conflict))
  {
    var r := Call(st, d, first.ctx, first.req, first.env);
    AnswerIsRecorded(st, d, first);
    RunKeepsSteps(r.store, r.disk, between);
  }

  lemma AnswerIsRecorded(st: Store, d: Disk, c: Invocation)
    requires Qualify(c.ctx).Ok? && !st.poisoned && KeyOf(c.ctx, c.req) !in st.state.steps
    requires var r := Call(st, d, c.ctx, c.req, c.env); r.result.Ok? || Definite(r.result.error)
    ensures var r := Call(st, d, c.ctx, c.req, c.env);
            && KeyOf(c.ctx, c.req) in r.store.state.steps
            && r.store.state.steps[KeyOf(c.ctx, c.req)] == SavedStep(c.req, r.result)
            && Clear(r.store)
  {
  }

  /** The owner's first commit_archive is refused as Busy if and only if a copy holds the source's
      lock; and whatever it is answered, the same call is answered ever after, whoever holds the
      lock then. */
  lemma CommitIsBusyIffSourceIsHeld(st: Store, d: Disk, ctx: OperationContext, view: DataView, receipt: ArchiveReceipt,
                                    env: Env,
                                    d': Disk, env': Env)
    requires Qualify(ctx).Ok? && !st.poisoned && KeyOf(ctx, CommitArchive(view, receipt)) !in st.state.steps
    requires view.viewId in st.state.views && st.state.views[view.viewId] == ViewOwner(ctx, view)
    requires DecodeEndpoint(view.source).Ok? && DecodeEndpoint(view.source).value in d.dirs && env.fault.Clean?
    ensures var req := CommitArchive(view, receipt);
            var r := Call(st, d, ctx, req, env);
            && (r.result == Err(Busy) <==> d.dirs[DecodeEndpoint(view.source).value].holder.Some?)
            && Call(r.store, d', ctx, req, env') == Called(r.store, d', r.result)
  {
    AnswerIsRecorded(st, d, Invocation(ctx, CommitArchive(view, receipt), env));
  }

  // ---------- crash points of one call ----------

  lemma RecallIgnoresLateFaults(s: State, d: Disk, ctx: OperationContext, target: RecallTarget,
                                evidence: TransferEvidence, env: Env)
    requires var r := CommitRecallEffect(s, d, ctx, target, evidence, env).result; r.Ok? || Definite(r.error)
    ensures var clean := CommitRecallEffect(s, d, ctx, target, evidence, env.(fault := Clean));
            && CommitRecallEffect(s, d, ctx, target, evidence, env).state == clean.state
            && CommitRecallEffect(s, d, ctx, target, evidence, env).result == clean.result
  {
  }

  /** A fault the effect survives, or fails definitely under, is one it never met. */
  lemma EffectIgnoresLateFaults(s: State, d: Disk, ctx: OperationContext, req: Request, env: Env)
    requires var r := Effect(s, d, ctx, req, env).result; r.Ok? || Definite(r.error)
    ensures var clean := Effect(s, d, ctx, req, env.(fault := Clean));
            Effect(s, d, ctx, req, env).state == clean.state && Effect(s, d, ctx, req, env).result == clean.result
  {
    match req
    case CommitRecall(target, evidence) => RecallIgnoresLateFaults(s, d, ctx, target, evidence, env);
    case _ =>
  }

  /** Wherever one call is cut off, a restart reveals the metadata from before it or from after
      its uninterrupted run, and nothing else; an answered call is the latter. */
  lemma CutCallRevealsBeforeOrAfter(st: Store, d: Disk, ctx: OperationContext, req: Request, env: Env)
    requires Clear(st)
    ensures var r := Call(st, d, ctx, req, env);
            var whole := Call(st, d, ctx, req, env.(fault := Clean));
            && (r.store.file.durable == st.state || r.store.file.durable == whole.store.state)
            && (r.store.file.visible == st.state || r.store.file.visible == whole.store.state)
            && (r.result.Ok? || Definite(r.result.error) ==>
                  r.result == whole.result && r.store.file == whole.store.file && !r.store.poisoned)
            && (!r.store.poisoned ==> Clear(r.store))
  {
    if Qualify(ctx).Ok? && KeyOf(ctx, req) !in st.state.steps {
      var out := Effect(st.state, d, ctx, req, env);
      if out.result.Ok? || Definite(out.result.error) {
        EffectIgnoresLateFaults(st.state, d, ctx, req, env);
      }
    }
  }

  /** The same of an import: a restart reveals the entity as a whole or not at all. */
  lemma CutImportRevealsBeforeOrAfter(st: Store, d: Disk, id: string, bytes: Bytes, env: Env)
    requires Clear(st) && id != "" && id !in st.state.entities
    ensures var r := Import(st, d, id, bytes, env);
            var after := st.state.(entities := st.state.entities[id := NewEntity(st.state, id, env.uuid, bytes)]);
            && (r.store.file.durable == st.state || r.store.file.durable == after)
            && (r.store.file.visible == st.state || r.store.file.visible == after)
            && (r.result.Ok? ==> r.store.file == Replaceable(after, after) && Clear(r.store))
            && (!r.store.poisoned ==> Clear(r.store))
  {
    var touch, next := ImportWrites(st, d, id, bytes, env);
  }

  /** ... and of a collection: the queue is as it was or empty, and nothing else has changed. */
  lemma CutCollectionRevealsBeforeOrAfter(st: Store, d: Disk, fault: Fault)
    requires Clear(st)
    ensures var r := CollectGarbage(st, d, fault);
            var after := st.state.(gc := []);
            && (r.store.file.durable == st.state || r.store.file.durable == after)
            && (r.store.file.visible == st.state || r.store.file.visible == after)
            && (r.store.file.visible == after && after != st.state ==>
                 forall l | l in st.state.gc :: SourceLayout(l) !in r.disk.dirs)
            && (!r.store.poisoned ==> Clear(r.store))
  {
    if RemoveAll(d, st.state.gc, 0, fault).1.Ok? {
      RemoveAllRemoves(d, st.state.gc, 0, fault);
    }
  }

  // ---------- what failures do to answers ----------

  lemma FaultsHideCalls(st: Store, d: Disk, ctx: OperationContext, req: Request, env: Env)
    ensures Hides(Call(st, d, ctx, req, env).result, Call(st, d, ctx, req, Env(Clean, env.uuid)).result)
  {
    var r := Effect(st.state, d, ctx, req, env).result;
    if r.Ok? || Definite(r.error) {
      EffectIgnoresLateFaults(st.state, d, ctx, req, env);
    }
  }

  lemma {:induction false} FaultsHideRemoval(d: Disk, layouts: seq<string>, at: nat, fault: Fault)
    ensures Hides(RemoveAll(d, layouts, at, fault).1, RemoveAll(d, layouts, at, Clean).1)
    decreases layouts
  {
    if layouts != [] {
      FaultsHideRemoval(RemoveOne(d, layouts[0], false, fault).0, layouts[1..], at + 1, fault);
    }
  }

  /** An I/O failure hides an answer of the storage, as Io or Unknown; it never makes another one up.
      So a definite refusal under faults, which is saved for good, would have been made without them. */
  lemma FaultsHideAnswers(st: Store, d: Disk, ctx: OperationContext, req: Request, id: string, bytes: Bytes,
                          key: EntityKey, env: Env)
    ensures Hides(Call(st, d, ctx, req, env).result, Call(st, d, ctx, req, Env(Clean, env.uuid)).result)
    ensures Hides(Import(st, d, id, bytes, env).result, Import(st, d, id, bytes, Env(Clean, env.uuid)).result)
    ensures Hides(Read(st, d, key, env.fault), Read(st, d, key, Clean))
    ensures Hides(CollectGarbage(st, d, env.fault).result, CollectGarbage(st, d, Clean).result)
  {
    FaultsHideCalls(st, d, ctx, req, env);
    FaultsHideRemoval(d, st.state.gc, 0, env.fault);
  }

  // ---------- pins ----------

  /** An open view keeps its entity published at the very layout it reads; an open recall keeps
      its entity Offline with the chosen anchor; so no data key has both. */
  lemma PinsExclude(s: State, v: string, l: string)
    requires Entities(s) && Pins(s)
    ensures v in s.views ==>
              var view := s.views[v].view;
              EntityOf(s, view.data).Ok? && EntityOf(s, view.data).value.published.Some?
              && view.source == Endpoint(SourceLayout(EntityOf(s, view.data).value.published.value))
    ensures l in s.recalls ==>
              var r := s.recalls[l];
              EntityOf(s, r.target.data).Ok? && EntityOf(s, r.target.data).value.published.None?
              && EntityOf(s, r.target.data).value.public.residency.Offline?
              && r.anchor in EntityOf(s, r.target.data).value.public.anchors
    ensures v in s.views && l in s.recalls ==> s.views[v].view.data != s.recalls[l].target.data
  {
    if v in s.views {
      assert ViewOk(s, v);
      assert EntityOk(s, s.views[v].view.data.entity.entity, s.entities[s.views[v].view.data.entity.entity]);
    }
    if l in s.recalls {
      assert RecallOk(s, l);
      assert EntityOk(s, s.recalls[l].target.data.entity.entity, s.entities[s.recalls[l].target.data.entity.entity]);
    }
  }

  /** commit_recall never answers Conflict for a changed target or anchor: its only Conflict is an
      operation ID completed by something else. */
  lemma RecallConflictIsReuse(s: State, d: Disk, ctx: OperationContext, target: RecallTarget,
                              evidence: TransferEvidence, env: Env)
    requires Entities(s) && Pins(s)
    requires CommitRecallEffect(s, d, ctx, target, evidence, env).result == Err(Conflict)
    ensures ctx.operationId in s.completed
            && (s.completed[ctx.operationId].action != Recall(target.archive)
               || s.completed[ctx.operationId].data != target.data
                || s.completed[ctx.operationId].context != ctx)
  {
    if target.layoutId in s.recalls {
      PinsExclude(s, "", target.layoutId);
    }
  }

  /** Each operation ID completes through one step only, saved with the same state and action. */
  lemma CompletedIsTheStepLog(s: State, op: string)
    requires Ledger(s)
    ensures op in s.completed <==>
              exists name :: Terminal(name) && Succeeded(s, StepKey(Context(op), name))
    ensures forall a, b | Terminal(a) && Terminal(b)
                          && Succeeded(s, StepKey(Context(op), a)) && Succeeded(s, StepKey(Context(op), b)) :: a == b
    ensures op in s.completed ==>
              var c := s.completed[op];
              var k := StepKey(Context(op), TerminalName(c.action));
              Succeeded(s, k) && s.steps[k].result == Ok(StateReply(c.state))
                  && Completes(s.steps[k].request) == (c.data, c.action)
  {
    if op in s.completed {
      assert CompletedOk(s, op);
      assert Terminal(TerminalName(s.completed[op].action))
          && Succeeded(s, StepKey(Context(op), TerminalName(s.completed[op].action)));
    }
    forall name | Terminal(name) && Succeeded(s, StepKey(Context(op), name))
      ensures op in s.completed && TerminalName(s.completed[op].action) == name
    {
      assert Indexed(s, StepKey(Context(op), name));
    }
  }

  // ---------- residency ----------

  /** What a call persists differs from before by at most one move of one entity along
      Online -> Dual, Dual -> Dual, Dual -> Offline, Offline -> Dual. */
  lemma CallsMoveOneEntity(st: Store, d: Disk, ctx: OperationContext, req: Request, env: Env)
    requires Inv(st.state) && FreshFor(st.state, env.uuid) && Attempted(st, d, ctx, req, env).Some?
    ensures var t := Attempted(st, d, ctx, req, env).value;
            t.entities == st.state.entities
            || (Terminal(NameOf(req)) && var id := Completes(req).0.entity.entity;
                id in st.state.entities && id in t.entities && EntityStep(st.state.entities[id], t.entities[id])
                && t.entities == st.state.entities[id := t.entities[id]])
  {
    if Effect(st.state, d, ctx, req, env).result.Ok? && Terminal(NameOf(req)) {
      var f := EffectTerminates(st.state, d, ctx, req, env);
    }
  }

  // ---------- garbage collection ----------

  /** A successful collection has removed exactly the queued layouts, emptied the queue, changed
      nothing else in the metadata, and says how many there were. */
  lemma CollectionRemovesTheQueue(st: Store, d: Disk, fault: Fault)
    requires CollectGarbage(st, d, fault).result.Ok?
    ensures var r := CollectGarbage(st, d, fault);
            && r.result.value == |st.state.gc|
            && r.store.state == st.state.(gc := []) && Clear(r.store)
            && (forall l | l in st.state.gc :: SourceLayout(l) !in r.disk.dirs)
            && (forall p | p in d.dirs && !(p.SourceLayout? && p.id in st.state.gc) ::
                 p in r.disk.dirs && r.disk.dirs[p] == d.dirs[p])
            && (forall p | p in r.disk.dirs :: p in d.dirs)
  {
    RemoveAllOnly(d, st.state.gc, 0, fault);
    RemoveAllRemoves(d, st.state.gc, 0, fault);
  }

  /** However a collection was interrupted, if no copy holds a queued layout then a clean retry
      from the same queue succeeds. */
  lemma CollectionCanBeRetried(st: Store, d: Disk, fault: Fault)
    requires !st.poisoned && CollectGarbage(st, d, fault).store == st
    requires !exists l | l in st.state.gc :: SourceLayout(l) in d.dirs && d.dirs[SourceLayout(l)].holder.Some?
    ensures CollectGarbage(st, CollectGarbage(st, d, fault).disk, Clean).result == Ok(|st.state.gc|)
  {
    RemoveAllResumes(d, st.state.gc, 0, 0, fault);
    assert CollectGarbage(st, d, fault).disk.dirs == RemoveAll(d, st.state.gc, 0, fault).0.dirs;
  }

  // ---------- read off one call ----------

  /** However far its effect got, a first call that fails definitely changes one steps entry, and
      one that fails with Unknown or Io leaves the remembered metadata as it was. */
  lemma FailuresAreAtomic(st: Store, d: Disk, ctx: OperationContext, req: Request, env: Env)
    requires Qualify(ctx).Ok? && !st.poisoned && KeyOf(ctx, req) !in st.state.steps
    requires Call(st, d, ctx, req, env).result.Err?
    ensures var r := Call(st, d, ctx, req, env);
            r.store.state
            == if Definite(r.result.error) then Record(st.state, KeyOf(ctx, req), SavedStep(req, r.result))
               else st.state
  {
  }

  /** The rollback is needed: a release under an operation ID already completed by another action
      has detached its entity and queued its layout by the time it is refused. */
  lemma RefusedReleaseHadMutated(s: State, d: Disk, ctx: OperationContext, expected: EntityState, env: Env)
    requires Entities(s) && EntityOf(s, expected.data).Ok? && EntityOf(s, expected.data).value.public == expected
    requires expected.anchors != [] && EntityOf(s, expected.data).value.published.Some?
    requires !Viewed(s, expected.data) && !Recalling(s, expected.data)
    requires TransferLock(d, SourceLayout(EntityOf(s, expected.data).value.published.value), env.fault).Ok?
    requires ctx.operationId in s.completed && s.completed[ctx.operationId].action != Release
    ensures var out := ReleaseEffect(s, d, ctx, expected, env);
            && out.result == Err(Conflict)
            && out.state.gc == s.gc + [EntityOf(s, expected.data).value.published.value]
            && out.state.entities[expected.data.entity.entity].public.residency.Offline?
            && out.state != s
  {
    EntityOfIsItsKey(s, expected.data);
    var out := ReleaseEffect(s, d, ctx, expected, env);
    assert |out.state.gc| == |s.gc| + 1;
  }
}
