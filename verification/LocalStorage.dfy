/**
 LocalStorage in its own form: an object whose metadata is replaced as a whole after an effect has
 changed a working copy in place, over layout directories that other objects change too. Each
 method is tied to the function of SourceState that specifies it.
 */
module LocalStorage {
  import opened Managed
  import opened Files
  import S = SourceState

  /** The layout directories of one machine, shared by the storage, the archive and the mover. */
  class Layouts {
    var disk: Disk

    constructor (disk: Disk)
      ensures this.disk == disk
    {
      this.disk := disk;
    }

    method New(path: Path, fault: Fault) returns (r: Result<()>)
      modifies this
      ensures var made := NewLayout(old(disk), path, fault);
              && (r.Ok? <==> made.Ok?) && disk == (if made.Ok? then made.value else old(disk))
              && (r.Err? ==> r.error == made.error)
    {
      if fault.LayoutFault? || path in disk.dirs {
        return Err(Io);
      }
      disk := disk.(dirs := disk.dirs[path := EMPTY_LAYOUT]);
      r := Ok(());
    }

    method Sync(root: Path)
      requires root in disk.dirs
      modifies this
      ensures disk == SyncPayload(old(disk), root)
    {
      disk := disk.(dirs := disk.dirs[root := disk.dirs[root].(synced := true)]);
    }

    method Seal(root: Path, fault: Fault) returns (r: Result<()>)
      requires root in disk.dirs
      modifies this
      ensures (disk, r) == WriteSeal(old(disk), root, fault)
    {
      var dir := disk.dirs[root];
      if fault == SealFault(false) {
        return Err(Io);
      }
      var linked := if dir.seal.SealDurable? || !fault.SealFault? then SealDurable else SealLinked;
      disk := disk.(dirs := disk.dirs[root := dir.(seal := linked)]);
      r := if fault.SealFault? then Err(HsmError.Unknown) else Ok(());
    }

    method Remove(layout: string, faulty: bool, fault: Fault) returns (r: Result<()>)
      modifies this
      ensures (disk, r) == S.RemoveOne(old(disk), layout, faulty, fault)
    {
      var path := SourceLayout(layout);
      if path in disk.dirs {
        if disk.dirs[path].holder.Some? {
          return Err(Busy);
        }
        if faulty && fault.RemoveFault? {
          var dir := disk.dirs[path];
          var rest := LayoutDir(if fault.dataLeft then dir.data else None, dir.synced && fault.dataLeft,
                                if fault.sealLeft then dir.seal else Unsealed, None);
          disk := Disk(disk.dirs[path := rest], disk.unlinked + {path});
          return Err(Io);
        }
        disk := Disk(disk.dirs - {path}, disk.unlinked + {path});
      }
      r := Ok(());
    }
  }

  /** The working copy an effect changes in place. A failed effect leaves it half changed. */
  class Draft {
    const storageId: string
    const ns: string
    var entities: map<string, S.Entity>
    var views: map<string, S.ViewOwner>
    var recalls: map<string, S.RecallOwner>
    var steps: map<S.StepKey, S.SavedStep>
    var completed: map<string, S.Completed>
    var gc: seq<string>

    constructor (s: S.State)
      ensures Value() == s
    {
      storageId, ns := s.storageId, s.ns;
      entities, views, recalls := s.entities, s.views, s.recalls;
      steps, completed, gc := s.steps, s.completed, s.gc;
    }

    function Value(): S.State
      reads this
    {
      S.State(storageId, ns, entities, views, recalls, steps, completed, gc)
    }

    method Finish(ctx: OperationContext, data: DataKey, action: ManagedAction, state: EntityState)
        returns (r: Result<()>)
      modifies this`completed
      ensures (Value(), r) == S.Finish(old(Value()), ctx, data, action, state)
    {
      var op := ctx.operationId;
      if op in completed
          && (completed[op].context != ctx || completed[op].data != data || completed[op].action != action) {
        return Err(Conflict);
      }
      completed := completed[op := S.Completed(ctx, data, action, state)];
      r := Ok(());
    }

    method PrepareArchive(files: Layouts, ctx: OperationContext, data: DataKey, env: Env) returns (r: Result<S.Reply>)
      modifies this`views
      ensures S.Outcome(Value(), files.disk, r) == S.PrepareArchiveEffect(old(Value()), old(files.disk), ctx, data, env)
    {
      var found := S.EntityOf(Value(), data);
      if found.Err? {
        return Err(found.error);
      }
      var entity := found.value;
      if entity.published.None? {
        return Err(Conflict);
      }
      if S.Viewed(Value(), data) {
        return Err(Busy);
      }
      var view := DataView(data, env.uuid, entity.public.length, entity.public.digest,
                           Endpoint(SourceLayout(entity.published.value)));
      views := views[view.viewId := S.ViewOwner(ctx, view)];
      r := Ok(S.ViewReply(view));
    }

    method CommitArchive(files: Layouts, ctx: OperationContext, view: DataView, receipt: ArchiveReceipt, env: Env)
      returns (r: Result<S.Reply>)
      modifies this
      ensures S.Outcome(Value(), files.disk, r)
              == S.CommitArchiveEffect(old(Value()), old(files.disk), ctx, view, receipt, env)
    {
      if view.viewId !in views {
        return Err(NotFound);
      }
      if views[view.viewId] != S.ViewOwner(ctx, view) {
        return Err(Fenced);
      }
      var root := DecodeEndpoint(view.source);
      if root.Err? {
        return Err(root.error);
      }
      var locked := TransferLock(files.disk, root.value, env.fault);
      if locked.Err? {
        return Err(locked.error);
      }
      var found := S.EntityOf(Value(), view.data);
      if found.Err? {
        return Err(found.error);
      }
      if !S.AcceptableReceipt(view, receipt) {
        return Err(Integrity);
      }
      var entity := found.value;
      if exists a | a in entity.public.anchors :: a.key == receipt.key && a != receipt {
        return Err(Conflict);
      }
      var anchors := entity.public.anchors;
      if receipt !in anchors {
        anchors := anchors + [receipt];
      }
      var result := entity.public.(anchors := anchors, residency := Dual, revision := entity.public.revision + 1);
      entities := entities[view.data.entity.entity := entity.(public := result)];
      views := views - {view.viewId};
      var done := Finish(ctx, view.data, Archive(receipt.key), result);
      r := if done.Ok? then Ok(S.StateReply(result)) else Err(done.error);
    }

    method Release(files: Layouts, ctx: OperationContext, expected: EntityState, env: Env) returns (r: Result<S.Reply>)
      modifies this
      ensures S.Outcome(Value(), files.disk, r) == S.ReleaseEffect(old(Value()), old(files.disk), ctx, expected, env)
    {
      var found := S.EntityOf(Value(), expected.data);
      if found.Err? {
        return Err(found.error);
      }
      var entity := found.value;
      if entity.public != expected || expected.anchors == [] {
        return Err(Conflict);
      }
      if S.Viewed(Value(), expected.data) || S.Recalling(Value(), expected.data) {
        return Err(Busy);
      }
      if entity.published.None? {
        return Err(Conflict);
      }
      var layout := entity.published.value;
      var locked := TransferLock(files.disk, SourceLayout(layout), env.fault);
      if locked.Err? {
        return Err(locked.error);
      }
      var result := entity.public.(residency := Offline, revision := entity.public.revision + 1);
      entities := entities[expected.data.entity.entity := S.Entity(result, None)];
      gc := gc + [layout];
      var done := Finish(ctx, expected.data, ManagedAction.Release, result);
      r := if done.Ok? then Ok(S.StateReply(result)) else Err(done.error);
    }

    method PrepareRecall(files: Layouts, ctx: OperationContext, expected: EntityState, anchor: ArchiveReceipt, env: Env)
      returns (r: Result<S.Reply>)
      modifies this`recalls, files
      ensures S.Outcome(Value(), files.disk, r)
              == S.PrepareRecallEffect(old(Value()), old(files.disk), ctx, expected, anchor, env)
    {
      var found := S.EntityOf(Value(), expected.data);
      if found.Err? {
        return Err(found.error);
      }
      var entity := found.value;
      if entity.public != expected || entity.published.Some? || anchor !in entity.public.anchors {
        return Err(Conflict);
      }
      if S.Recalling(Value(), expected.data) {
        return Err(Busy);
      }
      var made := files.New(SourceLayout(env.uuid), env.fault);
      if made.Err? {
        return Err(made.error);
      }
      var target := RecallTarget(expected.data, env.uuid, anchor.key, Endpoint(SourceLayout(env.uuid)));
      recalls := recalls[target.layoutId := S.RecallOwner(ctx, target, anchor)];
      r := Ok(S.TargetReply(target));
    }

    method CommitRecall(files: Layouts, ctx: OperationContext, target: RecallTarget, evidence: TransferEvidence,
                        env: Env)
      returns (r: Result<S.Reply>)
      modifies this, files
      ensures S.Outcome(Value(), files.disk, r)
              == S.CommitRecallEffect(old(Value()), old(files.disk), ctx, target, evidence, env)
    {
      var layout := SourceLayout(target.layoutId);
      if target.layoutId !in recalls {
        return Err(NotFound);
      }
      var owner := recalls[target.layoutId];
      if owner.context != ctx || owner.target != target {
        return Err(Fenced);
      }
      var root := DecodeEndpoint(target.destination);
      if root.Err? {
        return Err(root.error);
      }
      if root.value != layout {
        return Err(Fenced);
      }
      var locked := TransferLock(files.disk, layout, env.fault);
      if locked.Err? {
        return Err(locked.error);
      }
      var actual := ReadPayload(files.disk, layout, env.fault);
      if actual.Err? {
        return Err(actual.error);
      }
      var found := S.EntityOf(Value(), target.data);
      if found.Err? {
        return Err(found.error);
      }
      var entity := found.value;
      if entity.published.Some? || owner.anchor !in entity.public.anchors {
        return Err(Conflict);
      }
      if evidence != actual.value || actual.value != TransferEvidence(entity.public.length, entity.public.digest) {
        return Err(Integrity);
      }
      if env.fault.SyncFault? {
        return Err(Io);
      }
      files.Sync(layout);
      var sealed := files.Seal(layout, env.fault);
      if sealed.Err? {
        return Err(sealed.error);
      }
      var result := entity.public.(residency := Dual, revision := entity.public.revision + 1);
      entities := entities[target.data.entity.entity := S.Entity(result, Some(target.layoutId))];
      recalls := recalls - {target.layoutId};
      var done := Finish(ctx, target.data, Recall(target.archive), result);
      r := if done.Ok? then Ok(S.StateReply(result)) else Err(done.error);
    }

    method Run(files: Layouts, ctx: OperationContext, req: S.Request, env: Env) returns (r: Result<S.Reply>)
      modifies this, files
      ensures S.Outcome(Value(), files.disk, r) == S.Effect(old(Value()), old(files.disk), ctx, req, env)
    {
      match req
      case PrepareArchive(data) => r := PrepareArchive(files, ctx, data, env);
      case CommitArchive(view, receipt) => r := CommitArchive(files, ctx, view, receipt, env);
      case ReleaseData(expected) => r := Release(files, ctx, expected, env);
      case PrepareRecall(expected, anchor) => r := PrepareRecall(files, ctx, expected, anchor, env);
      case CommitRecall(target, evidence) => r := CommitRecall(files, ctx, target, evidence, env);
    }
  }

  /** An open storage: the metadata file, what is remembered of it, and the poison flag. */
  class Storage {
    const files: Layouts
    var file: Replaceable<S.State>
    var state: S.State
    var poisoned: bool

    /** Opening syncs the root before it reads: what it reads is then certain to be on disk. */
    constructor (files: Layouts, found: Replaceable<S.State>)
      ensures this.files == files && Store() == S.Store(Replaceable(found.visible, found.visible), found.visible, false)
    {
      this.files := files;
      file := Replaceable(found.visible, found.visible);
      state, poisoned := found.visible, false;
    }

    function Store(): S.Store
      reads this
    {
      S.Store(file, state, poisoned)
    }

    /** Replaces the file only; any failure poisons the handle. */
    method Persist(next: S.State, fault: Fault) returns (r: Result<()>)
      modifies this
      ensures r == S.Persist(old(Store()), next, fault).1
      ensures var st := S.Persist(old(Store()), next, fault).0; file == st.file && (r.Err? ==> Store() == st)
      ensures r.Ok? ==> state == old(state) && poisoned == old(poisoned)
    {
      if fault.PersistFault? {
        if fault.renamed {
          file := Replaceable(file.durable, next);
        }
        poisoned := true;
        return Err(if fault.renamed then HsmError.Unknown else Io);
      }
      file := Replaceable(next, next);
      r := Ok(());
    }

    method Step(ctx: OperationContext, req: S.Request, env: Env) returns (r: Result<S.Reply>)
      modifies this, files
      ensures S.Called(Store(), files.disk, r) == S.Call(old(Store()), old(files.disk), ctx, req, env)
    {
      var qualified := S.Qualify(ctx);
      if qualified.Err? {
        return Err(qualified.error);
      }
      if poisoned {
        return Err(HsmError.Unknown);
      }
      var key := S.KeyOf(ctx, req);
      if key in state.steps {
        return S.Replay(state.steps[key], req);
      }
      var next := new Draft(state);
      var result := next.Run(files, ctx, req, env);
      if result.Err? {
        if Definite(result.error) {
          var failed := S.Record(state, key, S.SavedStep(req, Err(result.error)));
          var saved := Persist(failed, env.fault);
          if saved.Err? {
            return Err(saved.error);
          }
          state := failed;
        }
        return Err(result.error);
      }
      next.steps := next.steps[key := S.SavedStep(req, result)];
      var saved := Persist(next.Value(), env.fault);
      if saved.Err? {
        return Err(saved.error);
      }
      state := next.Value();
      r := result;
    }

    method Import(id: string, bytes: Bytes, env: Env) returns (r: Result<EntityState>)
      modifies this, files
      ensures S.Imported(Store(), files.disk, r) == S.Import(old(Store()), old(files.disk), id, bytes, env)
    {
      if id == "" {
        return Err(Invalid);
      }
      if poisoned {
        return Err(HsmError.Unknown);
      }
      if id in state.entities {
        return Err(Conflict);
      }
      var layout := SourceLayout(env.uuid);
      var made := files.New(layout, env.fault);
      if made.Err? {
        return Err(made.error);
      }
      files.disk := files.disk.(dirs := files.disk.dirs[layout := LayoutDir(Some(bytes), false, Unsealed, None)]);
      if env.fault.SyncFault? || env.fault.ReadFault? {
        return Err(Io);
      }
      files.Sync(layout);
      var evidence := DigestFile(bytes);
      var sealed := files.Seal(layout, env.fault);
      if sealed.Err? {
        return Err(sealed.error);
      }
      var data := DataKey(EntityKey(state.storageId, state.ns, id), 1);
      var public := EntityState(data, 1, Online, evidence.length, evidence.digest, []);
      var next := state.(entities := state.entities[id := S.Entity(public, Some(env.uuid))]);
      var saved := Persist(next, env.fault);
      if saved.Err? {
        return Err(saved.error);
      }
      state := next;
      r := Ok(public);
    }

    /** Removes the queued layouts one after another and stops at the first failure. */
    method CollectGarbage(fault: Fault) returns (r: Result<nat>)
      modifies this, files
      ensures S.Collected(Store(), files.disk, r) == S.CollectGarbage(old(Store()), old(files.disk), fault)
    {
      if poisoned {
        return Err(HsmError.Unknown);
      }
      var count := 0;
      while count < |state.gc|
        invariant count <= |state.gc| && Store() == old(Store()) && !poisoned
        invariant S.RemoveAll(old(files.disk), state.gc, 0, fault)
                  == S.RemoveAll(files.disk, state.gc[count..], count, fault)
      {
        var removed := files.Remove(state.gc[count], fault.RemoveFault? && fault.at == count, fault);
        if removed.Err? {
          return Err(removed.error);
        }
        count := count + 1;
      }
      if fault.SyncFault? {
        return Err(Io);
      }
      files.disk := files.disk.(unlinked := set p | p in files.disk.unlinked && !p.SourceLayout?);
      var next := state.(gc := []);
      var saved := Persist(next, fault);
      if saved.Err? {
        return Err(saved.error);
      }
      state := next;
      r := Ok(count);
    }

    method Inspect(key: EntityKey) returns (r: Result<EntityState>)
      ensures r == S.Inspect(Store(), key)
    {
      if poisoned {
        return Err(HsmError.Unknown);
      }
      if !S.KnownKey(state, key) || key.entity !in state.entities {
        return Err(NotFound);
      }
      r := Ok(state.entities[key.entity].public);
    }

    method Read(key: EntityKey, fault: Fault) returns (r: Result<Bytes>)
      ensures r == S.Read(Store(), files.disk, key, fault)
    {
      if poisoned {
        return Err(HsmError.Unknown);
      }
      if !S.KnownKey(state, key) || key.entity !in state.entities {
        return Err(NotFound);
      }
      var published := state.entities[key.entity].published;
      if published.None? {
        return Err(Conflict);
      }
      var layout := SourceLayout(published.value);
      if fault.ReadFault? || layout !in files.disk.dirs || files.disk.dirs[layout].data.None? {
        return Err(Io);
      }
      r := Ok(files.disk.dirs[layout].data.value);
    }

    method QueryCompleted(ctx: OperationContext, data: DataKey, action: ManagedAction)
        returns (r: Result<Option<EntityState>>)
      ensures r == S.QueryCompleted(Store(), ctx, data, action)
    {
      var qualified := S.Qualify(ctx);
      if qualified.Err? {
        return Err(qualified.error);
      }
      if poisoned {
        return Err(HsmError.Unknown);
      }
      if !S.KnownKey(state, data.entity) {
        return Err(NotFound);
      }
      if ctx.operationId !in state.completed {
        return Ok(None);
      }
      var prior := state.completed[ctx.operationId];
      r := if prior.context == ctx && prior.data == data
          && prior.action == action then Ok(Some(prior.state)) else Err(Conflict);
    }
  }
}
