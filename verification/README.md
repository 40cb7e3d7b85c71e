# HSM data protocol: a verified model

This project models the crash-safe data protocol of the HSM workspace: the local managed storage
(`LocalStorage`), the write-once local archive (`LocalArchive`), the private layout directories with
their transfer lock and seal file, the copy executor, the engine's archive, release and recall
workflows, intent execution, and the worker's cycle. It proves what the protocol is for: no imported
byte is ever lost, whatever the interleaving, the I/O fault or the crash; reads return what was
imported; answers survive; the archive never contradicts itself; and a cut-off operation is finished
by running it again, with one exception that is characterised exactly.

## How it is built

| file | content |
|---|---|
| `Managed.dfy` | the portable vocabulary: keys, receipts, states, contexts, errors |
| `Files.dfy` | layouts, locks, seals, replace-by-rename files, faults; what each crash can leave |
| `SourceState.dfy` | the storage metadata, the effects of the five recorded steps, the step transaction, import, read, collection, all as functions |
| `SourceInvariants.dfy`, `SourceSteps.dfy`, `SourceTheorems.dfy` | the global invariants of the metadata, that every step keeps them, and what clients may rely on |
| `Catalog.dfy` | the archive's calls as functions, its invariant, exactly what its calls answer |
| `System.dfy`, `SystemSafety.dfy`, `SystemTheorems.dfy` | everything as one state machine with arbitrary clients, faults, restarts; its invariant; theorems over all runs |
| `Engine.dfy` | the workflows as program counters; any number of them refine the system |
| `Answers.dfy` | what the storage's handle answers over whole runs: observations, outcomes, imports, reads, and nothing after a failed write |
| `Outcomes.dfy` | a workflow's success means a completed operation on disk |
| `Lone.dfy` | one workflow with its restarts and re-runs; reachable worlds, and what continues them |
| `ArchiveRecovery.dfy`, `RecallRecovery.dfy` | that workflow cut off anywhere and re-run: convergence of archive, the exact condition for recall |
| `RecallWindow.dfy` | the recall window: how a recall gets into it, that it stays there, and that nothing else stops a recall |
| `Pinning.dfy`, `Unpinning.dfy` | exactly when a step is Busy, exactly how long a pin lasts, and exactly when it can still be closed |
| `Releases.dfy`, `Decisions.dfy` | exactly when release, archive and recall succeed, why they are refused otherwise; release cut off and re-run |
| `Resumption.dfy` | re-runs after whatever any other clients have done |
| `Witnesses.dfy` | runs from an empty system into the recall window and into a commit refused for good |
| `Lifecycle.dfy` | import, archive, release, recall and read without faults, from any reachable quiet state |
| `SealProtocol.dfy` | the lock and seal protocol at the grain of single file operations, and its refinement of the atomic steps used above |
| `Adapter.dfy` | the Curvine adapter's reply checks as a second specification of the storage |
| `Intents.dfy` | run_intent over claims, takeovers and crashes, and what repeated execution comes to |
| `LocalStorage.dfy`, `LocalArchive.dfy`, `Workflows.dfy` | the same code in its own form: classes updated in place, each method proved equal to its function; the engine's methods proved equal to the program-counter machine |
| `Retries.dfy` | an intent cut off by a fault, claimed again and done |
| `Worker.dfy` | the worker's nested loops, counters and budgets |

Conventions. A call carries an `Env`: the first I/O fault it meets, if any, and the UUID it would
draw. A crash inside a call leaves exactly the files that a failure at the same point leaves, so a
crash is a faulted call followed by a `Restart`, which also makes unsynced data arbitrary, may undo
every rename or link whose directory was not synced, and drops every lock and copy. The async mutexes
make each storage step and each archive call one critical section; copies are not atomic and
interleave chunk by chunk with everything else. A `Replaceable` file has the value a reader sees and
the value certain to survive a crash. `LocalStorage::open` syncs the root before it reads
`state.json` (crates/hsm-local/src/storage.rs:172-180); `Reopen` therefore makes what is visible
durable.

Two results that differ from what one might expect of the documentation:

- `archive` always converges when re-run. `recall` does not. Its window lies between the seal and the
  persisted metadata (crates/hsm-local/src/storage.rs:638 and 286): while the seal shows and the
  metadata has the recall open, every re-run is fenced by the executor's seal check, and every new
  recall is refused as Busy. A failed write of the seal's directory leaves a seal that a restart may
  still undo; a failed write of the metadata leaves a durable one, and then no restart and no re-run
  ever finishes the recall, only the owner's own `commit_recall`, called directly. `RecallWindow`
  proves both, that the window is the only obstacle (some continuation finishes the recall if and only
  if it is not in the window for good), and that any recall can be brought into it; `Witnesses` gives
  a run from an empty system.
- Every `Busy` of a recorded step is saved as a definite failure
  (crates/hsm-local/src/storage.rs:83-95, 261-280), although the engine and `run_intent` treat Busy as
  something to retry. A step that nothing else stands against is Busy exactly when its data is pinned
  or a copy holds its layout's lock, and the first answer is the answer for good. A commit that meets
  a copy therefore never succeeds under its operation ID; and since only that success closes its
  operation's view or recall, the data stays pinned for good: a pin can still be closed in some
  continuation exactly while its commit is unsaved and its operation ID unused by another action. An
  intent one of whose steps was refused can never become Done. `Pinning`, `Unpinning` and
  `Intents` prove this; `Witnesses` gives a run from an empty system that ends in it.

## Model

| member | source | states |
|---|---|---|
| SystemTheorems.ImportIsNeverLost | crates/hsm-local/src/storage.rs:293-348 | after a successful import, at every later moment of any run, in whichever metadata a restart could reveal, exactly the imported bytes are durably held by the published layout if there is one and by the committed payload of every anchor, and there is at least one of them |
| SystemTheorems.NothingIsLost | crates/hsm-local/src/storage.rs:519-557 | in every reachable world no metadata on disk names an entity whose bytes are gone |
| SystemTheorems.ReadReturnsTheImport | crates/hsm-local/src/storage.rs:352-367 | a read that succeeds, however many archive, release, collection, recall cycles and crashes later, returns the imported bytes |
| SystemTheorems.OnlineIsReadable | crates/hsm-local/src/storage.rs:352-367 | at a healthy handle a clean read succeeds if and only if the entity is not Offline |
| SystemTheorems.HealthyStateSurvives | crates/hsm-local/src/storage.rs:172-230 | what a healthy handle knew (entities up to forward moves, saved steps, completed operations) is part of everything any later restart can reveal |
| SystemTheorems.AnswersAreForever | crates/hsm-local/src/storage.rs:232-289 | a recorded answer is what every later call of that step gets, crashes or not; another request gets Conflict; nothing changes |
| SystemTheorems.RefusedCommitPinsForGood | crates/hsm-local/src/storage.rs:261-280 | once an operation's commit_archive or commit_recall is saved as a failure, its view or recall is open in everything any later restart can reveal |
| SourceTheorems.CommitIsBusyIffSourceIsHeld | crates/hsm-local/src/util.rs:82-92 | the owner's first commit_archive is refused as Busy if and only if a copy holds the source's lock, and its answer is the answer ever after, whoever holds the lock later |
| Pinning.BusyMeansContended | crates/hsm-local/src/storage.rs:434-657 | whatever else is wrong and whatever fault a step meets, Busy means that its data is pinned or its layout's lock held |
| Pinning.FirstCallIsBusyIffContended | crates/hsm-local/src/storage.rs:232-289 | the first call of any of the five steps that nothing else stands against is Busy if and only if it meets contention, and succeeds if and only if it does not |
| Pinning.FirstCallDecidesForGood | crates/hsm-local/src/storage.rs:245-280 | and at every later healthy moment of any run the same call is answered alike |
| Pinning.RunPinsAreOpenUntilCommitted | crates/hsm-local/src/storage.rs:434-657 | in every state any restart of any run can reveal, an operation's view or recall is open if and only if its own commit step is not saved as a success |
| Unpinning.ViewCanCloseIffUndecided | crates/hsm-local/src/storage.rs:463-517 | from any reachable healthy moment some continuation has an operation's view closed if and only if its commit_archive has succeeded, or is unsaved and its operation ID not completed by another action |
| Unpinning.RecallCanCloseIffUndecided | crates/hsm-local/src/storage.rs:604-657 | the same of a recall and its commit_recall |
| Witnesses.RefusedCommitIsReachable | crates/hsm-local/src/storage.rs:470-480 | a run from an empty system, with a copy of another client from the same source, ends in a commit_archive saved as Busy whose view no continuation closes |
| SystemTheorems.RevisionsNeverRepeat | crates/hsm-local/src/storage.rs:505-513 | two observations of an entity in one run: content never changes, anchors only grow at the end, revisions never fall, differ by the number of operations completed in between, and are equal only for identical observations |
| SystemTheorems.NoActionIntervened | crates/hsm-local/src/storage.rs:524-530 | if a whole-state compare accepts an observation, no operation on the data key completed since it was made |
| SystemTheorems.RemovedIsUnwanted | crates/hsm-local/src/storage.rs:371-389 | a layout that collection removed, even partly, is neither published nor a recall target in any metadata a crash can reveal |
| SystemTheorems.ArchiveAgrees | crates/hsm-local/src/archive.rs:97-140 | all receipts ever reported for a key are equal; a later lookup that answers says Committed with it, and without a fault it answers |
| SystemTheorems.ArchivePayloadIsForever | crates/hsm-local/src/archive.rs:211-243 | a frozen attempt layout stays frozen at the same content through every run |
| SystemTheorems.SealedStaysFrozen | crates/hsm-local/src/executor.rs:41-45 | no step changes a durably sealed layout, except collecting a listed one or a restart disturbing one already removed |
| SystemTheorems.RunKeepsInv | crates/hsm-local/src/storage.rs:232-657 | the system invariant holds after every run of arbitrary clients, faults and restarts |
| SystemSafety.StepKeepsInv | crates/hsm-local/src/storage.rs:232-657 | every single action keeps it: metadata invariants, frozen published layouts, durably committed anchors, faithful private layouts, live locks |
| SourceSteps.EffectKeepsInv | crates/hsm-local/src/storage.rs:434-657 | a successful effect keeps entities, pins, ownership, step log, completed index and revision counts together, and only moves the state forward |
| SourceSteps.EffectTerminates | crates/hsm-local/src/storage.rs:463-657 | a successful terminal step moves exactly one entity one residency step and completes exactly its operation |
| SourceTheorems.RetriesAreInvisible | crates/hsm-local/src/storage.rs:232-260 | any sequence of calls ends in the same metadata and files as the sequence with every repeated call removed |
| SourceTheorems.RepeatsGetTheFirstAnswer | crates/hsm-local/src/storage.rs:245-260 | after any further calls a repeated request gets the first answer, another request under the step Conflict, and nothing changes |
| SourceTheorems.CutCallRevealsBeforeOrAfter | crates/hsm-local/src/storage.rs:224-289 | wherever a call is cut off, a restart reveals the metadata from before it or from after its whole run; an answered call is the latter |
| SourceTheorems.CutImportRevealsBeforeOrAfter | crates/hsm-local/src/storage.rs:293-348 | the same of an import |
| SourceTheorems.CutCollectionRevealsBeforeOrAfter | crates/hsm-local/src/storage.rs:371-389 | the same of a collection: the queue is as it was or empty, and if it can be seen empty its layouts are gone |
| SourceTheorems.PinsExclude | crates/hsm-local/src/storage.rs:434-461 | an open view keeps its entity published at the layout it reads, an open recall keeps it Offline with the chosen anchor, and no data key has both |
| SourceTheorems.RecallConflictIsReuse | crates/hsm-local/src/storage.rs:625-628 | commit_recall's "target or anchor changed" branch is unreachable: its only Conflict is a reused operation ID |
| SourceTheorems.CompletedIsTheStepLog | crates/hsm-local/src/storage.rs:143-167 | an operation is completed exactly when one, and only one, of its terminal steps is saved as a success, with the same state, data key and action |
| SourceTheorems.CallsMoveOneEntity | crates/hsm-local/src/storage.rs:469-557 | what a call persists differs by at most one move of one entity along Online to Dual, Dual to Dual, Dual to Offline, Offline to Dual |
| SourceTheorems.CollectionRemovesTheQueue | crates/hsm-local/src/storage.rs:371-389 | a successful collection removed exactly the queued layouts, emptied the queue, changed nothing else and returns their number |
| SourceTheorems.CollectionCanBeRetried | crates/hsm-local/src/storage.rs:369-389 | however a collection failed, with no copy on a queued layout a clean retry succeeds on the same queue |
| Catalog.MoveSound | crates/hsm-local/src/archive.rs:149-245 | every way an archive call changes the files keeps the catalog's invariant, keeps every receipt and every sealed layout |
| Catalog.CommitMoves | crates/hsm-local/src/archive.rs:187-245 | a commit is one of a few legal changes, and a receipt it answers with is durably linked under its key and describes the view |
| Catalog.PrepareMoves | crates/hsm-local/src/archive.rs:149-185 | a prepare creates at most one private layout and one attempt for its own context, key and view |
| Catalog.LookupMoves | crates/hsm-local/src/archive.rs:97-120 | a lookup that finds a receipt has made every linked receipt durable and verified the payload |
| Engine.ClusterRefinesSystem | crates/hsm-engine/src/lib.rs:97-243 | every run of any number of workflows is a run of the system, so every system theorem is one about the engine |
| Engine.EngineIsAllowed | crates/hsm-engine/src/lib.rs:112-138 | the engine hands commit_archive only receipts the archive has reported |
| Engine.EngineLosesNothing | crates/hsm-engine/src/lib.rs:97-243 | no data loss under any interleaving of workflows, copies, collections and crashes |
| Engine.ReleaseLeavesAnArchive | crates/hsm-engine/src/lib.rs:142-189 | at an engine release's own call one of the anchors it verified is still durably committed with the entity's bytes |
| Engine.ReleaseKeepsAnArchive | crates/hsm-engine/src/lib.rs:142-189 | at every step of every cluster run at which a release is about to make its call, first or repeated, one of its anchors is durably committed with exactly the entity's content, then and at every later moment |
| Engine.FindAnchor | crates/hsm-engine/src/lib.rs:208-212 | finds an anchor with the key if there is one, and none only if no anchor has it |
| Outcomes.SuccessMeansCompleted | crates/hsm-engine/src/lib.rs:97-243 | when a workflow's last call succeeds, the durable metadata has its operation completed on the job's data, by the job's action, with the answered state |
| Outcomes.ClusterStepKeepsOutcomes | crates/hsm-engine/src/lib.rs:97-243 | so whenever any workflow in any cluster has ended with a state, that is recorded on disk, and stays |
| Outcomes.CompletedAppliesNothingMore | crates/hsm-local/src/storage.rs:143-167 | once an operation is completed none of its calls changes any entity again |
| ArchiveRecovery.ArchiveConverges | crates/hsm-engine/src/lib.rs:97-139 | after any history of faults, crashes and re-runs of an undisturbed archive, a re-run without faults ends with the answer and the exact metadata of an uninterrupted run, up to the view ID and the receipt |
| ArchiveRecovery.AnchoredMeans | crates/hsm-local/src/storage.rs:463-517 | that metadata: revision one higher, Dual, one anchor for the key, the view closed, the operation completed, everything else unchanged |
| ArchiveRecovery.HistoryStands | crates/hsm-engine/src/lib.rs:97-139 | during any such history the metadata on disk is always one of three exact states |
| ArchiveRecovery.AnchorCall | crates/hsm-local/src/storage.rs:463-517 | commit_archive on the pinned state yields exactly the anchored state, saved or faulted |
| Lifecycle.FullCycle | crates/hsm-engine/src/lib.rs:97-243 | from any reachable quiet state the archive, release and recall workflows, run without faults one after another, all succeed, the entity ends Dual three revisions later with an anchor under the key, and reads exactly as at the start |
| Lifecycle.ImportLeg | crates/hsm-local/src/storage.rs:293-348 | at any quiet moment an import without faults succeeds, its bytes are readable, and the cycle can start |
| Releases.ReleaseDecides | crates/hsm-engine/src/lib.rs:142-189 | at any healthy moment of any run a fault-free first release ends in NotFound for an unknown entity, in Conflict for a stale or unanchored observation (nothing recorded), in Busy while the data is pinned or its layout locked, in Conflict if Offline (recorded), and in every other case releases: the entity Offline one revision up, anchors kept, layout queued |
| Releases.ReleaseSucceeds | crates/hsm-engine/src/lib.rs:165-189 | a current, anchored, unpinned entity whose layout no copy holds is released by the engine's workflow |
| Releases.HistoryStands | crates/hsm-engine/src/lib.rs:142-189 | whatever faults and restarts a release meets, the metadata on disk is always the state before it or the state after it |
| Releases.ReleaseConverges | crates/hsm-engine/src/lib.rs:142-189 | after any such history a fault-free re-run ends Ok with exactly the released metadata |
| Decisions.ArchiveDecides | crates/hsm-engine/src/lib.rs:97-139 | a fault-free first archive at a quiet moment succeeds if and only if the data is published and unpinned and its key is the archive's, free or taken by just this content; otherwise it ends in the named error and no entity changes |
| Decisions.RecallDecides | crates/hsm-engine/src/lib.rs:192-243 | a fault-free first recall at a quiet moment succeeds if and only if its observation is current, Offline, anchored under the key and in nobody's recall; otherwise it ends in the named error, with nothing but the refusal recorded |
| Catalog.PrepareDecides | crates/hsm-local/src/archive.rs:149-185 | at any catalog a prepare without faults is Invalid exactly for a bad context or foreign key and Conflict exactly for a key with a receipt or an attempt made with another view; otherwise it answers with the attempt's own target or a new layout |
| Catalog.CommitDecides | crates/hsm-local/src/archive.rs:187-245 | an owner's commit answers with the key's receipt if it describes the view; without one it makes one if and only if no copy holds the layout, the layout has just the view's content and the evidence says so |
| Catalog.ResumeDecides | crates/hsm-local/src/archive.rs:124-140 | a resume of an owned attempt answers None exactly while its layout is unsealed, and otherwise finds or finishes the receipt |
| Catalog.OpenDecides | crates/hsm-local/src/archive.rs:247-256 | open gives a payload exactly for a linked receipt, frozen at what the receipt says; NotFound exactly for a free key, Integrity exactly for another receipt |
| Catalog.FaultsHideAnswers | crates/hsm-local/src/archive.rs:97-256 | whatever fault an archive call meets, it answers as it would without one, or with Io or Unknown |
| SourceTheorems.FaultsHideAnswers | crates/hsm-local/src/storage.rs:205-389 | the same of step calls, imports, reads and collections; so a definite refusal, which is saved for good, is never an I/O failure's |
| Catalog.TakeoverContinuesAttempt | crates/hsm-local/src/archive.rs:84-95 | a controller of any epoch that names a prepared attempt with its view is given the same target and owns it; with another view it is refused |
| RecallRecovery.RecallConvergesIffUnsealed | crates/hsm-engine/src/lib.rs:192-243 | after any history of an undisturbed recall, a re-run without faults recalls the entity if and only if no open recall of the data key has a sealed layout; otherwise it is Fenced and the metadata stays as it was |
| RecallRecovery.TurnStands | crates/hsm-local/src/storage.rs:618-657 | the invariant of such a history; nothing but the recall's own publish step, cut off between the seal and the persisted commit, puts it into the window |
| RecallWindow.CutPublishSeals | crates/hsm-local/src/storage.rs:638-657 | and such a cut does: the metadata file stays as it was and the layout is sealed, durably if it was the metadata write that failed |
| RecallWindow.AnyRecallCanBeJammed | crates/hsm-local/src/storage.rs:604-657 | from the first call of any recall a history of turns leads into the window with a durable seal, at a healthy handle |
| RecallWindow.JammedForever | crates/hsm-local/src/executor.rs:41-45 | once both versions of the metadata file have the recall open and its seal is durable, no run of the operation's turns, faults, restarts and re-runs included, ever ends in success |
| RecallWindow.RecallCanFinishIffOutsideTheWindow | crates/hsm-engine/src/lib.rs:192-243 | at every moment of every such history some continuation finishes the recall if and only if it is not in that window |
| Witnesses.WindowIsReachable | crates/hsm-local/src/storage.rs:638-657 | a run from an empty system (import, archive, release, a recall whose metadata write fails) ends at a healthy handle in that window |
| Resumption.ArchiveResumes | crates/hsm-engine/src/lib.rs:97-139 | from any reachable quiet moment, whatever other clients have done, an archive undecided at the source is finished by a re-run without faults, and nothing but its own records change |
| Resumption.RecallResumesIffUnsealed | crates/hsm-engine/src/lib.rs:192-243 | the same of a recall, if and only if its layout is not sealed; otherwise the re-run is fenced and changes no metadata |
| RecallRecovery.OthersAreBusy | crates/hsm-local/src/storage.rs:573-578 | while the recall is open every other operation's prepare_recall is Busy and the entity is still Offline with its anchors |
| RecallRecovery.SealedIsFilled | crates/hsm-local/src/storage.rs:618-638 | a wedged recall's layout is unlocked and holds exactly the entity's content |
| RecallRecovery.DirectCommitPublishes | crates/hsm-local/src/storage.rs:604-657 | the owner's commit_recall, called directly, publishes it |
| Lone.TurnKeepsAlone | crates/hsm-local/src/util.rs:82-92 | no lock outlives its copy |
| SealProtocol.SealedForever | crates/hsm-local/src/executor.rs:41-45 | under any interleaving of single file operations of movers and committers, and any crash, a durably sealed layout keeps its bytes |
| SealProtocol.VerifiedForever | crates/hsm-local/src/archive.rs:211-243 | what a committer digested before it sealed is the digest of its layout ever after |
| SealProtocol.StepRefines | crates/hsm-local/src/executor.rs:41-73 | every single operation is one atomic begin, chunk, end or commit, or none |
| SealProtocol.RunRefines | crates/hsm-local/src/executor.rs:41-73 | so every interleaving is a run of the atomic protocol |
| SealProtocol.CoarseCopyIsSystemStep | crates/hsm-local/src/executor.rs:27-73 | the atomic begin, chunk and end are what the system's copy actions do to the disk |
| SealProtocol.CoarseCommitIsArchiveCommit | crates/hsm-local/src/archive.rs:211-243 | the atomic commit is what the archive's commit does to it |
| SealProtocol.CoarseCommitIsRecallCommit | crates/hsm-local/src/storage.rs:618-640 | and what commit_recall does to it |
| Adapter.RepliesConform | crates/hsm-curvine/src/lib.rs:182-355 | at any moment of any run, every success of a step call, first or replayed, passes the adapter's checks of request and reply |
| Adapter.AcceptedIsTheLocalReply | crates/hsm-curvine/src/lib.rs:182-355 | whatever a storage replies, a reply that passes the checks agrees with the one the local storage gives at that moment of the run in everything but new names, revisions and further anchors |
| Adapter.AcceptedStatesServe | crates/hsm-curvine/src/lib.rs:358-391 | with a state that passes the engine never meets an unusable anchor: a release has one to verify exactly unless the state is Online, a recall one to locate exactly if it is Offline and anchored under the key |
| Adapter.AcceptedOutcomesServe | crates/hsm-curvine/src/lib.rs:117-160 | and with an outcome that passes: after a release a recall has an anchor to locate, after an archive or recall there is nothing to recall and a release has an anchor to verify |
| Adapter.OutcomesConform | crates/hsm-curvine/src/lib.rs:117-160 | every outcome reported by completed passes them |
| Adapter.InspectionsConform | crates/hsm-curvine/src/lib.rs:358-391 | inspect answers Ok exactly at a healthy handle for a known entity, and then with its recorded state, which passes validate_state and is the entity asked for |
| Answers.InspectIsTheRecord | crates/hsm-local/src/storage.rs:423-432 | at a healthy moment inspect answers the durable record of every known entity, in all three residencies, and NotFound for exactly the other keys |
| Answers.ImportedIsObserved | crates/hsm-local/src/storage.rs:423-432 | at every healthy moment after a successful import inspect of its key is Ok, with the imported content, the revision its completed operations give, the residency its layout shows, and anchors whose payload the archive holds |
| Answers.ObservedWasImported | crates/hsm-local/src/storage.rs:423-432 | a key that is not NotFound belongs to this storage and was imported earlier in the run |
| Answers.ImportDecides | crates/hsm-local/src/storage.rs:293-348 | a clean import succeeds for exactly the nonempty IDs that are free and is Conflict for exactly those taken |
| Answers.ReadDecides | crates/hsm-local/src/storage.rs:352-367 | a clean read gives the content of every entity that is not Offline, Conflict for exactly the Offline ones and NotFound for exactly the unknown keys |
| Answers.CompletedIsTheRecord | crates/hsm-local/src/storage.rs:402-421 | completed answers the recorded state to exactly the operation that completed with it, None exactly while the ID is unused, Conflict to any other use |
| Answers.OutcomeIsAnswered | crates/hsm-local/src/storage.rs:402-421 | once a workflow has ended Ok with a state, completed answers its operation with that state at every later healthy moment of the run |
| Answers.FailedWritesSilence | crates/hsm-local/src/storage.rs:224-230 | an action on a healthy handle poisons it if and only if its write of state.json fails where a fault-free run would have written, and then its caller gets an error; no refusal and no other I/O failure does |
| Answers.SilentUntilReopened | crates/hsm-local/src/storage.rs:205-230 | if a call, import or collection that would have changed the metadata meets a failed write of state.json, its caller gets an error, the handle is not healthy, and it answers every call and question with an error and changes nothing, at every later moment until a reopen |
| Intents.DoneMeansEffected | crates/hsm-engine/src/lib.rs:13-70 | whatever was claimed, lost, taken over and run again, an executor reports Done only if the source's durable metadata has the operation completed, and an intent that is Done shows the completed state |
| Intents.OnlyTheClaimHolderReports | crates/hsm-core/src/lifecycle.rs:223-239 | only the one executor whose claim is current can change an intent |
| Intents.OutcomesAreKept | crates/hsm-core/src/lifecycle.rs:223-239 | however many executors run it, the recorded outcome of an intent never changes |
| Intents.EffectsAreOnce | crates/hsm-engine/src/lib.rs:13-70 | between any two moments of any fleet run an entity's revision rises by exactly the number of operations newly completed on it, it is unchanged if there are none, and an operation completed before is never among them |
| Intents.CompletionIsOnce | crates/hsm-local/src/storage.rs:143-167 | at most one move of a run makes an operation completed |
| Intents.LapsedLeaseReportsIntoTheVoid | crates/hsm-core/src/lifecycle.rs:223-239 | once a lease's claim is no longer the intent's current one, its report changes no intent, at any later moment |
| Intents.RefusedIntentIsNeverDone | crates/hsm-engine/src/lib.rs:49-55 | once a step that an intent's action needs is saved as a failure under its context, the intent is never Done and no executor ever reports it Done |
| Intents.ErrorsDecide | crates/hsm-engine/src/lib.rs:49-55 | an error met by the outcome query, the observation or the workflow puts the intent back for every controller to claim if it is Unknown, Io or Busy; any other error fails it, and no controller can claim it at any later moment |
| Intents.SuccessDecides | crates/hsm-engine/src/lib.rs:24-48 | a success met is accepted at every healthy moment: the intent is Done for good, with the state its operation completed with |
| Intents.ChangeSupersedes | crates/hsm-engine/src/lib.rs:33-37 | an observation that differs from the expected one supersedes the intent for good |
| Intents.WorkIsWanted | crates/hsm-engine/src/lib.rs:33-47 | a workflow starts only on a fresh observation equal to the expected one, with the lease's context, data and action |
| Retries.IntentIsDone | crates/hsm-engine/src/lib.rs:13-70 | a workflow that succeeds when run alone is carried by any executor from claim to Done, and nothing else of the fleet changes |
| Retries.CutOffIsFinished | crates/hsm-engine/src/lib.rs:49-55 | an archive intent whose execution an I/O error cuts off is Ready again, and whoever claims it next makes it Done |
| Retries.RetryIsReachable | crates/hsm-engine/src/lib.rs:13-70 | a fleet run from an empty system and one admitted intent through import, cut-off execution and second claim to Done |
| Intents.MoveKeepsInv | crates/hsm-engine/src/lib.rs:13-70 | every claim, check, workflow step, report and crash keeps the fleet's invariant |
| LocalStorage.Storage.Step | crates/hsm-local/src/storage.rs:232-289 | the transaction on a working copy, persist, then swap is exactly the specified call |
| LocalStorage.Storage.Persist | crates/hsm-local/src/storage.rs:224-230 | a failed write poisons the handle and leaves the remembered state |
| LocalStorage.Storage.Import | crates/hsm-local/src/storage.rs:293-348 | is exactly the specified import, its digest computed by reading the bytes in pieces |
| LocalStorage.Storage.Read | crates/hsm-local/src/storage.rs:352-367 | is the specified read |
| LocalStorage.Storage.CollectGarbage | crates/hsm-local/src/storage.rs:371-389 | the loop removes the queue in order and stops at the first failure, as specified |
| LocalStorage.Draft.CommitArchive | crates/hsm-local/src/storage.rs:463-517 | the effect changes the working copy in place exactly as specified, also where finish refuses it |
| LocalStorage.Draft.Release | crates/hsm-local/src/storage.rs:519-557 | the same of release |
| LocalStorage.Draft.PrepareRecall | crates/hsm-local/src/storage.rs:559-602 | the same of prepare_recall |
| LocalStorage.Draft.CommitRecall | crates/hsm-local/src/storage.rs:604-657 | the same of commit_recall, with its digest, sync and seal |
| LocalArchive.Archive.Lookup | crates/hsm-local/src/archive.rs:97-120 | is the specified lookup, verification and sync included |
| LocalArchive.Archive.Prepare | crates/hsm-local/src/archive.rs:149-185 | is the specified prepare |
| LocalArchive.Archive.Commit | crates/hsm-local/src/archive.rs:187-245 | is the specified commit |
| LocalArchive.Archive.ResumeCommit | crates/hsm-local/src/archive.rs:124-140 | is the specified resume of a sealed attempt |
| LocalArchive.Archive.Open | crates/hsm-local/src/archive.rs:247-256 | is the specified open |
| Files.DigestFile | crates/hsm-local/src/util.rs:106-126 | reading in bounded pieces of any size measures the whole file |
| Files.DigestIsInjective | crates/hsm-local/src/util.rs:106-126 | equal digests mean equal bytes |
| Files.DecodeInvertsEndpoint | crates/hsm-local/src/util.rs:17-36 | a capability decodes to a directory exactly if it is the one made for it |
| Workflows.DataMover.Copy | crates/hsm-local/src/executor.rs:27-73 | locks, fence, transfer, read-back in order, as specified |
| Workflows.CopyIsHonest | crates/hsm-local/src/executor.rs:27-73 | a copy touches only an unsealed destination's bytes, reports what the destination holds, and that is the source's content if the transfer did its duty |
| Workflows.HsmEngine.Archive | crates/hsm-engine/src/lib.rs:97-139 | the method makes exactly the calls and decisions of the program-counter machine run alone |
| Workflows.HsmEngine.Release | crates/hsm-engine/src/lib.rs:142-189 | the same of release |
| Workflows.HsmEngine.FindVerified | crates/hsm-engine/src/lib.rs:160-188 | the same of its loop over the anchors |
| Workflows.HsmEngine.Recall | crates/hsm-engine/src/lib.rs:192-243 | the same of recall |
| Workflows.SoloStepIsMachineStep | crates/hsm-engine/src/lib.rs:97-243 | one such call is one step of the machine that the cluster interleaves |
| Workflows.CopyIsMachineSteps | crates/hsm-local/src/executor.rs:27-73 | and a copy is its begin, its chunks and its end |
| Worker.ExecuteReady | crates/hsm-curvine/src/bin/hsm-curvine.rs:535-622 | the tasks run are, in order, those of the pages read that the source's claim contract grants this controller, for this backend (the key's own, or the policy's for a release) and this lane; all of them, of a listing read page after page to its end, unless the budget or an error stops the pass; it fails exactly on a failed request, a run that is neither ended nor Busy nor Conflict, or a task of the other lane |
| Worker.EligibleIsClaimable | crates/hsm-curvine/src/bin/hsm-curvine.rs:575-582 | a task is eligible if and only if the source grants a claim, at the worker's epoch, of an intent with its status and claim |
| Worker.LanesSplit | crates/hsm-curvine/src/lifecycle.rs:24-33 | every action is accepted by exactly one lane, recalls by the recall lane; a worker without a lane accepts all |
| Worker.ChecksGrant | crates/hsm-curvine/src/bin/hsm-curvine.rs:555-582 | the worker's three checks hold of exactly the tasks that lane, backend and claim contract give it |
| Worker.Cycle | crates/hsm-curvine/src/bin/hsm-curvine.rs:451-533 | executed is at most max_actions, failed and retried are among it, admitted is the sum of the scans' admissions; a cycle that succeeds has read every policy page, sealed all data pending or found, scanned every enabled policy of the backend to its end or its budget, and with budget left has listed the ready tasks before, after each pending seal and after the scans and run everything granted |
| Worker.BudgetHolds | crates/hsm-curvine/src/bin/hsm-curvine.rs:500-518 | if no scan examines more than it asked for, no policy exceeds its scan budget |
| Worker.CountsNest | crates/hsm-curvine/src/bin/hsm-curvine.rs:597-611 | failed plus retried runs never outnumber executed ones |

## Left out

- u64 widths: lengths, revisions, generations and epochs are unbounded; overflow would need 2^64 operations.
- Error messages: only the class of an error decides anything, so HsmError carries none.
- BLAKE3 and `key()`: the digest is a concrete injective function of the bytes, step keys are the values they hash; collisions are not modelled.
- JSON, real paths, permissions and UUID generation: capabilities are decoded values, UUIDs come fresh from the environment; unreadable or tampered metadata is not modelled.
- Managed.Capability: a capability of the adapter can be malformed, undecodable or point elsewhere, but only managed layouts exist on the modelled disk.
- External tampering with layouts, receipts or payloads: the roots are dedicated, as the adapters require.
- Files.NewLayout: a directory left behind by a failed creation is not tracked; nothing ever names it.
- Files.TransferLock: the lock file itself is not a file of the model; inside an atomic storage or archive call a racing copy sees either no lock or, as an I/O error, the call's; the class of that refusal (Busy in the code) decides nothing in the executor.
- System.Possible: a restart may forget any attempt file, also a synced one; the archive theorems hold all the same, and recovery needs none.
- SealProtocol leaves out collection, which the system model covers as one step under the lock. Removing a directory may delete the lock file before the payload, so that a racing mover locks a new file in a directory that is going away; such a layout is named by no metadata any more, so nothing that is proved depends on its bytes.
- RecallWindow.JammedForever: no re-run of the operation succeeds in its own turns; a second execution of it that had reached its publish step before the seal showed can still publish, as a direct `commit_recall` can.
- ArchiveRecovery.HistoryStands: a history of turns is one workflow's own; what other clients do before a re-run is covered by Resumption, from a moment at which no copy runs, not during the re-run itself.
- Adapter tags and capability formats: the reply checks compare Curvine's own tags, which the local adapters do not use.
- Curvine RPC, native control, workers and chunk streaming: remote services whose behaviour is not in the repository.
- Workflows.Transfer: connecting to a backend cannot fail on its own (the code reports that as Invalid); the inside of the data transfer is arbitrary writes to the destination; only CopyIsHonest and the re-run theorems assume that a transfer that reports success has left the source's bytes.
- Intents.FleetNext: claim_intent and finish_intent are their documented contracts, not Curvine's implementation; a takeover keeps the effect context, since the local storage accepts epoch 1 only.
- Intents: a lease whose effect another executor has meanwhile completed is reported Superseded if completion falls between the check and the observation, as in the code; the model does not call that Done.
- Worker: `gc_batch`, the test-only pause and the printing of reports; policies are scanned in any order, the code's is by ID.
- LifecyclePolicy::validate, CurvineCapabilities::validate, remote_error: single-branch facts.
- LocalArchive::open and lock_root: the owner lock, the backend ID file and root creation; one owner and a nonempty ID are taken as given.
- Policy selection, watermarks, candidate index, replication, CLI, demo binary and tooling.
