# Verified model of the agent runtime

A durable agent runtime keeps everything that happens in an append-only event log and builds the rest
on a handful of small concurrent engines. This project models those engines in Dafny and proves what
they promise, for every input, every run and every interleaving.

Asynchronous code is modelled as atomic steps between two awaits: a state is a value, an action is one
stretch of synchronous code, and a run is any list of actions, so every interleaving is a run. Where the
source is an object whose methods update its fields, a class stands beside that model and each of its
methods is proved to be exactly one action of it; where the source loops, so does the method.

| files | what they model |
|---|---|
| `ScopeTree`, `ScopeInvariants`, `ScopeTheorems`, `ScopeProgress`, `ScopeRuntime` | the tree of runtime scopes: admissions, services, registrations and the asynchronous recursive dispose |
| `AgentBehavior`, `ScopedAgentBehavior` | the registry of tools and event handlers as a client of a scope |
| `CodeMode`, `CodeModeProofs`, `CodeModeBridge` | the bounded dispatch bridge between a guest program and the host |
| `EventLog`, `AdmissionQueue`, `EventStore` | the event store, the promise-tail queue in front of it, and their interleavings |
| `EffectGeneration` | workspace effect generations: the scan of the log and the terminal batch of an operation |
| `PayloadPath`, `ReasoningBatch` | dotted paths into payloads, and reasoning batches whose symbolic references are resolved to predicted ids |
| `ProviderRegistry` | the revisioned registry of dynamic capability providers |
| `PublicProtocol`, `PublicStream`, `PublicSnapshots`, `Subscriptions` | the public projection of a session: stream, reducer, snapshots, recovery and delivery |
| `ForegroundExecution` | the commands that start, promote, cancel and complete executions |
| `JsonText`, `CanonicalPrinter` | JSON text and the canonical printer |
| `Appendix`, `AppendixItems` | canonical JSON for the context appendix, containment of its marker characters, and the rendered items |
| `ContextHistory`, `ContextCompiler`, `ContextRun` | the budgeted context compiler |
| `LspFraming`, `LspClient` | the Language Server Protocol base framing and the client's request table |
| `JsonGraph` | JSON validation over an object graph |
| `RevisionTracker` | workspace revision tokens and the queries that rely on them |
| `Ordering`, `Wrappers` | code-unit order, optional values and results |

## What the proofs bring out

- `registerTool` and `onEvent` list their entry before the scope may refuse the registration; an entry is listed
  without a live registration exactly if the scope was not open when it came, and then it stays listed in every
  later state though its body is never run (`AgentBehavior.RefusedEntryStaysListed`).
- A settlement that fails because its evidence payload is refused may have advanced the effect generation already
  (`EffectGeneration.FailedSettlementMayAdvance`).
- A flush delivers to the bucket of subscribers that it found before its await. One who comes after that bucket was
  emptied and replaced gets nothing from it (`Subscriptions.FlushMissesNewcomer`), and an unsubscribe closure that is
  called again at such a time drops another subscriber's bucket for ever (`SecondCallLosesAnother`). Calling closures
  at most once is enough, and the exact conditions are in `FlushLevels`, `FlushReachesNewcomer` and `ListedIffNeverStale`.
- Provider and revision are joined by a NUL character. A generation that has ended never returns, but if a
  provider id contains NUL a different pair can be refused as retired, and the key of a live generation can
  be in the retired set. The lemmas say exactly when (`RefusedAsRetiredIff`, `LiveKeyRetiredIff`,
  `CollidingKeys`); ids without NUL are enough to exclude it.
- Recovery reads the log twice. The "gap" answer cannot occur all the same, and a resume may already hold
  events newer than the snapshot that was read first (`RecoveryAnswers`, `RecoveryCompletes`).
- A session event clears the active execution of the snapshot even while one runs, and then a second one can
  start beside it (`StoppedSessionRunsTwo`); at most one stays unfinished exactly if none is when the event comes
  (`SingleIffQuiet`).
- The cause "recovery" is never given: an interrupted operation already counts as caused by a capability.
- The reason "not_selected" is never counted in the excluded summary of a graph delivery.
- Containment escapes the brackets of JSON arrays as well, so contained text is not JSON; it is still
  injective, and it parses back after the escapes are undone.
- Overlapping rebaselines share one flag, so the start of the second forgets a change that the first one's
  fingerprint missed (`OverlappingBaselinesMissAChange`); the baseline stays clean exactly if no rebaseline is in
  flight when another begins (`CleanIffNoneFlying`). Tokens are never reused even so.
- On payload objects that are shared, setting a path is visible wherever the object is; on unshared ones it is
  the same as setting the path in the value (`InPlaceRefinesValue`).

## Model

| member | source | states |
|---|---|---|
| ScopeTheorems.DownwardClosed | packages/agent-core/src/runtime-scope.ts:268-275 | in every reachable state "not open" and "closed" are downward closed: what lies below a closing scope is not open, what lies below a closed one is closed |
| ScopeTheorems.ClosedIsQuiet | packages/agent-core/src/runtime-scope.ts:310-336 | a closed scope and everything below it is closed and every admission there has been released |
| ScopeTheorems.OwnStateDecides | packages/agent-core/src/runtime-scope.ts:283-291 | walking all ancestors accepts exactly the scopes whose own state is open |
| ScopeTheorems.NothingAddedBelow | packages/agent-core/src/runtime-scope.ts:218-266 | register, provide, child and admit at or below a disposing scope change nothing |
| ScopeTheorems.ClosedForever | packages/agent-core/src/runtime-scope.ts:262-266 | in every later state of every run a closed scope is closed and holds no admission |
| ScopeTheorems.ExactlyOnce | packages/agent-core/src/runtime-scope.ts:153-160 | no disposer starts twice, and once its scope is closed it has started once and settled, early disposals included |
| ScopeTheorems.ReverseRegistrationOrder | packages/agent-core/src/runtime-scope.ts:326-333 | the disposers that a scope runs itself start in reverse order of registration |
| ScopeTheorems.StartsWhenQuiet | packages/agent-core/src/runtime-scope.ts:320-329 | a scope starts a disposer only when every descendant is closed and every admission at or below it is released |
| ScopeTheorems.RejectsIff | packages/agent-core/src/runtime-scope.ts:327-339 | a closed scope's dispose rejects exactly if one of its disposers threw or an awaited child rejected, and it reports each of its own failures |
| ScopeTheorems.FailureReachesDisposer | packages/agent-core/src/runtime-scope.ts:312-318 | a disposer that throws anywhere in the part of the subtree that was not closed makes the outermost dispose reject |
| ScopeProgress.SomeoneCanMove | packages/agent-core/src/runtime-scope.ts:293-304 | while a scope is closing some step of its subtree is ready: no lost wake-up, no deadlock |
| ScopeProgress.BoundedWork | packages/agent-core/src/runtime-scope.ts:310-340 | in any interleaving a disposing subtree takes at most `Measure` steps of its own, a measure over unreleased admissions, unrun disposers and unclosed scopes |
| ScopeProgress.ReachesClosed | packages/agent-core/src/runtime-scope.ts:310-340 | from every state with a dispose in progress there are at most `Measure` steps that close the scope |
| ScopeProgress.MeasureStep | packages/agent-core/src/runtime-scope.ts:293-340 | every step of the subtree lowers the measure and no other step raises it |
| ScopeInvariants.InvApply | packages/agent-core/src/runtime-scope.ts:189-341 | every step of any interleaving keeps the whole invariant: tree links, admission counters, registration lists, service bindings, disposer history, reported errors |
| ScopeRuntime.ScopeRuntime.AssertHierarchyOpen | packages/agent-core/src/runtime-scope.ts:283-291 | the loop over the parents answers what the recursive reading of the tree says |
| ScopeRuntime.ScopeRuntime.Resolve | packages/agent-core/src/runtime-scope.ts:241-253 | the loop returns the binding of the nearest scope that has one, or the error of the first scope that is not open |
| ScopeRuntime.ScopeRuntime.Register | packages/agent-core/src/runtime-scope.ts:218-221 | registers in an open hierarchy, otherwise throws and changes nothing |
| ScopeRuntime.ScopeRuntime.Provide | packages/agent-core/src/runtime-scope.ts:223-239 | binds the token with a registration that removes it, or throws on a closed hierarchy or a taken token and changes nothing |
| ScopeRuntime.ScopeRuntime.Child | packages/agent-core/src/runtime-scope.ts:255-260 | adds one open child to an open hierarchy |
| ScopeRuntime.ScopeRuntime.Admit | packages/agent-core/src/runtime-scope.ts:262-266 | adds one unreleased admission to an open hierarchy |
| ScopeRuntime.ScopeRuntime.Release | packages/agent-core/src/runtime-scope.ts:182-186 | a second release does nothing; the last one wakes a waiting disposal |
| ScopeRuntime.ScopeRuntime.Dispose | packages/agent-core/src/runtime-scope.ts:268-275 | one call flips every open scope of the subtree before it returns |
| ScopeRuntime.ScopeRuntime.DisposeFrom | packages/agent-core/src/runtime-scope.ts:310-318 | the synchronous recursion into the children flips exactly the open scopes at or below its argument |
| ScopeRuntime.ScopeRuntime.DisposeRegistration | packages/agent-core/src/runtime-scope.ts:153-160 | only the first call starts the disposer |
| ScopeRuntime.ScopeRuntime.OnChildSettled | packages/agent-core/src/runtime-scope.ts:312-318 | a child's rejection is kept among the errors |
| ScopeRuntime.ScopeRuntime.OnQuiet | packages/agent-core/src/runtime-scope.ts:320-326 | the registrations are taken in reverse once children and admissions are gone |
| ScopeRuntime.ScopeRuntime.OnDisposerAwaited | packages/agent-core/src/runtime-scope.ts:327-333 | an error of an awaited disposer is kept and the walk goes on |
| ScopeRuntime.ScopeRuntime.FinishDispose | packages/agent-core/src/runtime-scope.ts:334-339 | clears the lists, closes, detaches from the parent, and rejects exactly if there are errors |
| AgentBehavior.NoBodyAfterDispose | packages/agent-core/src/agent-behavior.ts:69-82 | once the scope's dispose has resolved no tool or handler body runs, now or in any later state, whatever is called |
| AgentBehavior.BodyStartsLive | packages/agent-core/src/agent-behavior.ts:118-129 | a body starts only for an entry whose registration with the scope is live, and never in a closed scope |
| AgentBehavior.ToolsAreLive | packages/agent-core/src/agent-behavior.ts:113-138 | `getTools` throws exactly if the scope is not open, and otherwise returns exactly the tools whose registration is live |
| AgentBehavior.RefusedEntryStaysListed | packages/agent-core/src/agent-behavior.ts:84-111 | in every later state of every run an entry is listed without a live registration exactly if the scope was not open when it was added; such an entry stays listed and its body is never run, as a tool or as a handler |
| ScopedAgentBehavior.ScopedAgentBehavior.Contribute | packages/agent-core/src/agent-behavior.ts:84-105 | lists the entry, then registers its disposer, for tools and handlers |
| ScopedAgentBehavior.ScopedAgentBehavior.BeginToolCall | packages/agent-core/src/agent-behavior.ts:69-78 | runs the body only of an active entry and only under an admission |
| ScopedAgentBehavior.ScopedAgentBehavior.GetTools | packages/agent-core/src/agent-behavior.ts:113-138 | asserts that the scope is open, takes and returns an admission, and lists the live tools |
| ScopedAgentBehavior.ScopedAgentBehavior.BeginEmit | packages/agent-core/src/agent-behavior.ts:118-121 | takes the snapshot of active handlers under an admission |
| ScopedAgentBehavior.ScopedAgentBehavior.NextHandler | packages/agent-core/src/agent-behavior.ts:122-125 | skips a handler disposed meanwhile, runs an active one, or leaves the loop and releases |
| ScopedAgentBehavior.ScopedAgentBehavior.BodySettles | packages/agent-core/src/agent-behavior.ts:126-128 | a throw or the last return releases the admission |
| ScopedAgentBehavior.ScopedAgentBehavior.RunDisposer | packages/agent-core/src/agent-behavior.ts:86-90 | deactivates and splices out exactly the disposed entry |
| CodeModeProofs.Bounded | packages/code-mode/src/runtime.ts:315-328 | active dispatches are the calls in flight, never more than the concurrency limit, and the host sees at most the call limit |
| CodeModeProofs.WorkConserving | packages/code-mode/src/runtime.ts:254-261 | no slot is idle while an accepted call waits, so the drain loop of a success does not spin |
| CodeModeProofs.SettlesOnce | packages/code-mode/src/runtime.ts:223-283 | the outer promise settles at most once |
| CodeModeProofs.ResolvesWhenAnswered | packages/code-mode/src/runtime.ts:251-277 | it resolves only after every accepted call was dispatched and answered and the worker has stopped |
| CodeModeProofs.RejectsWhenSettled | packages/code-mode/src/runtime.ts:223-235 | it rejects only after every call that reached the host has settled and the worker has stopped |
| CodeModeProofs.NothingIssuedAfterFinish | packages/code-mode/src/runtime.ts:315-317 | once finished, no run reaches the host again |
| CodeModeProofs.RepliesConserved | packages/code-mode/src/runtime.ts:151-355 | every dispatch message is replied to exactly once, was answered after the worker had exited, is still waiting for its host answer, or was dropped by a failure; nothing is answered too late before the bridge is finished |
| CodeModeProofs.ProgressLowers | packages/code-mode/src/runtime.ts:185-187 | each turn of a settlement lowers the measure |
| CodeModeProofs.SomeTurnReady | packages/code-mode/src/runtime.ts:254-266 | while a settlement is under way some such turn is ready |
| CodeModeProofs.Settles | packages/code-mode/src/runtime.ts:223-283 | a settlement that has begun can be delivered within `Measure` turns, the concurrency limit being positive |
| CodeModeProofs.BoundedTurns | packages/code-mode/src/runtime.ts:223-283 | in any interleaving a settlement takes at most as many turns as its measure says, and two more for a failure that comes in between and for each repeated report of the worker |
| CodeModeProofs.SettlesInAnyOrder | packages/code-mode/src/runtime.ts:223-283 | whatever happens in between, the promise is settled by the time that many turns have run, and until then some turn is ready |
| CodeModeBridge.CodeModeBridge.Pump | packages/code-mode/src/runtime.ts:315-328 | the loop issues waiting calls in order until a limit, an empty queue or a closed bridge |
| CodeModeBridge.CodeModeBridge.OnDispatch | packages/code-mode/src/runtime.ts:330-355 | counts, screens in the source's order, queues and pumps, or posts the refusal |
| CodeModeBridge.CodeModeBridge.FailExternal | packages/code-mode/src/runtime.ts:223-235 | the first failure closes the bridge, drops the queue and drains what was issued |
| CodeModeBridge.CodeModeBridge.SettleFromWorker | packages/code-mode/src/runtime.ts:237-262 | a success closes admission and starts the drain loop; a failure goes to the failure path |
| CodeModeBridge.CodeModeBridge.SettleResume | packages/code-mode/src/runtime.ts:254-261 | one turn of the drain loop |
| CodeModeBridge.CodeModeBridge.OnGracefulStop | packages/code-mode/src/runtime.ts:264-282 | delivers the checked result or its error |
| CodeModeBridge.CodeModeBridge.OnFinally | packages/code-mode/src/runtime.ts:322-326 | frees the slot of a settled call and pumps |
| CodeModeBridge.CodeModeBridge.OnExit | packages/code-mode/src/runtime.ts:374-379 | after the worker's exit nothing is posted, and an exit before the settlement is a failure |
| CodeModeBridge.CodeModeBridge.DrainIssuedCalls | packages/code-mode/src/runtime.ts:185-187 | rejects once nothing is in flight |
| EventLog.AppendKeeps | packages/events/src/in-memory-store.ts:21-77 | appending keeps row i at sequence i+1 and both indexes in agreement with the rows, and only extends the log |
| EventLog.Idempotent | packages/events/src/in-memory-store.ts:33-48 | appending a batch again, after anything else was appended, adds no row |
| EventLog.FreshAppend | packages/events/src/in-memory-store.ts:50-69 | a fresh batch is appended whole with consecutive sequences from the head |
| EventLog.GuardIffFresh | packages/host-runtime/src/admission-queue.ts:142-148 | the "interleaved" guard of an uninterrupted append passes exactly on batches of drafts not taken before |
| EventStore.InMemoryEventStore.Append | packages/events/src/in-memory-store.ts:21-77 | the loop appends, deduplicates on id and key, and throws at an unsafe payload, as the recursive reading says |
| EventStore.InMemoryEventStore.Replay | packages/events/src/in-memory-store.ts:79-90 | a replay that nothing interrupts yields the contiguous stretch of rows in range, in order |
| EventStore.ReplayGenerator.Next | packages/events/src/in-memory-store.ts:79-90 | each request of the generator yields the next row in range of the log as it is then |
| EventStore.ReplayFollowsTheLog | packages/events/src/in-memory-store.ts:79-90 | however the log grows between the requests, a replay yields exactly the stretch in range of the log on which it ends |
| EventStore.ReplayIsExact | packages/events/src/in-memory-store.ts:79-90 | that stretch is exactly the rows above the lower and up to the upper sequence |
| EventStore.InMemoryEventStore.HeadSequence | packages/events/src/in-memory-store.ts:92-94 | the head is the number of rows and no sequence is above it |
| EventStore.InMemoryEventStore.Get | packages/events/src/in-memory-store.ts:96-100 | finds the row with that id exactly if there is one |
| EventStore.CanonicalAdmissionQueue.Enqueue | packages/host-runtime/src/admission-queue.ts:77-81 | chains the work to the current tail and becomes the tail |
| EventStore.CanonicalAdmissionQueue.Start | packages/host-runtime/src/admission-queue.ts:77-81 | a work starts when the promise it is chained to has settled either way |
| EventStore.CanonicalAdmissionQueue.Resume | packages/events/src/in-memory-store.ts:50-69 | after the awaited digest the row whose sequence was chosen before is pushed |
| AdmissionQueue.OneAtATime | packages/host-runtime/src/admission-queue.ts:77-81 | in every interleaving works run one at a time and in call order |
| AdmissionQueue.RejectionDoesNotBlock | packages/host-runtime/src/admission-queue.ts:77-81 | after a rejected work the next can start |
| AdmissionQueue.AllEnd | packages/host-runtime/src/admission-queue.ts:77-81 | all enqueued works come to an end |
| AdmissionQueue.Linearizable | packages/host-runtime/src/admission-queue.ts:77-85 | interleaved works have the results and leave the log of running them whole, one after the other, in call order |
| AdmissionQueue.LogStaysWellFormed | packages/events/src/in-memory-store.ts:21-77 | in every reachable state, batches half appended included, row i has sequence i+1 and the indexes agree |
| AdmissionQueue.PredictionHolds | packages/host-runtime/src/admission-queue.ts:106-150 | a work that reads the head and appends a fresh batch gets exactly the sequences it predicted |
| AdmissionQueue.WithoutQueueSequencesCollide | packages/events/src/in-memory-store.ts:50-69 | two appends that bypass the queue spoil any well-formed log exactly if both push a row, and then both choose the same sequence |
| EffectGeneration.DurableWorkspaceEffectGeneration | packages/host-runtime/src/capability-broker.ts:222-242 | the scan accepts exactly the continuous logs and returns the number of advances |
| EffectGeneration.AdvanceIn | packages/host-runtime/src/capability-broker.ts:244-250 | an operation has an advance event exactly if it is among the advances of the log |
| EffectGeneration.EffectsStayContinuous | packages/host-runtime/src/capability-broker.ts:881-897 | in every interleaving of ordinary works the log is continuous: generations are consecutive from 1 and no operation advances twice |
| EffectGeneration.SettlementPredictsRight | packages/host-runtime/src/capability-broker.ts:806-897 | a settlement fails exactly at the integer limit or on a payload that is not canonical; otherwise its guard passes, its evidence id embeds the evidence row's sequence, and it advances exactly if it wrote, succeeded and had not advanced |
| EffectGeneration.FailedSettlementMayAdvance | packages/host-runtime/src/capability-broker.ts:806-897 | a settlement that fails on a payload has advanced the generation all the same exactly if the refused payload comes after the advance event |
| PayloadPath.PartsOfJoin | packages/host-runtime/src/admission-queue.ts:54-56 | every list of non-empty dotless parts is the splitting of some path |
| PayloadPath.GetSet | packages/host-runtime/src/admission-queue.ts:54-70 | the value set at a path is read back at that path |
| PayloadPath.GetOther | packages/host-runtime/src/admission-queue.ts:54-70 | a path that is neither a prefix nor an extension of the one set reads as before |
| PayloadPath.StopRest | packages/host-runtime/src/admission-queue.ts:58-68 | the walk stops at the first part that leads to no object, with the end of the path to go |
| PayloadPath.SetPath | packages/host-runtime/src/admission-queue.ts:54-70 | the in-place loop changes one field of one existing object and hangs a chain of new objects below it; an empty path throws and changes nothing |
| PayloadPath.InPlaceRefinesValue | packages/host-runtime/src/admission-queue.ts:54-70 | on a payload whose objects are not shared the loop does what setting the path in the value does, and leaves it unshared |
| ReasoningBatch.Resolve | packages/host-runtime/src/admission-queue.ts:111-130 | the resolution loops throw exactly on batches that do not resolve and otherwise make every write in order |
| ReasoningBatch.ResolveRef | packages/host-runtime/src/admission-queue.ts:118-125 | one reference resolves exactly if its definition, kind and targets exist |
| ReasoningBatch.BatchOutcome | packages/host-runtime/src/admission-queue.ts:106-151 | a batch fails exactly if it does not resolve or resolves to a payload that is not canonical; otherwise it is appended whole and the guard passes |
| ReasoningBatch.ReferencesNameTheirEvents | packages/host-runtime/src/admission-queue.ts:118-130 | every reference that no later one overwrites holds the id with the sequence the log gave its defining intent |
| ReasoningBatch.OnlyReferencesChange | packages/host-runtime/src/admission-queue.ts:126-130 | a payload changes only along the referenced paths |
| ProviderRegistry.RegisterMeans | packages/host-runtime/src/capability-broker.ts:409-418 | a registration drops what was bound to the provider, adds what was staged, and touches nothing else |
| ProviderRegistry.UnregisterMeans | packages/host-runtime/src/capability-broker.ts:421-432 | a disposer removes exactly what its own generation binds |
| ProviderRegistry.TablesAgree | packages/host-runtime/src/capability-broker.ts:366-433 | in every reachable registry the name table and the provider table describe the same bindings |
| ProviderRegistry.EndedNeverReturns | packages/host-runtime/src/capability-broker.ts:392-397 | a generation that has ended is never live again in any continuation |
| ProviderRegistry.DisposerTouchesOnlyItsGeneration | packages/host-runtime/src/capability-broker.ts:420-432 | an old disposer changes no table, and a second call of any disposer does nothing |
| ProviderRegistry.RefusedAsRetiredIff | packages/host-runtime/src/capability-broker.ts:393-395 | a registration is refused as retired exactly if a generation with the same key has ended |
| ProviderRegistry.RefusedOnlyIfEnded | packages/host-runtime/src/capability-broker.ts:343-345 | with provider ids without NUL that is exactly the same pair |
| ProviderRegistry.LiveKeyRetiredIff | packages/host-runtime/src/capability-broker.ts:415-431 | the key of a live generation is in the retired set exactly if another provider's generation with the same key has ended |
| ProviderRegistry.CollidingKeys | packages/host-runtime/src/capability-broker.ts:343-345 | a concrete run in which a live generation's key is retired although the generation has not ended |
| ProviderRegistry.StaticsStay | packages/host-runtime/src/capability-broker.ts:383-386 | no run adds, removes or replaces a static capability |
| ProviderRegistry.EntryIsCurrent | packages/host-runtime/src/capability-broker.ts:497-509 | a call that names a revision is admitted at entry only to a live generation of that revision |
| ProviderRegistry.CapabilityBroker.New | packages/host-runtime/src/capability-broker.ts:376-387 | builds the static table, and throws exactly on a repeated name |
| ProviderRegistry.CapabilityBroker.StageAll | packages/host-runtime/src/capability-broker.ts:399-408 | the staging loop reports the first offending capability and changes nothing |
| ProviderRegistry.CapabilityBroker.DeleteBound | packages/host-runtime/src/capability-broker.ts:411-414 | the loop deletes exactly the listed names still bound to the generation |
| ProviderRegistry.CapabilityBroker.RegisterDynamicProvider | packages/host-runtime/src/capability-broker.ts:389-433 | a failed registration leaves every table as it was; a successful one returns a disposer of the new generation |
| ProviderRegistry.Disposer.Dispose | packages/host-runtime/src/capability-broker.ts:420-432 | only the first call, and only on its live generation, changes the tables |
| PublicProtocol.ReducesIffChained | packages/application-protocol/src/reducer.ts:43-56 | the reducer accepts a list of events exactly if it is a chain from the snapshot's cursor, and ends at the chain's last cursor |
| PublicProtocol.ReduceConcat | packages/application-protocol/src/reducer.ts:118-123 | folding two stretches one after the other is folding both at once |
| PublicProtocol.ReduceKeeps | packages/application-protocol/src/reducer.ts:58-115 | ids stay unique, the queue stays in order of position and id, only pending interactions stay listed, and an active execution is the last unfinished one |
| PublicProtocol.SortQueueSorts | packages/application-protocol/src/reducer.ts:18-20 | the sorted queue is a permutation in order of position and id |
| PublicProtocol.LookupUpsert | packages/application-protocol/src/reducer.ts:10-16 | an upsert changes what one id looks up and nothing else |
| PublicProtocol.UpsertDistinct | packages/application-protocol/src/reducer.ts:10-16 | an upsert keeps ids unique |
| PublicProtocol.ChainIncreases | packages/host-runtime/src/application-service.ts:622-634 | cursors strictly increase along a chain |
| PublicStream.GetPublicEvents | packages/host-runtime/src/application-service.ts:614-764 | the loop over the local maps and the public cursor gives the stream of the recursive reading |
| PublicStream.StreamChained | packages/host-runtime/src/application-service.ts:622-634 | each public event continues the one before it, from cursor 0 |
| PublicStream.StreamGrows | packages/host-runtime/src/application-service.ts:614-764 | a longer log only extends the stream |
| PublicStream.SessionOrdered | packages/host-runtime/src/application-service.ts:615-615 | the events of one session are in strictly increasing sequence |
| PublicSnapshots.SnapshotExists | packages/host-runtime/src/application-service.ts:183-196 | the reducer never throws on the stream, and the snapshot stands at its last cursor |
| PublicSnapshots.SnapshotMeaning | packages/host-runtime/src/application-service.ts:636-764 | a snapshot holds the executions, operations and pending interactions of the server's maps, the transcript and queue the log tells, and as active execution the last unfinished one unless a session event came later |
| PublicSnapshots.ResumeIsFold | packages/host-runtime/src/application-service.ts:183-233 | resuming at any point of the stream gives the full fold |
| PublicSnapshots.RecoveryAnswers | packages/host-runtime/src/application-service.ts:202-233 | a cursor unknown to the first read is stale, any other is resumed with exactly the rest of the stream or is too far behind; "gap" is never answered, although the log is read twice |
| PublicSnapshots.RecoveryCompletes | packages/host-runtime/src/application-service.ts:202-233 | a client at a valid cursor that folds the resumed events ends with the server's snapshot |
| Subscriptions.ContiguousDelivery | packages/host-runtime/src/application-service.ts:235-258 | under every interleaving of appends, subscriptions, repeated unsubscribe calls and overlapping flushes of all sessions a subscriber receives one contiguous stretch of its session's stream that begins right after its cursor |
| Subscriptions.DeliveryCatchesUp | packages/host-runtime/src/application-service.ts:250-257 | a flush brings a subscriber with a valid cursor to the end of what it read and leaves any other alone |
| Subscriptions.FlushLevels | packages/host-runtime/src/application-service.ts:246-258 | a flush that read the current stream levels a subscriber with a valid cursor exactly if it is still a member of the bucket that the flush found before its await, or was level already |
| Subscriptions.FlushReachesEarlier | packages/host-runtime/src/application-service.ts:246-258 | whatever happens during a flush, it levels a subscriber that was there before exactly if the table listed that subscriber's own bucket when the flush began |
| Subscriptions.FlushReachesConnected | packages/host-runtime/src/application-service.ts:246-258 | so with no subscriber lost from the table a flush levels everyone who was connected when it began |
| Subscriptions.FlushReachesNewcomer | packages/host-runtime/src/application-service.ts:235-250 | one who subscribes during a flush is levelled exactly if the table still lists the bucket that the flush found |
| Subscriptions.FlushMissesNewcomer | packages/host-runtime/src/application-service.ts:246-258 | a concrete run in which the only subscriber leaves during a flush, another comes, and the flush delivers nothing to it |
| Subscriptions.ConnectedUntilCalled | packages/host-runtime/src/application-service.ts:240-243 | a subscriber is a member of its bucket until its closure is first called and never again; calls of other closures leave it there |
| Subscriptions.ListedIffNeverStale | packages/host-runtime/src/application-service.ts:240-243 | over every run every connected subscriber stays where the next flush finds it exactly if no closure is called while its own bucket is empty and the session has another one |
| Subscriptions.OnceIsEnough | packages/host-runtime/src/application-service.ts:240-243 | calling each closure at most once is enough for that |
| Subscriptions.LostForEver | packages/host-runtime/src/application-service.ts:246-250 | a subscriber that neither the table nor a flush under way leads to receives nothing ever after |
| Subscriptions.SecondCallLosesAnother | packages/host-runtime/src/application-service.ts:240-243 | a concrete run in which the second call of a closure takes another subscriber's bucket out of the table for ever |
| Subscriptions.Subscription.Deliver | packages/host-runtime/src/application-service.ts:251-256 | the loop with its break hands out the pending events that continue the cursor |
| Subscriptions.Subscribers.Subscribe | packages/host-runtime/src/application-service.ts:235-239 | joins the bucket that the table lists for the session, or a new one that it lists |
| Subscriptions.Subscribers.Unsubscribe | packages/host-runtime/src/application-service.ts:240-243 | removes that subscriber from its own bucket and, when that is empty, whatever the table lists for the session |
| Subscriptions.Subscribers.BeginFlush | packages/host-runtime/src/application-service.ts:246-249 | returns at once without a bucket, otherwise holds on to the one the table lists |
| Subscriptions.Subscribers.Fetch | packages/host-runtime/src/application-service.ts:249-249 | reads the session's public stream as it is then |
| Subscriptions.Subscribers.Deliver | packages/host-runtime/src/application-service.ts:250-257 | every member of the bucket held gets the same events, each from its own cursor, and no one else does |
| ForegroundExecution.ActiveIsUnfinished | packages/host-runtime/src/application-service.ts:260-264 | the snapshot's active execution is the unfinished one |
| ForegroundExecution.StepKeeps | packages/host-runtime/src/application-service.ts:361-523 | each step of a start, promotion, cancellation, refusal or completion keeps at most one execution unfinished |
| ForegroundExecution.OneForegroundExecution | packages/host-runtime/src/application-service.ts:177-181 | over every interleaving of serial commands and concurrent completions at most one execution is unfinished, provided session events come only while none is |
| ForegroundExecution.SessionEventLetsTwoRun | packages/host-runtime/src/application-service.ts:637-644 | after a session event that the log takes, a start is accepted beside whatever is unfinished |
| ForegroundExecution.SingleIffQuiet | packages/host-runtime/src/application-service.ts:637-644 | when a session event is due, every otherwise calm continuation keeps at most one execution unfinished exactly if none is unfinished now or the event is a repeated one |
| ForegroundExecution.StoppedSessionRunsTwo | packages/host-runtime/src/application-service.ts:637-644 | a concrete run of a new session that is stopped while one execution runs and ends with two unfinished |
| JsonText.StringRoundTrip | packages/events/src/serialize.ts:133-163 | a quoted string reads back |
| JsonText.RoundTrip | packages/events/src/serialize.ts:86-128 | a parser recovers every printed value and what follows it |
| JsonText.PrintIsPrefixFree | packages/events/src/serialize.ts:86-128 | what follows a delimiter cannot make one printed value look like another |
| JsonText.PrintPrintable | packages/events/src/serialize.ts:145-163 | printed text holds no control character |
| CanonicalPrinter.SortKeeps | packages/events/src/serialize.ts:111-113 | sorting keys leaves the same map, in strictly increasing code-unit order |
| CanonicalPrinter.ReadsBack | packages/events/src/serialize.ts:79-128 | the canonical text parses to a value of the same meaning with its keys in order |
| CanonicalPrinter.SameTextIffSameMeaning | packages/events/src/serialize.ts:67-84 | two values have the same text exactly if they are equal up to key order |
| CanonicalPrinter.CanonicalIsPrefixFree | packages/events/src/serialize.ts:79-84 | no canonical text followed by a delimiter begins another |
| CanonicalPrinter.CanonicalPrintable | packages/events/src/serialize.ts:79-84 | canonical text is one line of printable characters |
| CanonicalPrinter.AssertCanonical | packages/events/src/serialize.ts:28-65 | the validation walk fails exactly if an unsafe leaf occurs anywhere |
| CanonicalPrinter.QuoteString | packages/events/src/serialize.ts:145-163 | the loop quotes every code unit as section 7 of RFC 8259 asks |
| CanonicalPrinter.Emit | packages/events/src/serialize.ts:86-128 | the chunks pushed are together exactly the canonical text |
| CanonicalPrinter.EmitItems | packages/events/src/serialize.ts:101-108 | the array loop with its commas |
| CanonicalPrinter.EmitFields | packages/events/src/serialize.ts:111-122 | the object loop over the sorted keys |
| CanonicalPrinter.CanonicalStringify | packages/events/src/serialize.ts:79-84 | throws exactly on unsafe values, otherwise gives the canonical text |
| Appendix.EnumerateOrder | packages/context/src/canonical.ts:3-16 | index-like keys are listed first in numeric order, the others in the order they were added |
| Appendix.SameJsonIffSameMeaning | packages/context/src/canonical.ts:14-16 | two values have the same canonical JSON exactly if they are equal up to key order |
| Appendix.ContainedClean | packages/context/src/canonical.ts:27-32 | contained text holds no bracket, no angle and no control character |
| Appendix.UncontainContain | packages/context/src/canonical.ts:27-32 | containment loses nothing on texts whose backslashes all start escapes of their own |
| Appendix.ContainedReadsBack | packages/context/src/canonical.ts:27-32 | a contained value is one line without markers and parses back to the value |
| Appendix.ContainedInjective | packages/context/src/canonical.ts:27-32 | contained texts are equal exactly for values equal up to key order |
| AppendixItems.ReadsItem | packages/context/src/compiler.ts:181-188 | one rendered item reads back: id, family, trust, required flag and value |
| AppendixItems.AppendixReadsBack | packages/context/src/compiler.ts:181-188 | the rendered appendix parses back to exactly its candidates, in order |
| ContextHistory.SelectTranscriptLoop | packages/context/src/compiler.ts:35-53 | the loops give the required part and the older turns, newest first |
| ContextHistory.RequiredPart | packages/context/src/compiler.ts:42-44 | the required part is everything from the second-to-last user message on, or from the only one |
| ContextHistory.WholeTurnsInOrder | packages/context/src/compiler.ts:46-52 | any history made of whole turns before the required part is a subsequence of the conversation that ends with it |
| ContextHistory.GraphHistoryCharsLoop | packages/context/src/compiler.ts:195-205 | the backwards loop leaves out exactly the last user message |
| ContextHistory.ChargeGrows | packages/context/src/compiler.ts:190-205 | leaving messages out never costs more characters |
| ContextCompiler.SortRankedSorts | packages/context/src/compiler.ts:416-417 | candidates are a permutation in order of priority and id |
| ContextCompiler.PicksWell | packages/context/src/compiler.ts:437-447 | each optional candidate is selected, or excluded and still too long beside everything selected; the bound holds after every turn of the loop |
| ContextCompiler.TakesWell | packages/context/src/compiler.ts:449-457 | the kept history is made of whole turns, grows only, and stays within the bound |
| ContextCompiler.SkippedTurnsMisfit | packages/context/src/compiler.ts:450-457 | a turn that was passed over does not fit in front of the final history either |
| ContextCompiler.TakesAllThatFits | packages/context/src/compiler.ts:449-457 | the kept history is the required part with older whole turns before it, and each of the others is too long to go in front of it |
| ContextCompiler.CompileDelivers | packages/context/src/compiler.ts:395-500 | either the verbatim history with the first reason that applies, or a delivery within the bound with every required candidate, whole turns in order, and no candidate and no turn left out that would still fit; `render_bound_violation` does not occur and the clamp does not clamp |
| ContextRun.SelectGreedily | packages/context/src/compiler.ts:436-457 | the candidate loop and the turn loop compute the greedy selection |
| ContextRun.CompileGraphContext | packages/context/src/compiler.ts:395-500 | the whole compilation computes the specified delivery |
| ContextRun.BuildExcludedSummary | packages/context/src/compiler.ts:243-269 | the counters of transcript, reasoning and memory |
| ContextRun.ReasonsAddUp | packages/context/src/compiler.ts:260-267 | the reasons of a family add up to its excluded count |
| ContextRun.GraphSummary | packages/context/src/compiler.ts:264-266 | in a graph delivery everything left out is counted as "budget", never as "not_selected" |
| ContextRun.ExcludedCounts | packages/context/src/compiler.ts:260-268 | without repeated ids the excluded candidates are the candidates less the selected ids |
| LspFraming.HeaderReadsBack | packages/code-intelligence/src/lsp-jsonrpc.ts:55-72 | the header that `send` writes is read back as the body's length |
| LspFraming.DrainMore | packages/code-intelligence/src/lsp-jsonrpc.ts:61-79 | a run of the loop that did not throw can be stopped and continued with more bytes; one that threw throws in the same place whatever follows |
| LspFraming.ChunkingIsInvisible | packages/code-intelligence/src/lsp-jsonrpc.ts:61-79 | however the bytes are cut, the same bodies come out in order and the decoder throws in the same place if at all; without a throw the same state is left, after one only the bytes still to come are missing |
| LspFraming.DrainFrame | packages/code-intelligence/src/lsp-jsonrpc.ts:55-79 | one framed body is handed out whole, length zero included |
| LspFraming.FramesSurviveChunking | packages/code-intelligence/src/lsp-jsonrpc.ts:55-79 | any framed bodies in any chunks are handed out exactly, in order, and the buffer ends empty |
| LspClient.ClientHandlesFrames | packages/code-intelligence/src/lsp-jsonrpc.ts:18-24 | the client dispatches exactly those bodies |
| LspClient.SettledOnce | packages/code-intelligence/src/lsp-jsonrpc.ts:31-46 | over every run each request id is settled at most once and for good, every id given out is pending or settled, and an abort listener is attached exactly to the pending requests that came with a signal |
| LspClient.AbortCancelsIffPending | packages/code-intelligence/src/lsp-jsonrpc.ts:34-43 | an abort settles its request and sends a cancellation exactly if the request came with a signal and is pending |
| LspClient.LspJsonRpcClient.Request | packages/code-intelligence/src/lsp-jsonrpc.ts:31-46 | takes the next id and attaches the listener of a live signal; an already aborted request is cancelled without being sent |
| LspClient.LspJsonRpcClient.OnAbort | packages/code-intelligence/src/lsp-jsonrpc.ts:34-38 | the listener, if it is still attached, settles the request and sends the cancellation without looking at the table |
| LspClient.LspJsonRpcClient.Dispatch | packages/code-intelligence/src/lsp-jsonrpc.ts:81-94 | a reply settles the pending request with its id and no other; a server request is answered |
| LspClient.LspJsonRpcClient.FailAll | packages/code-intelligence/src/lsp-jsonrpc.ts:96-99 | rejects everything pending |
| LspClient.LspJsonRpcClient.NextBody | packages/code-intelligence/src/lsp-jsonrpc.ts:63-76 | one turn of the loop takes one complete body off the buffer |
| LspClient.LspJsonRpcClient.AcceptLoop | packages/code-intelligence/src/lsp-jsonrpc.ts:61-79 | the loop terminates on every input and dispatches what is complete |
| LspClient.LspJsonRpcClient.OnData | packages/code-intelligence/src/lsp-jsonrpc.ts:18-22 | a throw rejects all that is pending |
| JsonGraph.CanonicalJsonValueInner | packages/agent-protocol/src/program-revision-v1.ts:82-117 | the walk terminates on every graph, leaves the shared set as it found it, and answers what its recursive reading says |
| JsonGraph.AcceptedIff | packages/agent-protocol/src/program-revision-v1.ts:74-119 | a value is accepted exactly if everything reachable is legal and no reachable object contains itself |
| JsonGraph.RefusedHasWalk | packages/agent-protocol/src/program-revision-v1.ts:94-113 | every refusal has a walk that ends at an illegal value or closes a cycle |
| JsonGraph.SharedIsAccepted | packages/agent-protocol/src/program-revision-v1.ts:95-117 | a new array is accepted exactly if each of its items is, whatever objects the items share and however often one is listed |
| RevisionTracker.TokenNeverReturns | packages/code-intelligence/src/tracker.ts:70-109 | a token that was current and has been left is never current again, overlapping rebaselines included |
| RevisionTracker.CurrentIffUndisturbed | packages/code-intelligence/src/service.ts:30-50 | a synchronized query reports `current` exactly if no tracked change, host mutation, lost continuity, close or rebaseline came between its snapshots |
| RevisionTracker.BaselineIsClean | packages/code-intelligence/src/tracker.ts:90-104 | with one rebaseline at a time a fingerprint becomes the baseline only if no tracked change was seen while it was computed |
| RevisionTracker.CleanIffNoneFlying | packages/code-intelligence/src/tracker.ts:86-109 | after a call of `rebaseline` the baseline stays clean in every continuation with one rebaseline at a time exactly if none was in flight when it came, or it never got to a fingerprint |
| RevisionTracker.OverlappingBaselinesMissAChange | packages/code-intelligence/src/tracker.ts:86-109 | a concrete run with two overlapping rebaselines in which a fingerprint that missed a change becomes the baseline |
| RevisionTracker.WorkspaceRevisionTracker.SnapshotNow | packages/code-intelligence/src/tracker.ts:47-53 | a revision is reported exactly while the tracker is healthy |
| RevisionTracker.WorkspaceRevisionTracker.MarkHostMutation | packages/code-intelligence/src/tracker.ts:70-77 | advances the generation when healthy, notes the change during a rebaseline |
| RevisionTracker.WorkspaceRevisionTracker.OnWatchEvent | packages/code-intelligence/src/tracker.ts:122-128 | the same for watched paths; ignored ones change nothing |
| RevisionTracker.WorkspaceRevisionTracker.MarkUncertain | packages/code-intelligence/src/tracker.ts:79-84 | leaves the healthy state under a fresh epoch |
| RevisionTracker.WorkspaceRevisionTracker.CloseTracker | packages/code-intelligence/src/tracker.ts:111-118 | stops watching and leaves the healthy state under a fresh epoch |
| RevisionTracker.WorkspaceRevisionTracker.BeginRebaseline | packages/code-intelligence/src/tracker.ts:86-91 | a rebaseline up to its first await or its throw |
| RevisionTracker.WorkspaceRevisionTracker.FingerprintArrives | packages/code-intelligence/src/tracker.ts:92-109 | throws after lost continuity, tries again after a change up to the limit, otherwise installs a fresh healthy token |

## Left out

- Objects as references: scopes, registrations, admissions, queue works and calls are entries of an arena and are named by their index, in order of creation; identity is the index.
- Re-entrance: abort listeners, change listeners and subscribers' listeners are taken not to call back into the object that notifies them, and subscribers' listeners not to throw.
- AgentBehavior.NoBodyAfterDispose: a body that goes on working after its promise has settled is not seen; only the time up to the settlement is.
- Code Mode's worker, timers, byte limits on text and the shape of error messages: the worker's messages, the wall-clock limit and the abort signal are actions that may come at any time, and size checks are parameters of a message.
- Fresh ids and times: a minted id is a value that occurs nowhere else, and times are uninterpreted texts.
- Digests: SHA-256 is not part of this model; the store's append keeps the await that the digest causes.
- The durable SQLite store, projections, packages `storage`, `memory` and `program`: the store is the in-memory one, which follows the same contract.
- EffectGeneration.SettlementPredictsRight: covers the ordinary settlement; `settleProgramMutation` belongs to the program authority, which is not part of this model. Of the terminal payloads only what the log's own checks read and whether they are canonical is kept, and of the evidence id only the sequence; the payloads of the completed and the advance event, which hold strings, booleans and safe integers, are taken to be canonical.
- Approval, policy, hooks and provenance checks of `execute`: one branch each, and the capability revision is checked only at entry.
- ReasoningBatch.Resolve: works on payloads as values, so a nested object that two intents of one batch share, or that the caller goes on using, is not seen to change; a path part that names an inherited property of objects is not modelled either. Event ids are kept as their three components.
- PayloadPath.InPlaceRefinesValue: for payloads without shared objects; for shared ones `PayloadPath.SetPath` says which one field of one object changes.
- The coercion of payload fields (missing strings read as empty, missing options as absent, a queue position that is not a number): the fields of a domain event are the values after coercion, and positions are integers.
- PublicSnapshots.RecoveryAnswers: a host without a program port; with one, recovery always answers with a snapshot.
- ForegroundExecution.OneForegroundExecution: asks that session events come only while no execution is unfinished, which `ForegroundExecution.SingleIffQuiet` shows to be exactly what is needed; commands are reduced to what they read and append about executions, and queue order beyond position and id is not claimed.
- CanonicalPrinter.AssertCanonical: values are trees. The comment at `packages/events/src/serialize.ts:26` promises to reject circular references; the code does not look for them and recurses until the stack overflows, which is not part of this model.
- Subscriptions.ContiguousDelivery: the log of all sessions is one list of events, and buckets and subscribers are named by their index in order of creation.
- Locale comparison: queue items, candidates and keys are ordered by code units.
- Lone surrogates and negative zero: numbers are the texts the engine prints for them, `canonicalJson` quotes every code unit as the event printer does, and a field named `__proto__` is an ordinary field.
- Values that `canonicalJson` drops or turns into null (undefined fields, NaN, functions): the appendix is about JSON values.
- How candidates are derived: reasoning frontier, memory selection, diagnostics and digests of receipts; the compiler's input is the list of candidates with their priorities.
- The arithmetic of delivered characters and estimated tokens in the receipt: one expression each.
- LspFraming.FramesSurviveChunking: a length beyond the safe integers is read exactly, and what `JSON.parse` accepts is a parameter; after a throw the rest of the buffer waits for the next chunk, as in the source.
- Process supervision, streams, notification handlers and the language server itself: only the bytes and the request table are modelled.
- JsonGraph.AcceptedIff: getters and proxies that throw, and graphs so deep that the engine's stack overflows, are refused by the source's catch and are not part of this model.
- RevisionTracker.BaselineIsClean: speaks of changes that have been seen; a change whose watch event arrives only after the fingerprint advances the generation afterwards. Epochs are taken to be fresh.
- RevisionTracker.WorkspaceRevisionTracker.BeginRebaseline: what the fingerprint covers (limits, ignored names, symbolic links) is not modelled; a fingerprint is an uninterpreted number.
