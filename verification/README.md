# Botster hub: a verified model of its maintenance core

The hub daemon runs one owner loop that keeps a projection of all sessions and
delivers it to plugins, routes package events to them, stores their records,
fires their timers, supervises their processes and disposes of their payloads.
This project models the parts of that core with the most state and proves what
they promise over every run.

- **Session family bridge** (`SessionFamily`, `Family*`, `Maintenance`). Journal
  changes and baseline pages build a projection; each subscribed plugin receives
  a snapshot (begin, chunks read live from the projection, end) and then deltas,
  one frame in flight at a time. `SessionFamily` gives every slice and pass of
  the owner loop as a function of its state; `FamilyBridge` and
  `MaintenanceState` are the same code as classes with the daemon's fields and
  loops, each method proved to compute its function. `FamilyReplica`,
  `FamilyIndex`, `FamilySafety`, `FamilyPasses` and `FamilySteps` prove that
  every step keeps one invariant, `FamilyRun` extends it to all runs and
  `FamilyTheorems` draws the conclusions: replicas converge, the stream grammar
  and its fence hold, all indexes are exact, no wake is lost, a cancelled
  completion stays inert. `MaintenanceState.Valid` is that invariant as a class
  invariant, so the same conclusions hold of any state object its methods keep
  valid. `FamilyChunks` is about packing, `FamilyBaseline` about recovering from
  the core's frozen snapshots, `FamilyStray` about a page that comes too late.
  Who gets a turn: `FamilyBudget` bounds one turn, `FamilyWait` bounds the wait
  for an offer, `FamilySchedule`, `FamilyStarvation`, `FamilyDelivery`,
  `FamilyFourPlugins` and `FamilyRound` say exactly when any frame can be sent.
- **First-snapshot gate** (`SpawnGate`), **package event delivery**
  (`EventDelivery`), **plugin store** (`PluginStore`, `PluginNamespace`),
  **timers and event queues** (`CapabilityTimers`), the **stable sampler**
  (`StableSampler`), the **entrypoint supervisor** (`EntrypointSupervisor`) and
  **terminal disposal** (`HostDisposal`), each as a state machine with its run
  theorems and a class that computes its steps.

`dafny verify dfyconfig.toml` checks everything.

## How the outside is modelled

- Plugin keys, session ids, timer ids and store keys are integers: the code only
  compares them. JSON values carry the byte lengths the limits are about.
- The clock of an owner turn is `fuel`, the number of clock reads that still find
  the turn in time; the safety theorems hold for all of them. Other clocks, the plugin
  engine's answers, the router's lock, the causal queue, the database, the kernel
  and the file system are inputs of the step that meets them.
- The plugin engine's release epoch only grows. A run may release it at any point.
- Classes carry history in ghost fields: the frames a consumer was sent, the
  copies settled, the leases released.

## Where the code does not keep what one would expect

- **Starvation of the host bridge.** Every turn refreshes a page of the handler
  registry and, when the round ends, prunes consumers from the first one again;
  both spend the eight visits of the turn, and admission is skipped when they are
  spent. With V registry entries, C subscribed plugins and
  r = ((V - 1) mod 8) + 1 entries on the last page, some run over that registry
  sends a frame if and only if C > 0 and r + C < 8
  (`FamilyDelivery.SomeRunSendsIff`); otherwise no run does, whatever steps
  interleave (`FamilyStarvation.CrowdedRunsNeverSend`). Four subscribed plugins
  are enough: a run reaches a state in which all four are ready and none is ever
  served (`FamilyFourPlugins.FourPluginsStarve`).
- **Stale baseline page.** Starting a recovery over does not withdraw the page
  already requested. There are three cases, each with its exact condition. Read
  once the new recovery is open, the page is taken for its first: the sealed rows
  are the frozen rows if and only if no frozen row lies at or before the stale
  cursor (`FamilyBaseline.StalePageSealsTheFreezeIff`). Read incomplete while the
  gap pass is pending, its rows stay: the recovery seals the frozen rows if and
  only if every session of the page is still frozen
  (`FamilyBaseline.StrayPageSealsTheFreezeIff`). Read complete while the gap pass
  is pending (a stray seal), it breaks the invariant every time, and nothing else
  does (`FamilyRun.StepKeepsInvariant`, `FamilyRun.CodeRunKeepsInvariantIff`);
  `FamilyStray.StraySealDiverges` is a run in which a consumer then diverges.
- **Answered spawn held forever.** Answered spawns are retired only after an apply
  slice, a seal or a gate check, by the rows of that moment. A spawn stays awaited
  if and only if none of these moments finds it projected
  (`SpawnGate.StillAwaitedIff`); for one slice this means that the last change
  naming it removes it, or none names it and it has no row
  (`SpawnGate.SliceLeavesAwaitedIff`). A session that comes and goes within one
  slice keeps the first-snapshot gate shut (`SpawnGate.GoneInOneSliceShutsGate`).
- **Stopped is not final when exited.** A process stopped by a cleanup timeout
  whose exit is then seen while its output is open is Stopped with an exit time
  and becomes Exited later
  (`EntrypointSupervisor.StoppedAndExitedCanStillChange`); the exact condition is
  `EntrypointSupervisor.StoppedIsFinalIff`.
- **A refused cancel still cancels, and a refused completion is lost.** A cancel
  removes the timer before it checks the owner or the queue
  (`CapabilityTimers.HubCapabilityRuntime.CancelTimer`), and a completion leaves
  its channel before its queue is checked
  (`CapabilityTimers.DrainCompletionsMeaning`).
- **A set can succeed where its batch fails.** In a namespace that already holds
  more keys than allowed a single set may replace a record while the batch of it
  fails (`PluginStore.OverfullSetDisagrees`), and nowhere else
  (`PluginStore.SetAgreesWithBatchIff`); no state reached under one limit is like
  that (`PluginStore.ReachableSetAgreesWithBatch`).

## Model

| member | source | states |
|---|---|---|
| FamilyTheorems.ReplicasConverge | src/daemon_maintenance.rs:2369-2479 | In every run, what a consumer outside a gap was sent, followed by what it is still owed (queue, chunks read live, end, held deltas, fanout jobs that have not passed it), folds to exactly the projection's rows, provided the rows of the chunks it is still owed each fit a chunk |
| FamilyTheorems.SettledReplicaIsExact | src/daemon_maintenance.rs:332-337 | In every run, an ungapped consumer that is complete with nothing queued, held, in flight or in the fanout holds exactly the projection's rows |
| FamilyTheorems.NoConsumerForgotten | src/daemon_maintenance.rs:2190-2220 | In every run, once the projection is sealed, unfaulted and no snapshot start is pending, no consumer is gapped |
| FamilyTheorems.GrammarNeverBroken | src/daemon_maintenance.rs:1496-1604 | In every run the stream of each consumer obeys Begin Chunk* End Delta* between gaps with at most one frame in flight |
| FamilyTheorems.DeltaOnlyAfterDeliveredEnd | src/daemon_maintenance.rs:2107-2134 | In every run a delta is sent only after an end frame was delivered successfully, with only deltas in between |
| FamilyTheorems.OffersFollowFinishedPasses | src/daemon_maintenance.rs:1470-1492 | A turn that offers a frame has finished its own gap and snapshot-start passes |
| FamilyTheorems.IndexesAlwaysExact | src/daemon_maintenance.rs:372-416 | In every run ready is admittable minus parked, parked lies within admittable, the busy count counts the busy consumers, the flight map inverts the consumers' flights, the fanout bytes are the queue's sum, and all queues are within bounds |
| FamilyTheorems.WorkIsAlwaysMarked | src/daemon_maintenance.rs:1603-1610 | In every run the HostBridge wake bit is set while any consumer is ready or any fanout, gap or start work is pending |
| FamilyTheorems.NoLostWake | src/daemon_maintenance.rs:855-871 | In every run, if the engine released after the epoch read before a parked consumer's refusal, the next signal check empties the parked set into ready and marks HostBridge |
| FamilyTheorems.ChunksRebuildRows | src/daemon_maintenance.rs:2440-2479 | Reading chunk after chunk behind a row cursor and folding them over any replica adds exactly the rows behind the cursor |
| FamilyTheorems.CancelledCompletionIsInert | src/daemon_maintenance.rs:2107-2113 | In every run of the code, a request that was in flight and no longer is, landed or cancelled by a gap or a prune, is in no later flight map, and its completion changes nothing, however late and after however many new requests |
| FamilyTheorems.StrayPageBreaksOrderIff | src/daemon_maintenance.rs:1413-1462 | A page of an earlier recovery read while a gap pass is pending keeps the order of passes, and the whole invariant, if and only if it is not complete |
| FamilyStray.StraySealDiverges | src/daemon_maintenance.rs:1361-1407 | A run of the code from the initial state with exactly one such complete page, after which a consumer outside a gap, with everything it is owed, does not hold the projected rows |
| FamilyRun.StepKeepsInvariant | src/daemon_maintenance.rs:1128-1160 | Every step the loop can take (journal pull, apply, asking for, reading or losing a baseline page, recovery, cursor rewind, bridge turn, completion, engine release, signal check) keeps the whole invariant if and only if it is not a stray seal: a complete page of an earlier recovery read under a pending gap pass |
| FamilyRun.CodeRunKeepsInvariantIff | src/daemon_maintenance.rs:1128-1160 | In every run of the code the invariant holds in all states up to any point if and only if no stray seal happened before it |
| FamilyRun.RunKeepsInvariant | src/daemon_maintenance.rs:1128-1160 | So the invariant holds in every state of every run from the initial state without stray seals |
| FamilyRun.BridgePassesSafe | src/daemon_maintenance.rs:1470-1489 | The refresh, gap, start, fanout and prune passes keep the invariant, and a turn with budget left has finished its gap and start passes |
| FamilySteps.AdmitNextSafe | src/daemon_maintenance.rs:1496-1604 | Offering a frame keeps the invariant whether the engine queues it, refuses it or rejects it |
| FamilySteps.ApplyBaselineSafe | src/daemon_maintenance.rs:1413-1462 | A baseline result, read while a recovery is open or its gap pass is pending, keeps the invariant if and only if it is not a complete page under a pending gap pass |
| FamilySteps.ProjectionApplySafe | src/daemon_maintenance.rs:1338-1359 | Applying up to sixteen journal changes keeps every consumer's stream and debt equal to the projection |
| FamilySteps.CompleteSuccessSafe | src/daemon_maintenance.rs:2107-2134 | A successful completion keeps the invariant; an end frame moves the held deltas behind the queued ones |
| FamilySteps.CompleteFailureSafe | src/daemon_maintenance.rs:2128-2132 | A failed completion keeps the invariant through the gap and the recovery it starts |
| FamilyPasses.GapPassSafe | src/daemon_maintenance.rs:2153-2188 | A page of the gap pass keeps the invariant, and a finished pass has gapped every consumer |
| FamilyPasses.StartPassSafe | src/daemon_maintenance.rs:2190-2220 | A page of the start pass keeps the invariant, and a finished pass has restarted every consumer |
| FamilyPasses.FanoutPassSafe | src/daemon_maintenance.rs:2222-2241 | Fanout keeps the invariant over any number of jobs, pages and overflowing queues |
| FamilyPasses.PrunePassSafe | src/daemon_maintenance.rs:2300-2348 | Pruning keeps the invariant and the indexes |
| FamilyPasses.RefreshPassSafe | src/daemon_maintenance.rs:2248-2298 | Registering consumers, with a first snapshot when the projection is sealed, keeps the invariant |
| FamilySafety.OfferDeltaSafe | src/daemon_maintenance.rs:2521-2560 | One consumer's turn at a fanout job moves the delta from the job's debt into its queue, or restarts it from the live projection |
| FamilySafety.MarkGapSafe | src/daemon_maintenance.rs:397-416 | Gapping a consumer keeps the table's invariant |
| FamilySafety.BeginSnapshotSafe | src/daemon_maintenance.rs:418-434 | Beginning a snapshot leaves the consumer owed exactly the projection |
| FamilyReplica.OutlookFollowsChange | src/daemon_maintenance.rs:1338-1359 | A change applied to the projection and owed to a consumer keeps its outlook equal to the projection |
| FamilyReplica.OutlookOfBegun | src/daemon_maintenance.rs:418-434 | A consumer just begun, followed by absorbed fanout jobs, converges to the projection |
| FamilyReplica.OutlookOfQueued | src/daemon_maintenance.rs:464-487 | Queueing or holding the next owed delta leaves the outlook as it was |
| FamilyReplica.OutlookOfAdmitted | src/daemon_maintenance.rs:2397-2427 | Committing the peeked frame moves it from what is owed to what was sent and leaves the outlook as it was |
| FamilyReplica.OutlookOfLanded | src/daemon_maintenance.rs:2114-2127 | Landing an end frame moves held deltas into the queue and changes no outlook |
| FamilyReplica.ChunkSplitsRows | src/daemon_maintenance.rs:2440-2479 | A chunk carries exactly the rows up to its last id, leaving the rows behind it |
| FamilyBridge.HostBridgeBudget.constructor | src/daemon_maintenance.rs:261-267 | A new budget has spent nothing |
| FamilyBudget.TurnStaysWithinBudget | src/daemon_maintenance.rs:261-293 | Whatever is pending and whatever the engine answers, one owner turn charges at most eight visits and at most its byte limit, admission included |
| FamilyIndex.TouchBusy | src/daemon_maintenance.rs:372-378 | After a consumer is replaced the busy count is still the number of busy consumers |
| FamilyPasses.RemoveConsumerSafe | src/daemon_maintenance.rs:559-563 | Removing a consumer keeps the indexes and the invariant of all others |
| FamilyBridge.ConsumerTable.TouchConsumer | src/daemon_maintenance.rs:489-500 | Replaces a consumer and brings the busy count and ready set up to date |
| FamilyBridge.ConsumerTable.Park | src/daemon_maintenance.rs:519-523 | Parks a consumer, keeping the oldest epoch seen |
| FamilyBridge.ConsumerTable.Unpark | src/daemon_maintenance.rs:525-532 | Unparks a consumer, forgetting the epoch when it was the last |
| FamilyBridge.ConsumerTable.UnparkAll | src/daemon_maintenance.rs:536-542 | The loop over the parked keys equals the closed form: nobody parked, every admittable one of them ready |
| FamilyBridge.ConsumerTable.MarkGap | src/daemon_maintenance.rs:397-416 | Forgets the flight, unparks and gaps the consumer |
| FamilyBridge.ConsumerTable.BeginSnapshot | src/daemon_maintenance.rs:418-434 | Unparks the consumer and starts its snapshot |
| FamilyBridge.ConsumerTable.QueueDelta | src/daemon_maintenance.rs:464-487 | Queues or holds a delta within both limits, skips a gapped consumer, and reports a full queue |
| FamilyBridge.ConsumerTable.GapConsumers | src/daemon_maintenance.rs:2169-2176 | The gapping loop over a page stops where the budget does |
| FamilyBridge.ConsumerTable.StartConsumers | src/daemon_maintenance.rs:2205-2212 | The starting loop over a page stops where the budget does |
| FamilyBridge.ConsumerTable.OfferDelta | src/daemon_maintenance.rs:2540-2553 | Queues a delta, or gaps the consumer and restarts it from a sealed projection |
| FamilyBridge.ConsumerTable.FanoutConsumers | src/daemon_maintenance.rs:2533-2556 | The fanout loop over a page stops where the visits or the bytes do |
| FamilyBridge.ConsumerTable.DropConsumers | src/daemon_maintenance.rs:2328-2341 | Dropping departed consumers one by one keeps the busy count and the flight map in step |
| FamilyBridge.ConsumerTable.RegisterPlugins | src/daemon_maintenance.rs:2265-2289 | The registration loop over the handlers of a page, and the set of plugins it saw |
| FamilyBridge.ConsumerTable.CommitPayload | src/daemon_maintenance.rs:2397-2427 | Takes the peeked frame off the consumer |
| FamilyBridge.ConsumerTable.LaunchFrame | src/daemon_maintenance.rs:1568-1583 | Commits the frame and records its flight in both indexes |
| FamilyBridge.ConsumerTable.LandFlight | src/daemon_maintenance.rs:2107-2127 | Ends a flight; a successful end frame of the current snapshot completes it |
| FamilyBridge.SessionFamilyBridge.PeekPayload | src/daemon_maintenance.rs:2369-2395 | The frame a consumer would send next, or why it has none |
| FamilyBridge.SessionFamilyBridge.DepartedConsumers | src/daemon_maintenance.rs:2318-2327 | Which consumers of a page the last refresh round did not see |
| FamilyBridge.SessionFamilyBridge.IssueRequest | src/daemon_maintenance.rs:600-606 | A fresh request under the next serial |
| Maintenance.MaintenanceState.constructor | src/daemon_maintenance.rs:611-632 | The initial state of the maintenance loop, which is valid: Safe, with the wake bit set over any work |
| Maintenance.MaintenanceState.SettledConsumerIsExact | src/daemon_maintenance.rs:332-337 | Of any valid state object: a settled consumer was sent exactly the projected rows |
| Maintenance.MaintenanceState.ReplicaConverges | src/daemon_maintenance.rs:2369-2479 | Of any valid state object: what a consumer outside a gap was sent, followed by what it is owed, folds to the projected rows |
| Maintenance.MaintenanceState.QueueJournalChanges | src/daemon_maintenance.rs:1303-1303 | Appends the changes of a journal page and keeps the state valid |
| Maintenance.MaintenanceState.OfferFrame | src/daemon_maintenance.rs:1527-1604 | Refines offering one frame under a fresh request, for each answer of the engine |
| Maintenance.MaintenanceState.StartBaselineRecovery | src/daemon_maintenance.rs:2137-2151 | Drops the projection, the pending changes and the fanout, asks for a gap pass, and keeps the state valid |
| Maintenance.MaintenanceState.ContinueGapPass | src/daemon_maintenance.rs:2153-2188 | Refines the gap pass: a page of consumers, then the recovery once all are gapped |
| Maintenance.MaintenanceState.ContinueSnapshotStarts | src/daemon_maintenance.rs:2190-2220 | Refines the start pass |
| Maintenance.MaintenanceState.FanoutFrontJob | src/daemon_maintenance.rs:2521-2565 | Refines one page of the front fanout job, put back in front when consumers are left |
| Maintenance.MaintenanceState.ContinueFamilyFanout | src/daemon_maintenance.rs:2222-2241 | The fanout loop refines the recursive pass |
| Maintenance.MaintenanceState.ContinueConsumerPrune | src/daemon_maintenance.rs:2300-2348 | Refines the prune pass |
| Maintenance.MaintenanceState.RefreshConsumers | src/daemon_maintenance.rs:2248-2298 | Refines the refresh pass: every visited registry entry costs a visit |
| Maintenance.MaintenanceState.AdmitNextFrame | src/daemon_maintenance.rs:1496-1604 | Refines the admission of one frame of the next ready consumer, with all its refusals |
| Maintenance.MaintenanceState.RunPasses | src/daemon_maintenance.rs:1470-1485 | Refines the five passes in their order, each only with budget left |
| Maintenance.MaintenanceState.RunHostBridgeSlice | src/daemon_maintenance.rs:1470-1492 | Refines a whole turn of the host bridge, and keeps the state valid when the engine epoch has not moved back |
| Maintenance.MaintenanceState.HandleCompletion | src/daemon_maintenance.rs:2084-2134 | Refines the completion of a family frame and keeps the state valid |
| Maintenance.MaintenanceState.QueueFamilyDelta | src/daemon_maintenance.rs:2481-2519 | Queues a fanout job, or starts over when the queue is full |
| Maintenance.MaintenanceState.RunProjectionApplySlice | src/daemon_maintenance.rs:1338-1359 | The apply loop refines applying up to sixteen changes and keeps the state valid |
| Maintenance.MaintenanceState.ApplyBaselineRead | src/daemon_maintenance.rs:1413-1467 | Refines the consumer of a baseline page, and keeps an awaiting state valid if and only if the page is not a complete one under a pending gap pass |
| Maintenance.MaintenanceState.IngestSessions | src/daemon_maintenance.rs:1440-1442 | The ingest loop adds a page's sessions to the rows |
| Maintenance.MaintenanceState.CheckSignal | src/daemon_maintenance.rs:866-871 | Refines the signal check for parked consumers and keeps the state valid |
| FamilyChunks.PackSessionChunk | src/daemon_maintenance.rs:1080-1105 | The loop equals greedy packing by index |
| FamilyChunks.PackIsGreedy | src/daemon_maintenance.rs:1080-1105 | A chunk is nonempty, within both limits and as long as the limits allow; packing fails if and only if the first row does not fit alone |
| FamilyChunks.NextProjectionChunk | src/daemon_maintenance.rs:2440-2479 | The row-cursor loop, which repacks at every row, equals packing the list of rows behind the cursor once |
| FamilyChunks.ChunksCoverRows | src/daemon_maintenance.rs:1076-1105 | Repeated packing ends, emits every row exactly once in order in nonempty chunks within the limits, and fails if and only if some row does not fit alone |
| FamilyChunks.SnapshotEndsIff | src/daemon_maintenance.rs:2385-2394 | Reading a snapshot chunk by chunk reaches its end if and only if every row behind the cursor fits a chunk of its own, and otherwise stops at an oversized row |
| FamilyChunks.CursorFormAgrees | src/daemon_maintenance.rs:2440-2479 | Reading by row cursor and packing by index give the same chunks |
| FamilySchedule.PeekedFits | src/daemon_maintenance.rs:1521-1528 | Every frame a consumer can send fits the byte budget of a fresh turn |
| FamilySchedule.CrowdedTurn | src/daemon_maintenance.rs:1470-1492 | With a registry whose last page and subscribers do not fit one turn, a turn on a page boundary spends its budget before admission, whatever passes are pending, and stays on a page boundary |
| FamilyStarvation.CrowdedRunsNeverSend | src/daemon_maintenance.rs:2248-2348 | In every run of the code whose turns all see one such registry, no frame is ever sent to anyone, whatever other steps interleave |
| FamilyStarvation.UnservedIsReady | src/daemon_maintenance.rs:503-514 | A consumer outside a gap that was never sent anything is ready, with its begin frame waiting |
| FamilyDelivery.SomeRunSendsIff | src/lifecycle.rs:630-664 | With a fixed registry some run from the initial state sends a frame if and only if there is a subscriber and the last registry page and the subscribers together are fewer than eight |
| FamilyFourPlugins.FourPluginsStarve | src/lifecycle.rs:630-664 | A run from the initial state over four subscribed plugins after which all four are ready with their begin frames waiting, although no run over them ever sends a frame |
| FamilyRound.RoundAdmitsIff | src/daemon_maintenance.rs:2248-2348 | With no pass pending, one of the turns that finish the refresh round reaches admission if and only if the last registry page and the subscribers fit one turn |
| FamilyRound.AdmittingTurnOffers | src/daemon_maintenance.rs:1496-1545 | A turn that reaches admission with a ready consumer and its bytes unspent offers a frame, or faults on an oversized row |
| FamilyWait.StepMovesCursor | src/daemon_maintenance.rs:1501-1566 | Over every step the round-robin cursor moves only in a turn that offers a consumer, and then exactly to it |
| FamilyWait.OfferIsNextReady | src/daemon_maintenance.rs:545-556 | What a turn offers is the first ready consumer after the cursor, wrapping once |
| FamilyWait.ReadyIsOfferedInTime | src/daemon_maintenance.rs:545-556 | Bounded wait over every run of the code: among N consumers, one that is ready at each of N offers is offered at one of them, whatever steps come in between |
| FamilyBaseline.FreshPagesSealTheFreeze | src/daemon_maintenance.rs:1361-1462 | A recovery whose pages each answer its own cursor seals exactly the rows frozen at the snapshot |
| FamilyBaseline.SealedRowsAreTheFreezeIff | src/daemon_maintenance.rs:1413-1462 | A chain of pages seals the frozen rows if and only if the rows it started from are all frozen and hold every frozen row at or before its first cursor |
| FamilyBaseline.StalePageSealsTheFreezeIff | src/daemon_maintenance.rs:694-701 | When the first page answers a request made before the recovery started over, the sealed rows are the frozen rows if and only if no frozen row lies at or before that request's cursor |
| FamilyBaseline.StrayPageSealsTheFreezeIff | src/daemon_maintenance.rs:1439-1445 | When an incomplete page of an earlier recovery is read while the gap pass is pending, the recovery that follows seals the frozen rows if and only if every session of that page is still among them |
| FamilyBaseline.StalePageLosesARow | src/daemon_maintenance.rs:2137-2151 | A concrete stale page after which the sealed projection has lost a session |
| SpawnGate.OpenGateHasAnsweredSpawns | src/daemon_maintenance.rs:926-949 | In every run, when the gate opens every spawn answered so far is projected, or was projected in an earlier state |
| SpawnGate.GateOpensIff | src/daemon_maintenance.rs:926-949 | In every run the gate opens if and only if the journal is consumed and confirmed and every awaited spawn is projected at that moment |
| SpawnGate.SliceLeavesAwaitedIff | src/daemon_maintenance.rs:1338-1355 | An apply slice of any length leaves a spawn awaited if and only if it was awaited and its last change in the slice removes its row, or the slice does not name it and it had no row |
| SpawnGate.StillAwaitedIff | src/daemon_maintenance.rs:961-972 | In every run a spawn not answered again is still awaited if and only if none of the retirements since (apply slice, seal, gate check) found it projected |
| SpawnGate.UnprojectedSpawnShutsGate | src/daemon_maintenance.rs:944-948 | So a spawn that no retirement finds projected, and that has no row, shuts the gate however long the run is |
| SpawnGate.GoneInOneSliceShutsGate | src/daemon_maintenance.rs:1338-1355 | A concrete run that ends caught up in every other respect with the gate shut on a spawn whose session came and went within one slice |
| SpawnGate.NoKeyRereadTwiceInARow | src/daemon_maintenance.rs:1018-1027 | In every run the journal is never reread twice running for one recovery key |
| SpawnGate.EachKeyRereadOnce | src/daemon_maintenance.rs:1004-1027 | With one source whose watermark never moves back, each recovery key rereads the journal at most once between recoveries |
| SpawnGate.OpenGateNeedsLaterPull | src/daemon_maintenance.rs:1051-1057 | Once the confirmation is withdrawn, the gate opens only after a later empty pull at the watermark without a wake |
| SpawnGate.GateState.SyncAcknowledged | src/daemon_maintenance.rs:955-959 | Adds the runtime's answered spawns, never replacing |
| SpawnGate.GateState.RetireProjected | src/daemon_maintenance.rs:961-972 | The retiring loop removes exactly the projected spawns, here and in the runtime |
| SpawnGate.GateState.StartOmittedRowRecover | src/daemon_maintenance.rs:997-1027 | Rewinds the cursor once for the current recovery key |
| SpawnGate.GateState.RefreshIfInventoryAhead | src/daemon_maintenance.rs:1037-1049 | Refines the gate check and its side effects |
| EventDelivery.EveryCopyInOnePlace | src/daemon_maintenance.rs:1797-1932 | In every run each pulled copy is in exactly one place: in flight, awaiting retirement, requeued or settled |
| EventDelivery.EveryHolderEndsOnce | src/daemon_maintenance.rs:1651-1690 | In every run each holder is ended at most once, exactly once when its copy is settled, and not at all while it flies or was requeued |
| EventDelivery.EveryHolderEndsOnceAcrossPulls | src/daemon_maintenance.rs:1797-1932 | In every run, over all requeues and repeated pulls of one holder, the holder ends at most once, and only with its last copy |
| EventDelivery.EveryLeaseReleasedOnce | src/daemon_maintenance.rs:1827-1931 | In every run each minted lease is held by exactly one flight or was released exactly once |
| EventDelivery.QuietDeliveryIsSettled | src/daemon_maintenance.rs:2100-2106 | With nothing in flight and nothing waiting, every copy was requeued or retired, each holder ended once, and every lease was released once |
| EventDelivery.RetireConserves | src/daemon_maintenance.rs:1651-1690 | One retirement attempt, whatever the router and the causal queue answer, conserves copies, holders and leases |
| EventDelivery.DeliverConserves | src/daemon_maintenance.rs:1797-1932 | Handling one pulled copy conserves copies, holders and leases on every path |
| EventDelivery.EventOwner.RetireEventHolder | src/daemon_maintenance.rs:1651-1690 | Ends the holder once, then releases the lease, and says whether the flight is over |
| EventDelivery.EventOwner.QueueEventRetirement | src/daemon_maintenance.rs:1692-1705 | Queues an unfinished retirement and blocks when only the lease is left |
| EventDelivery.EventOwner.FlushPendingRetirements | src/daemon_maintenance.rs:1616-1649 | Retries the front retirement, twice when the router was busy |
| EventDelivery.EventOwner.OfferCopy | src/daemon_maintenance.rs:1838-1931 | Offers one leased copy and settles lease and copy by the engine's answer |
| EventDelivery.EventOwner.DeliverCopy | src/daemon_maintenance.rs:1797-1931 | Handles one pulled copy on every path |
| EventDelivery.EventOwner.RunDeliverySlice | src/daemon_maintenance.rs:1707-1937 | One slice: a retirement, then the batch unless blocked, faulted or parked |
| EventDelivery.EventOwner.CompleteFlight | src/daemon_maintenance.rs:2100-2106 | A plugin's answer retires the flight or queues its retirement |
| PluginStore.BatchMeaning | src/capabilities.rs:1387-1533 | A batch commits exactly the reference candidate, or fails naming the first offending mutation counted from one, or fails without an index when only the recount does; offences are judged against the stored records alone |
| PluginStore.CandidateIsUnique | src/capabilities.rs:1387-1533 | The reference leaves a batch no choice of candidate |
| PluginStore.OpsCommitCandidate | src/capabilities.rs:1247-1270 | The put and delete calls of a committed batch turn the stored records into exactly the candidate |
| PluginStore.ApplyPluginStoreBatch | src/capabilities.rs:1387-1533 | The batch loop over a working copy computes the batch |
| PluginStore.IncrementalCheckIsRecount | src/capabilities.rs:1652-1683 | From a state within its quotas, the incremental check of a write holds if and only if the recount of the written records does |
| PluginStore.SetAgreesWithBatchIff | src/capabilities.rs:1286-1309 | A set with an expected revision and its one-mutation batch agree, except exactly for a valid key with a stored record at the expected revision, a payload within both byte quotas, and more keys stored than allowed |
| PluginStore.PatchAgreesWithBatchIff | src/capabilities.rs:1356-1384 | The same for a patch, with the payload it computes |
| PluginStore.OverfullSetDisagrees | src/capabilities.rs:1286-1309 | A concrete namespace of two records under a limit of one key, where the set replaces a record and its batch fails |
| PluginStore.ReachableSetAgreesWithBatch | src/capabilities.rs:1286-1309 | In every reachable state a set and its one-mutation batch agree |
| PluginStore.ReachablePatchAgreesWithBatch | src/capabilities.rs:1356-1384 | In every reachable state a patch and its one-mutation batch agree |
| PluginStore.RunKeeps | src/capabilities.rs:1632-1683 | In every state of every run of sets, patches, deletes and batches all three quotas hold and each revision is the number of writes since creation |
| PluginStore.WinnerAdvances | src/capabilities.rs:1632-1650 | A write that carried an expected revision found exactly it and leaves the next one |
| PluginStore.AtMostOneWinner | src/capabilities.rs:1441-1502 | Of all writes carrying the same expected revision, single or batched, at most one succeeds while the record stays |
| PluginNamespace.DecodeEncode | src/capabilities.rs:1941-1951 | Every byte string is read back from its namespace text |
| PluginNamespace.EncodeIsInjective | src/capabilities.rs:1934-1951 | No two plugin identities share a namespace text |
| PluginNamespace.EncodeAlphabet | src/capabilities.rs:1934-1951 | The text uses only lower-case letters, digits, hyphen and underscore, and is at most three times as long |
| PluginNamespace.PluginNamespaceText | src/capabilities.rs:1941-1951 | The encoding loop computes the text |
| PluginNamespace.OwnersAlwaysMatch | src/capabilities.rs:1119-1133 | From an empty database, over every interleaving of plugins, no owner check ever rejects a plugin's own namespace |
| PluginNamespace.OwnRecordsFollowStore | src/capabilities.rs:1286-1385 | A plugin's operation changes its own records exactly as a store of its own |
| PluginNamespace.OthersUntouched | src/capabilities.rs:1106-1117 | A plugin's operation leaves every other plugin's records as they were |
| PluginNamespace.RecordsAreThoseAlone | src/capabilities.rs:1106-1133 | In every interleaved run of the database a plugin's records are exactly those of a run of its own steps alone, or none when its namespace text is too long |
| PluginNamespace.QuotaHoldsPerPlugin | src/capabilities.rs:1632-1683 | In every interleaved run each plugin's records keep its own limits, whatever limits the others have |
| PluginNamespace.ReadRecords | src/capabilities.rs:1172-1201 | Reading page by page, whatever the page sizes, returns the whole namespace, or an error if and only if a record is foreign |
| CapabilityTimers.DrainMeaning | src/capabilities.rs:603-643 | A drain is all or nothing on capacity; it fires each due timer of the plugin once in (deadline, id) order with its next sequence number, rearms or removes it, and touches no other timer or queue |
| CapabilityTimers.NothingLeftDueIff | src/capabilities.rs:624-640 | After a drain none of the plugin's timers is due if and only if the clock is below its end or no due timer repeats |
| CapabilityTimers.FiringOrderSorts | src/capabilities.rs:608-618 | The firing order lists each due timer once, by deadline and then id |
| CapabilityTimers.DrainCompletionsMeaning | src/capabilities.rs:696-715 | Completions are queued in order up to the first without room, which is lost; those behind it stay in the channel |
| CapabilityTimers.QueuesStayBounded | src/capabilities.rs:645-677 | In every state of every run each local queue is within its capacity |
| CapabilityTimers.CleanedStaysGone | src/capabilities.rs:814-845 | In every run, after a cleanup with no completion on its way, the plugin has no timer and no event until a timer is opened, a submission checked or a completion delivered for it |
| CapabilityTimers.HubCapabilityRuntime.OpenTimer | src/capabilities.rs:508-559 | Refines opening a timer |
| CapabilityTimers.HubCapabilityRuntime.CancelTimer | src/capabilities.rs:561-601 | Refines cancelling a timer, which leaves the table before any check |
| CapabilityTimers.HubCapabilityRuntime.EnqueueDueTimers | src/capabilities.rs:603-643 | The firing loop refines the drain |
| CapabilityTimers.HubCapabilityRuntime.DrainWorkerCompletions | src/capabilities.rs:696-715 | The receive loop refines draining the completion channel |
| CapabilityTimers.HubCapabilityRuntime.EnsureRuntimeCapacity | src/capabilities.rs:645-663 | Refines the capacity check before a submission |
| CapabilityTimers.HubCapabilityRuntime.DrainLocalEvents | src/capabilities.rs:717-727 | Hands over a plugin's queue, after the channel |
| CapabilityTimers.HubCapabilityRuntime.CleanupPlugin | src/capabilities.rs:814-845 | The removal loop refines the cleanup and lists exactly the plugin's timers |
| StableSampler.StableBaseline.RunStable | script/measure-processes.c:673-790 | When the run reports a valid interval: every participant was watched before the final setup pass, every sample shows exactly the participants, unchanged, no lifecycle event was drained after the start, and ticks and nanoseconds are the exact sum of endpoint differences |
| StableSampler.StableBaseline.Setup | script/measure-processes.c:697-716 | A ready setup pass lists only processes watched by an earlier attempt |
| StableSampler.StableBaseline.TakeSamples | script/measure-processes.c:723-749 | While no failure is recorded, every sample kept shows exactly the participants |
| StableSampler.StableBaseline.Discover | script/measure-processes.c:534-592 | The walk of the process trees ends and lists each process number once; if it is complete and spoiled by no new watch, an earlier attempt watched every listed process; after the start it adds no watch |
| StableSampler.StableBaseline.WatchRow | script/measure-processes.c:479-527 | On success no watch is lost, a pass still unspoiled means an earlier attempt watched the process, and after the start no watch is added |
| StableSampler.StableBaseline.AppendRow | script/measure-processes.c:143-155 | A process number is listed at most once, and the process is then listed unless its identity changed, which invalidates the pass |
| StableSampler.StableBaseline.Drain | script/measure-processes.c:456-477 | An event or an error drained after the start is a failure that stays |
| StableSampler.StableBaseline.SameSet | script/measure-processes.c:603-620 | A sample passes if and only if it has as many rows and finds each participant unchanged, and then it shows the same set of processes |
| StableSampler.CountedSetsAreEqual | script/measure-processes.c:603-620 | Equal counts and a match for each expected process make the two sets equal |
| StableSampler.StableCpu | script/measure-processes.c:634-671 | The sum succeeds if and only if every process is found with counters that did not decrease and neither the total nor its time overflows, and then both are exact |
| StableSampler.StableRss | script/measure-processes.c:622-632 | The resident sum succeeds if and only if it fits, and is exact |
| StableSampler.TicksToNs | script/measure-processes.c:74-80 | The conversion rounds the exact quotient down, and fails if and only if it does not fit |
| EntrypointSupervisor.ExitPublishedOnce | src/entrypoint_supervisor.rs:486-538 | Over every run of refreshes and stops the exit is recorded and published at most once, in that order, and the launch result tells the supervised state whenever it is not Stopped |
| EntrypointSupervisor.ExitTimeIsFixed | src/entrypoint_supervisor.rs:378-395 | Once recorded, the exit time never changes |
| EntrypointSupervisor.StoppedIsFinalIff | src/entrypoint_supervisor.rs:540-547 | Stopped is final if and only if the exit is recorded and its publication is not still pending |
| EntrypointSupervisor.StoppedAndExitedCanStillChange | src/entrypoint_supervisor.rs:418-457 | From a spawned process with a reader open: a stop whose cleanup times out, then an exit while output is open, leaves it Stopped with its exit recorded, and the end of its output makes it Exited |
| EntrypointSupervisor.SupervisedProcess.constructor | src/entrypoint_supervisor.rs:352-366 | A spawned process runs, with open readers |
| EntrypointSupervisor.SupervisedProcess.RefreshLaunchResult | src/entrypoint_supervisor.rs:398-416 | Takes a readable launch result and writes the supervised state into it |
| EntrypointSupervisor.SupervisedProcess.PublishTerminalStateIfReady | src/entrypoint_supervisor.rs:511-527 | Publishes the pending state once ready |
| EntrypointSupervisor.SupervisedProcess.ReapChild | src/entrypoint_supervisor.rs:381-393 | Records an exit or a wait error once |
| EntrypointSupervisor.SupervisedProcess.Refresh | src/entrypoint_supervisor.rs:373-396 | Refines a refresh |
| EntrypointSupervisor.SupervisedProcess.MarkStopped | src/entrypoint_supervisor.rs:540-547 | Publishes what is pending, then stops |
| EntrypointSupervisor.SupervisedProcess.Stop | src/entrypoint_supervisor.rs:418-457 | Refines a stop with its escalation and its timeouts |
| HostDisposal.SlotIsLinear | src/host_disposal.rs:176-248 | Under every interleaving of polls, resubmissions and the worker the permit is in exactly one place and is returned at most once |
| HostDisposal.SlotReturnsAfterDestruction | src/host_disposal.rs:192-225 | The permit is returned only after payload, model, cleanup and bridges are gone |
| HostDisposal.WorkerRunsOnce | src/host_disposal.rs:176-191 | The worker finds the record pending and without a permit, and never runs a second time |
| HostDisposal.FaultKeepsSlot | src/host_disposal.rs:214-248 | After a partial destruction or a cleanup fault the permit is never returned and the answer never changes |
| HostDisposal.Work.constructor | src/host_disposal.rs:102-114 | A submitted job holds its permit in the queue, or in the refusal |
| HostDisposal.Work.PollWork | src/host_disposal.rs:227-248 | Refines a poll of the record |
| HostDisposal.Work.PollJob | src/host_disposal.rs:116-124 | Refines a poll of the job, which first resubmits a refused command |
| HostDisposal.Work.Run | src/host_disposal.rs:176-225 | Refines the worker's run and keeps the permit linear |

## Left out

- FamilyTheorems.ReplicasConverge: asks that the rows a snapshot has still to carry fit a chunk each, which is exactly when the snapshot can end; a row that does not fit faults the projection, and its consumer stays gapped.
- FamilyRun.RunKeepsInvariant: covers the runs without a stray seal, and so do the theorems of FamilyTheorems about `IsRun`; FamilyRun.CodeRunKeepsInvariantIff shows that these are exactly the runs in which the invariant holds throughout.
- FamilyStarvation.CrowdedRunsNeverSend: speaks of runs whose turns all see one registry; a registry that changes between turns may let a turn through.
- FamilyBridge.SessionFamilyBridge.IssueRequest: counts requests without the saturation of the 64-bit serial, and the busy count without that of its 32-bit field.
- EventDelivery.EventOwner.RunDeliverySlice: starts after the slice's own wait is over; parking on signal epochs, byte and time limits of the pull and the router's queues are not modelled.
- EventDelivery.EveryHolderEndsOnceAcrossPulls: takes from the router that it hands a holder out again only after taking its previous copy back; the router itself is not modelled.
- PluginStore.RunKeeps: revisions and byte sums are unbounded, so their machine overflow is not modelled.
- PluginNamespace.ReadRecords: models the range read of the database as pages of any size, not its byte limit.
- StableSampler.StableBaseline.RunStable: kernel calls answer anything; their finite answers stand for loops that end when the kernel has no more, and the JSON output and read times are left out.
- Journal pages requested before a recovery started over: the model applies pulled changes as they come.
- Clearing of the projection-dirty flag, subscriber delivery and the provider resync slices, which only set wake bits here.
- JSON encoding, merge-patch semantics and key syntax, which appear as sizes, effects and a validity predicate.
- The order of equal-priority slices in the owner loop; a run may take the modelled steps in any order.
- Handler generations and event names; a registry entry lists the handlers of the session family only.
- HTTP, WebSocket, file-system, credential and configuration code, label mapping and logging, which would only add easy members.
- The polling mode of the process sampler and its command line.
