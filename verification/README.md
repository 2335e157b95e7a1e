# Verified models of the Durable Objects runtime for browsers

The runtime runs Durable Objects where any worker can be stopped between two awaits. This project
models the protocols written to survive that, and proves what they promise. Each part has the source's
own form: a class whose methods update its fields a stretch of code between two awaits at a time, each
proved to take the step of a small transition system, and theorems about every run of that system.
Pure code is functions, and code that loops is methods with loops.

| file | part |
|---|---|
| `SupervisorModel.dfy`, `SupervisorInvariant.dfy`, `SupervisorRuns.dfy`, `SupervisorTheorems.dfy`, `SupervisorOutcomes.dfy`, `Supervisor.dfy` | the worker supervisor: one worker per key, hibernation probes, client sockets, deletion barriers |
| `AlarmCoordinator.dfy`, `AlarmOutcomes.dfy`, `AlarmProjector.dfy`, `ProjectorOutcomes.dfy` | the write-ahead alarm protocol and the Worker-side projector |
| `PoolHeadroom.dfy`, `HeadroomOutcomes.dfy`, `PoolReplace.dfy` | slots of the SAH pool, and replacing its files or rolling back |
| `ListRange.dfy` | list options compiled to one half-open key range |
| `AwaitTransform.dfy`, `AwaitGate.dfy`, `GateOutcomes.dfy` | the await rewrite and the checkpoint protocol it targets |
| `SocketPair.dfy`, `SocketPairOutcomes.dfy`, `SocketRegistry.dfy`, `RegistryOutcomes.dfy`, `MessagePortSocket.dfy`, `MessagePortOutcomes.dfy`, `ChromeFrames.dfy` | socket close handshakes, the hibernation mirror, the MessagePort socket and the Chrome wire codec |
| `ActorTree.dfy`, `ActorTreeOutcomes.dfy` | facet placement and its storage |
| `Prelude.dfy` | shared value types |

A run is any finite list of events. An event that cannot happen in a state is excluded by an `Enabled`
predicate or does nothing; failures, crashes, aborts and the order of asynchronous completions are
events, so every interleaving is covered. The `Theorems` modules say what no run may do; the `Outcomes`
modules say what each operation achieves in every run in which nothing stops it, in terms of the state
alone, and what becomes of it when something does.

Where the code does not do what its documentation says, the model follows the code:

- Awaits directly inside one another are not covered by the rewrite. Both insertions fall at one position, where
  the later one comes first, so the wrappers trade places. `FullCoverage` states exactly when coverage is
  complete and `NestedAwaitIsMissed` is the smallest program for which it is not.
- For the same reason a for-await whose iterable starts with an await without being one, as in `await y ?? []`, has that
  await wrapped as the iterable, and may throw where it did not (`MeaningKeptExactly`, `NullishIterableThrows`).
- A program whose text starts with an await gets its first wrapper opened before the injected import
  (`OutputSpellsRewrite`, `LeadingAwaitIsMisspelled`).
- A first alarm fired without a journal is armed before it is journaled; a crash in between leaves an
  alarm that `reconcile()` does not clear (`ReconcileIsExact`, `AlarmWithoutJournal`).
- A close message with a code beyond 16 bits is encoded by the Chrome port codec and refused by its own
  parser (`FrameRoundTrip`, `OversizedCloseIsRefused`).
- An attachment written before a socket is accepted is never mirrored (`MirroredAttachments`, `EarlyAttachmentIsNotMirrored`).

## Model

| member | source | states |
|---|---|---|
| ListRange.FirstKeyAfterPrefix | src/api/actor-state.ts:331-338 | the least key above every key with the prefix, below which every key from the prefix on has it; none exactly when the prefix is all maximal units, and then no key is above |
| ListRange.CompileListOptions | src/api/actor-state.ts:256-322 | throws exactly for both starts or a non-positive limit; otherwise a key meets start, startAfter, end and prefix together if and only if a range was returned and holds it; limit and direction pass through |
| ListRange.NarrowToPrefix | src/api/actor-state.ts:284-313 | the narrowed range holds exactly the keys of the range that have the prefix, and is given up only if there are none |
| ListRange.NoRangeExactlyWhenEmpty | src/api/actor-state.ts:256-322 | no range is returned exactly when no key qualifies |
| ListRange.SuccessorIsLeastAbove | src/api/actor-state.ts:271-276 | a key with one null unit appended is the least key above it, so startAfter becomes an inclusive start |
| ListRange.IncrementBounds | src/api/actor-state.ts:331-338 | incrementing a last unit passes every key with the prefix and nothing else at or above the prefix |
| ListRange.RangeIsPrefix | src/api/actor-state.ts:331-338 | the keys between a prefix and its stripped and incremented form are exactly those with the prefix |
| ChromeFrames.AtobBtoa | src/browser/chrome-port-websocket.ts:241-245 | decoding the base64 (section 4 of RFC 4648) of any bytes gives them back as a binary string |
| ChromeFrames.EncodeBinary | src/browser/chrome-port-websocket.ts:232-242 | building the binary string in chunks of 0x8000 gives the base64 of the whole byte sequence |
| ChromeFrames.DecodeEncoded | src/browser/chrome-port-websocket.ts:232-246 | decoding what was encoded returns the original bytes |
| ChromeFrames.DecodeThrowsWithAtob | src/browser/chrome-port-websocket.ts:244-246 | decoding throws on exactly the strings the platform's atob throws on |
| ChromeFrames.CanonicalIsEncoding | src/browser/chrome-port-websocket.ts:277-283 | the accepted strings are exactly the encodings (canonical form, section 3.5 of RFC 4648) |
| ChromeFrames.OneWireFormPerByteSequence | src/browser/chrome-port-websocket.ts:277-283 | a string is accepted and decodes to some bytes if and only if it is their one encoding |
| ChromeFrames.ParsedBinaryDecodes | src/browser/chrome-port-websocket.ts:244-284 | a binary frame that parsed never fails to decode |
| ChromeFrames.FrameRoundTrip | src/browser/chrome-port-websocket.ts:226-284 | encoding then parsing returns the same message if and only if a close carries an unsigned 16-bit integer code; any other close is refused |
| ChromeFrames.OversizedCloseIsRefused | src/browser/chrome-port-websocket.ts:255-265 | a close with code 65536 is encoded and then refused by the parser |
| SupervisorRuns.RunOk | src/browser/worker-supervisor.ts:105-643 | one global invariant over workers, ports, held frames, snapshots, probes, identities and deletions holds after every run of events |
| SupervisorTheorems.FramesConserved | src/browser/worker-supervisor.ts:470-528 | frames posted are an initial stretch of the frames taken, cut after the first close; a live socket's posted and held frames are exactly those taken; one ended by its own close delivered them all |
| SupervisorTheorems.FramesAreTaken | src/browser/worker-supervisor.ts:470-478 | a frame a live socket may send is taken whatever state its worker is in, unless starting the worker throws |
| SupervisorTheorems.ReadyWorkerHoldsNothing | src/browser/worker-supervisor.ts:489-507 | with a worker every live socket of the key is attached; if it is ready and no probe runs, nothing is held back |
| SupervisorTheorems.ClosedSocketsRest | src/browser/worker-supervisor.ts:509-528 | a socket that is over never changes again in any continuation |
| SupervisorTheorems.SnapshotsNameLiveSockets | src/browser/worker-supervisor.ts:557-610 | a stored snapshot's key has no worker, and the snapshot names exactly the key's live transports, each once, all detached |
| SupervisorTheorems.WakingReattaches | src/browser/worker-supervisor.ts:375-382 | waking a hibernated key reattaches every live socket with a fresh port, ends none, and consumes the snapshot: the mismatch and missing-transport branches are unreachable |
| SupervisorTheorems.WorkSavesWorker | src/browser/worker-supervisor.ts:586-616 | after any new work for a worker under a probe, the probe's answer evicts no worker and stores no snapshot, whatever happened in between |
| SupervisorTheorems.WorkCancels | src/browser/worker-supervisor.ts:306-318 | every kind of new work cancels the running probe of the worker it reaches |
| SupervisorTheorems.NothingLivesUnderDeletion | src/browser/worker-supervisor.ts:246-309 | while a deletion's barrier is up no covered key has a worker, snapshot or live socket, and starting one throws |
| SupervisorTheorems.DeleteRaisesBarrier | src/browser/worker-supervisor.ts:246-288 | deleting returns with the barrier up over every covered key and nothing covered alive |
| SupervisorTheorems.RemovalsRunInOrder | src/browser/worker-supervisor.ts:254-277 | storage removals begin one at a time in call order, each deletion's only after all earlier ones settled; a barrier has fallen only if its deletion settled, every removal begun |
| SupervisorTheorems.BarrierHolds | src/browser/worker-supervisor.ts:246-309 | in every run after a delete, each covered key has no worker, snapshot or live socket and cannot be started until that deletion's barrier falls, and it falls only after every removal of its targets, all known covered keys, has ended, well or badly |
| SupervisorTheorems.RunContinuesDeletions | src/browser/worker-supervisor.ts:259-277 | a deletion keeps its place, its cover and its targets over any run, and its progress is the number of its removals that have ended |
| SupervisorTheorems.StaleReferenceNeverServes | src/browser/worker-supervisor.ts:142-150 | a reference taken before a covering deletion never yields a service afterwards, even through a resolve that was suspended when the deletion began |
| SupervisorTheorems.BehindForever | src/browser/worker-supervisor.ts:402-413 | once an identity's epoch has moved on, calls made with an older epoch never gain a service |
| SupervisorOutcomes.ReadyWorkerIsServed | src/browser/worker-supervisor.ts:355-368 | in every run, a current worker that reports ready is ready and its readiness resolved; unless a probe runs, each live socket of its key has then posted exactly what it had posted and what it held, cut at the first close, and is over exactly if that cut ends with a close; sockets of other keys are as they were, and a worker that is no longer current changes nothing |
| SupervisorOutcomes.WorkerIsEnsured | src/browser/worker-supervisor.ts:306-353 | asking for a worker leaves the key with a current one whenever nothing is disposed, nothing bars the key and starting does not throw; else there is none new |
| SupervisorOutcomes.FailedWorkerIsGone | src/browser/worker-supervisor.ts:618-642 | a current worker that fails is no longer its key's, nobody waits for it any more, and each live client of the key hears 1011; a worker that is no longer current changes nothing |
| SupervisorOutcomes.StoppedKeyIsQuiet | src/browser/worker-supervisor.ts:222-230 | a stopped key has no worker, no snapshot and no live socket, each live client told |
| SupervisorOutcomes.HostClosesReachClients | src/browser/worker-supervisor.ts:209-214 | closing a key's sockets tells each live client, ends no other, forgets the key's snapshot and leaves its worker running |
| SupervisorOutcomes.DisposedIsEmpty | src/browser/worker-supervisor.ts:290-304 | after disposal there is no worker, no snapshot and no live socket, each live client told why |
| SupervisorOutcomes.ClientJoins | src/browser/worker-supervisor.ts:152-186 | a client with a new id whose key can be served joins, attached, and its key has a worker; otherwise it is over |
| SupervisorOutcomes.ClientSupersedes | src/browser/worker-supervisor.ts:169-175 | a client with the id of a live one is turned away with 1012, and the live one, unless it is closing, hears 1008 and has that close as its last frame |
| SupervisorOutcomes.ClientCloseIsTaken | src/browser/worker-supervisor.ts:480-487 | a close asked for on a live socket is taken as the client's last frame, unless starting its worker throws; on any other socket it changes nothing |
| SupervisorOutcomes.WorkerFramesAreHeard | src/browser/worker-supervisor.ts:445-468 | what a worker posts to a socket's current port is heard by its peer and by no other, and its close ends the socket; what comes over any other port changes nothing |
| SupervisorOutcomes.ProbeBegins | src/browser/worker-supervisor.ts:586-597 | a current worker without a probe gets one, which nothing has cancelled |
| SupervisorOutcomes.ProbeIsAnswered | src/browser/worker-supervisor.ts:592-616 | a snapshot of exactly the key's live transports that answers an uncancelled probe evicts the worker and is stored, and the sockets wait with all they hold; any other answer leaves the worker without a probe and, once ready, what was held is sent |
| SupervisorOutcomes.ReferenceIsCurrent | src/browser/worker-supervisor.ts:142-150 | a reference carries the epoch its identity has, which making it does not change |
| SupervisorOutcomes.CallWaitsForBarriers | src/browser/worker-supervisor.ts:402-413 | a new call waits for exactly the deletions that cover its key, unless its reference is outdated |
| SupervisorOutcomes.CallGoesOn | src/browser/worker-supervisor.ts:402-413 | a call whose deletions settled looks again, and with none left waits for the key's worker, unless its reference is outdated or the worker cannot be had |
| SupervisorOutcomes.CallIsServed | src/browser/worker-supervisor.ts:402-413 | a call whose worker became ready is served by that worker, unless its reference went out of date |
| SupervisorOutcomes.ServiceIsReached | src/browser/worker-supervisor.ts:306-413 | from end to end, in every run: a call for a key nothing bars, whose worker then reports ready, is served by that worker, the key's current one |
| SupervisorOutcomes.RemovalsStart | src/browser/worker-supervisor.ts:259-266 | a deletion whose predecessors settled removes its first target's storage, or settles with none to remove |
| SupervisorOutcomes.RemovalsGoOn | src/browser/worker-supervisor.ts:259-271 | when a removal ends the next target's begins; after the last the deletion settles, badly exactly if one went badly |
| SupervisorOutcomes.BarrierFalls | src/browser/worker-supervisor.ts:272-277 | a settled deletion's barrier falls |
| SupervisorOutcomes.DeletionComesToItsEnd | src/browser/worker-supervisor.ts:254-277 | from end to end, in every run: with one removal per target, in order, the deletion settles, badly exactly if one failed, and its barrier falls |
| Supervisor.BrowserWorkerSupervisor.EnsureWorker | src/browser/worker-supervisor.ts:306-318 | returns the key's worker, starting or un-hibernating it as needed, and throws exactly when disposed, barred or unstartable; keeps the global invariant |
| Supervisor.BrowserWorkerSupervisor.SpawnWorker | src/browser/worker-supervisor.ts:320-400 | starts a placement, hands it the key's snapshot and reattaches or ends transports exactly as the model's start does |
| Supervisor.BrowserWorkerSupervisor.Rehydrate | src/browser/worker-supervisor.ts:530-554 | attaches the transports the snapshot names in its order, up to the first that is missing, and says whether one was |
| SupervisorInvariant.RehydratedAttaches | src/browser/worker-supervisor.ts:530-554 | distinct names of live transports are all attached, each once, and none is missing |
| Supervisor.BrowserWorkerSupervisor.DiscardPlacement | src/browser/worker-supervisor.ts:618-642 | removes the current placement only, rejects its readiness and detaches or ends the key's sockets |
| Supervisor.BrowserWorkerSupervisor.ReceiveFrame | src/browser/worker-supervisor.ts:470-478 | a client frame wakes the worker and is posted, or held while it starts or hibernates; keeps the global invariant |
| Supervisor.BrowserWorkerSupervisor.CloseClient | src/browser/worker-supervisor.ts:481-487 | a close from outside is taken as the client's last frame, once; keeps the global invariant |
| Supervisor.BrowserWorkerSupervisor.ConnectClient | src/browser/worker-supervisor.ts:152-186 | a client transport is registered, and refused or ended as the model says when its key cannot be served; keeps the global invariant |
| Supervisor.BrowserWorkerSupervisor.ReceivePortMessage | src/browser/worker-supervisor.ts:445-468 | a worker's frame reaches the peer only through the socket's current port; a close ends the socket; keeps the global invariant |
| Supervisor.BrowserWorkerSupervisor.FlushPlacement | src/browser/worker-supervisor.ts:498-507 | posts every held frame of the key's sockets, in order, once the worker is ready and not hibernating |
| Supervisor.BrowserWorkerSupervisor.FlushSocket | src/browser/worker-supervisor.ts:498-516 | delivers a socket's held frames up to its first close, which ends it |
| Supervisor.BrowserWorkerSupervisor.OnReady | src/browser/worker-supervisor.ts:355-368 | a current placement becomes ready and its sockets' held frames go out (SupervisorOutcomes.ReadyWorkerIsServed says what that achieves); keeps the global invariant |
| Supervisor.BrowserWorkerSupervisor.BeginHibernation | src/browser/worker-supervisor.ts:586-597 | a probe starts only for a current worker without one; keeps the global invariant |
| Supervisor.BrowserWorkerSupervisor.EndHibernation | src/browser/worker-supervisor.ts:592-616 | a probe's answer evicts the worker and stores its snapshot only if no work cancelled it, else resumes it; keeps the global invariant |
| Supervisor.BrowserWorkerSupervisor.StopWorker | src/browser/worker-supervisor.ts:222-230 | stopping discards the worker, or the snapshot and sockets of a hibernated key; keeps the global invariant |
| Supervisor.BrowserWorkerSupervisor.DeleteStorage | src/browser/worker-supervisor.ts:246-288 | bumps the epoch of every covered identity, raises the barrier, queues the removals and stops everything covered; keeps the global invariant |
| Supervisor.BrowserWorkerSupervisor.EndRemoval | src/browser/worker-supervisor.ts:259-277 | one removal ended: the next begins, or the deletion settles; keeps the global invariant |
| Supervisor.BrowserWorkerSupervisor.DisposeAll | src/browser/worker-supervisor.ts:290-304 | ends every socket and worker and bars all later work; keeps the global invariant |
| Supervisor.BrowserWorkerSupervisor.TakeReference | src/browser/worker-supervisor.ts:142-150 | a reference carries the key's current epoch; keeps the global invariant |
| Supervisor.BrowserWorkerSupervisor.ContinueResolve | src/browser/worker-supervisor.ts:402-413 | a suspended resolve goes on only when its deletions settled and its epoch is current, checked again after readiness; keeps the global invariant |
| AlarmTheorems.RunOk | src/browser/alarm-coordinator.ts:49-161 | the journal, alarm and delivery invariants hold after every run of store, alarm, delivery, failure and crash steps |
| AlarmTheorems.NoWakeIsLost | src/browser/alarm-coordinator.ts:58-97 | in a process that has reconciled and whose operations have not failed, whenever no operation runs and no fire waits, the alarm is armed exactly when the journal owes a wake, for exactly that wake or already due |
| AlarmTheorems.ReconcileRepairs | src/browser/alarm-coordinator.ts:87-97 | after a crash anywhere, reconcile arms exactly the owed wake (the delivery's recovery wake, not before now, else the projected one) or clears the alarm |
| AlarmTheorems.ReconcileIsExact | src/browser/alarm-coordinator.ts:87-97 | after a crash and reconcile the alarm is right if and only if a journal exists or no alarm was armed |
| AlarmTheorems.AlarmWithoutJournal | src/browser/alarm-coordinator.ts:99-128 | a run that shows the other case: a first fire arms before it journals, crashes, and reconcile leaves the alarm armed |
| AlarmTheorems.WakeStaysOwed | src/browser/alarm-coordinator.ts:58-84 | over any run, crashes and failures included, an accepted projection is still journaled or was replaced by an operation carrying one at least as new; while it stands its wake, or its delivery's recovery wake, is owed |
| AlarmTheorems.GenerationNeverFalls | src/browser/alarm-coordinator.ts:58-147 | between any two points of any run the journaled generation never decreases, across crashes and failed operations |
| AlarmTheorems.OneDeliveryPerGeneration | src/browser/alarm-coordinator.ts:129-147 | within one process at most one delivery of a generation is in flight |
| AlarmTheorems.OldAcknowledgementChangesNothing | src/browser/alarm-coordinator.ts:137-142 | run uninterrupted, an acknowledgement older than the journal changes neither journal nor alarm, and only ends its delivery |
| AlarmTheorems.OlderProjectionsChangeNothing | src/browser/alarm-coordinator.ts:58-142 | in every run, no step of an operation whose projection is older than the journaled one changes journal or alarm |
| AlarmTheorems.RetriesCount | src/browser/alarm-coordinator.ts:115-128 | in every run the journaled retryCount is the number of times a delivery of its generation was journaled since none of that generation was, up to the cap |
| AlarmOutcomes.FirstEnds | src/browser/alarm-coordinator.ts:153-160 | in every run, the queue's first operation ends within two awaited effects |
| AlarmOutcomes.ProjectionIsTaken | src/browser/alarm-coordinator.ts:58-84 | in every run, a projection run to its end that is not older than the journaled one is journaled, with the alarm armed for it or cleared, or, while a delivery is stored, with delivery and alarm as they were; an older one changes neither |
| AlarmOutcomes.AcknowledgementIsTaken | src/browser/alarm-coordinator.ts:137-142 | in every run, an acknowledgement run to its end leaves its projection journaled without a delivery and the alarm armed for it, unless a newer one is journaled, and its generation is no longer in flight |
| AlarmOutcomes.FireDelivers | src/browser/alarm-coordinator.ts:99-133 | in every run, a due fire run to its end leaves the delivery journaled and its recovery wake armed, and its generation is delivered unless it already was in flight; an early one re-arms the owed wake |
| AlarmOutcomes.ProjectTakesEffect | src/browser/alarm-coordinator.ts:58-84 | from the host's call to its end in an idle process: the projection is journaled, and with no delivery stored the alarm is its own |
| AlarmOutcomes.DueAlarmIsDelivered | src/browser/alarm-coordinator.ts:99-147 | from end to end: in a process at rest a due alarm is delivered, and when that delivery returns a projection at least as new, it is journaled without a delivery and the alarm is its own |
| AlarmOutcomes.Fires | src/browser/alarm-coordinator.ts:99-133 | from the browser's call of a due alarm to the fire's end: its delivery is journaled and in flight |
| AlarmOutcomes.Returns | src/browser/alarm-coordinator.ts:135-147 | from a delivery's return to the end of its acknowledgement: the projection it returned is journaled and armed for, and the delivery is over |
| AlarmOutcomes.FailedOperationEnds | src/browser/alarm-coordinator.ts:153-160 | an operation that fails ends, its store or alarm call effective or not, and the queue goes on |
| AlarmOutcomes.StoppedWorkerForgets | src/browser/alarm-coordinator.ts:50-56 | a stopped worker forgets queue, operation and deliveries and keeps journal and alarm |
| AlarmCoordinator.BrowserAlarmCoordinator.ProjectBody | src/browser/alarm-coordinator.ts:58-84 | the writes the model plans for a projection: none if older, journal only while a delivery is under way, journal before alarm otherwise; AlarmOutcomes.ProjectionIsTaken and WakeStaysOwed say what they achieve |
| AlarmCoordinator.BrowserAlarmCoordinator.ReconcileBody | src/browser/alarm-coordinator.ts:87-97 | the one alarm operation the model plans to re-arm the owed wake, or none without a journal; ReconcileRepairs says what it achieves |
| AlarmCoordinator.BrowserAlarmCoordinator.FireBody | src/browser/alarm-coordinator.ts:99-133 | the fire the model plans: re-arm an early watchdog, or arm the recovery wake before journaling the delivery, then deliver only if that generation is not in flight; AlarmOutcomes.FireDelivers, NoWakeIsLost, RetriesCount and OneDeliveryPerGeneration say what it achieves |
| AlarmCoordinator.BrowserAlarmCoordinator.AcknowledgeBody | src/browser/alarm-coordinator.ts:137-142 | the end of a delivery the model plans: journal without it, then the projected alarm, and nothing for an old projection; AlarmOutcomes.AcknowledgementIsTaken, WakeStaysOwed and OlderProjectionsChangeNothing say what it achieves |
| AlarmCoordinator.BrowserAlarmCoordinator.StartNext | src/browser/alarm-coordinator.ts:153-160 | the queue starts its next operation only when none runs; keeps the invariant |
| AlarmCoordinator.BrowserAlarmCoordinator.PerformNext | src/browser/alarm-coordinator.ts:81-82 | one awaited store or alarm operation takes effect; keeps the invariant |
| AlarmCoordinator.BrowserAlarmCoordinator.FinishOperation | src/browser/alarm-coordinator.ts:129-147 | an operation's tail: a delivery begins or ends; keeps the invariant |
| AlarmCoordinator.BrowserAlarmCoordinator.FailOperation | src/browser/alarm-coordinator.ts:153-160 | a failing store or alarm operation, effective or not, ends its operation and the queue goes on; keeps the invariant |
| AlarmCoordinator.BrowserAlarmCoordinator.OnAlarm | src/browser/alarm-coordinator.ts:99-100 | firing consumes the one-shot alarm and queues a fire; keeps the invariant |
| AlarmCoordinator.BrowserAlarmCoordinator.OnDelivered | src/browser/alarm-coordinator.ts:135-146 | a settled delivery queues its acknowledgement, or ends if it failed; keeps the invariant |
| AlarmCoordinator.BrowserAlarmCoordinator.Restart | src/browser/alarm-coordinator.ts:50-56 | a crash loses queue and deliveries and keeps journal and alarm; keeps the invariant |
| ProjectorTheorems.NoWaiterIsLeftBehind | src/browser/alarm-coordinator.ts:205-218 | after every event no remaining waiter could be settled by the latest projection's result |
| ProjectorTheorems.EveryWaiterSettlesAtMostOnce | src/browser/alarm-coordinator.ts:197-218 | every acknowledge promise is either waiting or answered once |
| ProjectorTheorems.OnlyTheLatestAnswers | src/browser/alarm-coordinator.ts:205-218 | a waiter is resolved only with the latest projection, with no delivery active and its wake absent or later than asked; it is rejected only by the latest one's failure |
| ProjectorTheorems.GenerationsRiseInCallOrder | src/browser/alarm-coordinator.ts:220-238 | projections leave one at a time in call order, and their generations strictly increase exactly when every drawn generation exceeded the one before |
| ProjectorOutcomes.WakeIsChained | src/browser/alarm-coordinator.ts:220-228 | a projection waits for exactly the one before it, whichever way that one settles |
| ProjectorOutcomes.ProjectionGoesOut | src/browser/alarm-coordinator.ts:220-238 | in every run, a projection whose turn it is goes out with the generation drawn and its own wake and settles with it; the latest one, counting no active delivery, answers every waiter it leaves nothing to wait for, and the others wait on |
| ProjectorOutcomes.LatestFailureRejectsAll | src/browser/alarm-coordinator.ts:205-211 | the latest projection's failure rejects every waiter |
| ProjectorOutcomes.AcknowledgementIsHeard | src/browser/alarm-coordinator.ts:242-251 | an acknowledgement is answered at once exactly when the latest projection settles it, is projected again when that one failed, and waits otherwise |
| AlarmProjector.BrowserAlarmProjector.Settle | src/browser/alarm-coordinator.ts:205-218 | answers exactly the waiters the latest result settles, in order, and keeps the others |
| AlarmProjector.BrowserAlarmProjector.Acknowledge | src/browser/alarm-coordinator.ts:242-251 | a new waiter is settled at once, or the latest failed projection is sent again |
| AlarmProjector.BrowserAlarmProjector.ProjectWake | src/browser/alarm-coordinator.ts:220-238 | a call becomes the latest and joins the chain |
| HeadroomTheorems.CapacityCoversFilesAndConnections | backends/sqlite-wasm.ts:469-520 | over every interleaving and crash, files that are not open connections' journals plus open connections never exceed the capacity |
| HeadroomTheorems.NothingRunsOutOfSlots | backends/sqlite-wasm.ts:469-520 | no open, first write, reset, import or import rollback ever finds the pool full |
| HeadroomTheorems.FirstWriteFindsASlot | backends/sqlite-wasm.ts:480-498 | an open connection can always create its journal |
| HeadroomTheorems.ImportFindsASlot | backends/sqlite-wasm.ts:408-423 | while files are replaced, every name of the replacement and of the originals can be imported |
| HeadroomTheorems.InequalityIsExact | backends/sqlite-wasm.ts:485-498 | with one connection per database the inequality holds exactly when there is room for every connection to be writing at once |
| HeadroomTheorems.SlotIsFree | backends/sqlite-wasm.ts:507-520 | a file the step in progress may create, or an open connection's journal, finds a slot while the inequality holds |
| HeadroomOutcomes.OpenGoesThrough | backends/sqlite-wasm.ts:384-396 | in every run, an open whose turn it is and which SQLite does not fail has its file and counts as open once the pool grew as asked |
| HeadroomOutcomes.ImportGoesAhead | backends/sqlite-wasm.ts:408-423 | an import whose turn it is goes on to replace its placement's files and its own, each of which then finds a slot |
| HeadroomOutcomes.ResetReopens | backends/sqlite-wasm.ts:853-863 | a reset leaves its database there, without its journal, and its connection open |
| HeadroomOutcomes.SlotsComeBack | backends/sqlite-wasm.ts:865-871 | a transaction's end and a close give their slots back |
| HeadroomOutcomes.QueueGoesOn | backends/sqlite-wasm.ts:507-520 | a step joins the queue's end, and one that failed or ended leaves the queue to the next |
| PoolHeadroom.Pool.BeginStep | backends/sqlite-wasm.ts:507-520 | the queue's next step asks for a slot per listed file, per file it adds and per open connection |
| PoolHeadroom.Pool.OpenDatabase | backends/sqlite-wasm.ts:384-396 | an open creates its file if new and counts the connection only once it is open |
| PoolHeadroom.Pool.CloseConnection | backends/sqlite-wasm.ts:865-871 | closing uncounts the connection |
| PoolHeadroom.Pool.ResetConnection | backends/sqlite-wasm.ts:853-863 | a reset's unlinked file frees the slot its new one takes |
| PoolNames.FileHasItsName | backends/sqlite-wasm.ts:428-437 | a database's name is read back from its file name |
| PoolNames.NameOfFile | backends/sqlite-wasm.ts:428-442 | the files that pass the prefix, sidecar and name checks are exactly the placement's database files |
| PoolNames.OneOwnerPerFile | backends/sqlite-wasm.ts:428-442 | a file belongs to one prefix and one name, even when one prefix extends another |
| PoolReplace.ReplacePoolFiles | backends/sqlite-wasm.ts:762-803 | with operations that may fail before or after taking effect, and others changing every other file in each await: it returns with its own names exactly replaced if none failed; with one failure it throws it with them as before; with more it throws them all, first one first, with every original image; any other name ends as others last left it |
| PoolReplace.ReplaceForward | backends/sqlite-wasm.ts:768-779 | unlinks the files and imports the replacement, touching no other own name, up to the first failure |
| PoolReplace.RollBack | backends/sqlite-wasm.ts:780-802 | without a failure of its own the rollback restores every touched name and touches no other of its own |
| PoolReplace.ReplaceDatabases | backends/sqlite-wasm.ts:534-554 | refuses a prefix with a sidecar or foreign name exactly then and untouched; else, whatever others do to other files meanwhile, leaves exactly the new databases, or the placement as it was, or throws every original database; names of other prefixes end as others left them |
| PoolReplace.ActorStorage.CopyFrom | backends/sqlite-wasm.ts:358-371 | whatever others do between reading the source and the target's turn, and to other files during it: it returns only with the target holding exactly what the source held when read; a failed read, which is an operation that failed or a foreign name in the source, leaves the target alone; otherwise the committed images the turn found are kept, or all handed out, and what it throws are exactly the pool operations that failed; names outside the prefix end as others left them |
| PoolReplace.ActorStorage.ReadImages | backends/sqlite-wasm.ts:358-365 | the images read are exactly the databases of the source, and reading fails only with an operation of the pool or a foreign name |
| PoolReplace.ActorStorage.InstallImages | backends/sqlite-wasm.ts:366-370 | the target's connections close in the turn of the replacement, which is refused exactly if a foreign name is left, and else replaces, restores or hands out every original, reporting exactly the operations that failed |
| PoolReplace.ActorStorage.CloseStorage | backends/sqlite-wasm.ts:336-338 | closes every connection of the placement, rolling back what each was writing |
| PoolReplace.ClosingKeeps | backends/sqlite-wasm.ts:366-368 | closing a placement's connections keeps every committed image and touches no file outside its prefix |
| PoolReplace.ClosingAdmitsReplacement | backends/sqlite-wasm.ts:366-369 | a placement whose only foreign names are journals its open connections write has none left once they close, so its replacement is not refused |
| PoolReplace.RecoveredPoolFiles | backends/sqlite-wasm.ts:729-751 | replaying hot journals loses no database's committed image whatever fails, and returns exactly when no handle is open, no operation fails and no sidecar is left |
| PoolReplace.ExportPoolSnapshot | backends/sqlite-wasm.ts:671-680 | an exported snapshot is valid and holds the committed image of every database; a failure loses none, and is an open handle, a failed operation or a file no snapshot may hold |
| PoolReplace.ImportPoolSnapshot | backends/sqlite-wasm.ts:686-705 | with every other user stopped: an invalid or newer snapshot is refused untouched; otherwise a whole-pool import ends with exactly the snapshot, or with every committed image kept, or throws them all; it gives up only for such a snapshot, an open handle, a sidecar or an operation that failed |
| PoolReplace.ValidatePoolFiles | backends/sqlite-wasm.ts:602-638 | passes exactly the snapshots whose file names are absolute, without NUL, under 511 bytes and distinct, and whose images are intact |
| AwaitRewriteTheorems.OutputSpellsRewrite | src/vite.ts:222-239 | the text edited in visiting order is the import followed by the rewritten tree, exactly when the program does not start with an await; then the first wrapper opens before the import |
| AwaitRewriteTheorems.LeadingAwaitIsMisspelled | src/vite.ts:222-239 | await x as a whole program: the edited text has its first wrapper before the marker and the import |
| AwaitRewriteTheorems.VisitSpells | src/vite.ts:222-234 | the visitor's insertions over any subtree spell that subtree rewritten, for every nesting and every adjacency |
| AwaitRewriteTheorems.VisitOnlyWithin | src/vite.ts:222-234 | visiting a subtree inserts only between and at its two ends |
| AwaitRewriteTheorems.TransformedAtMostTotal | src/vite.ts:116-139 | transformed never exceeds total on any program, whatever its own functions are called and however many arguments they take |
| AwaitRewriteTheorems.FullCoverage | src/vite.ts:116-139 | coverage of the rewritten program is n of n, n being the source's awaits, if and only if no operand of an await or for-await starts with an await and there is no await using |
| AwaitRewriteTheorems.NestedAwaitIsMissed | src/vite.ts:222-228 | await await x has two awaits, no await using, and coverage 0 of 2 |
| AwaitRewriteTheorems.RewriteKeepsMeaning | src/vite.ts:222-234 | outside an actor, where the two await helpers hand their argument back and a for-await sees through the iterable's wrapper, a program in which no for-await has an iterable that starts with an await without being one means after the rewriting what it meant, missed awaits included, in any compositional reading |
| AwaitReadings.MeaningKeptExactly | src/vite.ts:222-234 | the rewriting keeps a program's meaning in every reading if and only if it has no such for-await |
| AwaitReadings.SeparatingReading | src/vite.ts:229-233 | one reading in which every such for-await shows as one wrapper more |
| AwaitReadings.NullishIterableThrows | src/gate.ts:249-269 | for await (x of await y ?? []) with a nullish y completes, and throws once rewritten |
| AwaitRewriteTheorems.EachAwaitKeepsMeaning | src/gate.ts:59-85 | each rewritten await evaluates to what the await did, and is wrapped after that where it is a for-await's iterable |
| AwaitRewriteTheorems.CoveredKeepsMeaning | src/vite.ts:222-245 | a program whose rewriting passes the coverage check keeps its meaning |
| AwaitTransform.VisitNode | src/vite.ts:222-234 | the recursive visitor edits the string as the model says and reports whether anything was rewritten |
| AwaitTransform.Transform | src/vite.ts:192-239 | nothing is returned exactly when nothing is rewritten; else the import and the rewritten program, unless the program starts with an await |
| AwaitTransform.CountAwaitCoverage | src/vite.ts:116-139 | counts the awaits and the covered ones; never more covered than there are |
| GateTheorems.OneActorPerCheckpoint | src/gate.ts:96-112 | all published and unresumed outcomes, the reservation and the current continuation belong to one actor, also after a reservation was overwritten |
| GateTheorems.RefusedOnlyByTheOwner | src/gate.ts:96-106 | a publisher is refused if and only if another actor owns the checkpoint |
| GateTheorems.ResumesAsItsActor | src/gate.ts:78-85 | an await resumes as the actor that made it, which then is the current one and holds a lock |
| GateTheorems.CheckpointEndsUnowned | src/gate.ts:103-112 | no reservation or continuation outlives its checkpoint |
| GateTheorems.EachAwaitSettlesOnce | src/gate.ts:114-169 | every await waits for its promise, or has one publication scheduled, or is settled once; none is lost |
| GateTheorems.RefusedIsRescheduled | src/gate.ts:121-153 | an outcome that asks to be published while another actor owns the checkpoint, as its promise settles or again in a scheduled slice, is scheduled exactly once and settles and publishes nothing |
| GateOutcomes.UnrefusedIsPublished | src/gate.ts:121-153 | in every run, an outcome that reaches its unaborted actor while no other actor owns the checkpoint, as its promise settles under a lock of its section or in any admitted slice, is settled and no longer scheduled; it waits to resume under the current publication, and a loop's step has made its actor the current one |
| GateOutcomes.GoneActorRejects | src/gate.ts:138-141 | an await whose actor aborted, or whose slice was not admitted, is rejected and takes nothing from the checkpoint |
| GateOutcomes.UnheldIsScheduled | src/gate.ts:133-137 | an outcome that finds no lock of its own section is scheduled exactly once and changes nothing else |
| GateOutcomes.NextAfterCheckpointPublishes | src/gate.ts:96-153 | a scheduled publication that runs next after a checkpoint's end is not refused |
| GateOutcomes.AwaitComesBack | src/gate.ts:59-153 | from end to end: an await of an actor that holds its lock and is not refused settles once and resumes with its actor the current one |
| GateOutcomes.AwaitIsMade | src/gate.ts:59-75 | an await captures the section of the lock that is held, and waits for its promise |
| GateOutcomes.CheckpointReleasesLocks | src/io/io-context.ts:307-330 | in every run a checkpoint's end leaves no actor a lock, and no task, await or outcome is lost by it |
| GateOutcomes.SliceHoldsItsLock | src/io/io-context.ts:307-330 | a slice holds a lock of the section it entered |
| AwaitGate.Realm.ReservePublication | src/gate.ts:96-106 | takes the slot over unless another actor's continuation or reservation holds it |
| AwaitGate.Realm.GateAwait | src/gate.ts:59-75 | outside an actor the value comes back as it was; inside, an await of the current critical section is made |
| AwaitGate.Realm.ResumeAwait | src/gate.ts:78-85 | identity on a plain value; otherwise the reservation is cleared if still current and the actor restored |
| AwaitGate.Realm.SettleOutcome | src/gate.ts:133-158 | a settled promise publishes under a held lock of its own section, rejects if aborted, or is scheduled |
| AwaitGate.Realm.RunPublication | src/gate.ts:121-128 | a scheduled publication publishes in its slice unless it is refused (GateOutcomes.UnrefusedIsPublished), is then scheduled again, or rejects if its slice failed |
| AwaitGate.Realm.RunCheckpointEnds | src/io/io-context.ts:307-330 | the whole batch of checkpoint callbacks runs |
| MessagePortTheorems.DeliveredInOrder | src/browser/message-port-websocket.ts:110-141 | message events are an initial stretch of the received frames, in order; until the socket closes, followed by the flush in progress and the queue they are all of them |
| MessagePortTheorems.NothingStaysQueued | src/browser/message-port-websocket.ts:85-97 | an open socket at rest whose flush has run delivered everything |
| MessagePortTheorems.OneCloseEvent | src/browser/message-port-websocket.ts:143-168 | one open at most, no message before it or after a close event, and one close event exactly when the socket has closed |
| MessagePortTheorems.EveryClosingPathCloses | src/browser/message-port-websocket.ts:71-79 | own close, disconnect, a failure's end, a wire close and an unreadable message each leave the socket closed with one close event |
| MessagePortTheorems.NothingPostedAfterClose | src/browser/message-port-websocket.ts:64-79 | nothing is posted to the wire after an own close frame |
| MessagePortTheorems.ReentrantDeliveryOvertakes | src/browser/message-port-websocket.ts:85-97 | without the assumption on deliveries, a frame delivered inside an open handler overtakes the queued ones |
| MessagePortOutcomes.ConnectingOpens | src/browser/message-port-websocket.ts:81-97 | a connecting socket opens by either side and says so once |
| MessagePortOutcomes.OpenSocketPosts | src/browser/message-port-websocket.ts:64-69 | an open socket posts what it is given, and no other posts anything |
| MessagePortOutcomes.FrameIsDeliveredOrWaits | src/browser/message-port-websocket.ts:124-141 | a frame is delivered at once by an open socket whose queue is flushed, waits before that, and is dropped by a closed one |
| MessagePortOutcomes.FlushDeliversAll | src/browser/message-port-websocket.ts:90-96 | in every run, the flush of an open socket whose handlers return delivers every frame that waited, in order |
| MessagePortOutcomes.CloseIsPosted | src/browser/message-port-websocket.ts:71-79 | closing a socket posts one close frame and ends it cleanly |
| MessagePortOutcomes.ClosedByTheOtherSide | src/browser/message-port-websocket.ts:99-135 | what the other side or the port closes ends in its words, and nothing is posted |
| MessagePortOutcomes.UnparseableCloses | src/browser/message-port-websocket.ts:110-115 | what cannot be parsed closes the socket with 1002 |
| MessagePortOutcomes.FailureEnds | src/browser/message-port-websocket.ts:104-108 | a failed connection emits an error and then, if it had not closed, an unclean close |
| MessagePortSocket.MessagePortWebSocket.HandleWireMessage | src/browser/message-port-websocket.ts:110-141 | a wire message opens, closes, queues or delivers as the model says |
| MessagePortSocket.MessagePortWebSocket.Open_ | src/browser/message-port-websocket.ts:85-97 | opens a connecting socket once and emits open before anything else |
| MessagePortSocket.MessagePortWebSocket.FlushQueue | src/browser/message-port-websocket.ts:90-96 | the queue is taken whole and its first frame emitted if the socket is still open |
| MessagePortSocket.MessagePortWebSocket.FinishClose | src/browser/message-port-websocket.ts:161-168 | closes once, drops the queue and emits one close event |
| MessagePortSocket.MessagePortWebSocket.CloseSocket | src/browser/message-port-websocket.ts:71-79 | posts one close frame and closes; nothing on a closed socket |
| SocketPairTheorems.OneCloseThenSilence | src/api/web-socket.ts:285-309 | each end hears one close and no message after it exactly when the other end's close was sent, and at most that one reaches its listeners or registry |
| SocketPairTheorems.ReadyStateIsTheHandshake | src/api/web-socket.ts:424-617 | a socket is open exactly before any close, and closed once both closes are in |
| SocketPairTheorems.ReadyStateNeverMovesBackward | src/api/web-socket.ts:424-617 | no event moves a ready state backward, and one that closes a socket leaves its end told of a close |
| SocketPairTheorems.LostTransportTellsBothEnds | src/api/web-socket.ts:451-459 | a lost transport tells each end that has not heard a close, in its own words and unclean, and no other |
| SocketPairTheorems.ReleasedOnlyAfterBoth | src/api/web-socket.ts:177-190 | a socket is released only after its own close was written and a close event was dispatched |
| SocketPairTheorems.CloseAfterDispatchReleases | src/api/web-socket.ts:177-190 | a close written after the dispatch releases the socket at the checkpoint's end |
| SocketPairOutcomes.PumpedWriteIsHeard | src/api/web-socket.ts:285-298 | in every run and every mode, a pumped write is heard by the other end as what it is, a close marking this end's close sent, until that close; after it nothing more is heard |
| SocketPairOutcomes.HeardMessageIsPassedOn | src/api/web-socket.ts:592-602 | a message that is heard waits for accept, or is scheduled for the registry |
| SocketPairOutcomes.SendTakesMessage | src/api/web-socket.ts:407-416 | a message is the pump's next write, a host's is heard at once, and one after the socket closed or its actor aborted is dropped |
| SocketPairOutcomes.CloseIsTaken | src/api/web-socket.ts:424-442 | an own close moves the state and is the pump's next write, a host's is heard at once; a second one, one on a closed socket or an invalid one changes nothing |
| SocketPairOutcomes.CleanClosesAreValid | src/api/web-socket.ts:424-442 | in every run, every clean close that is heard or still to be written has a code and reason close accepts |
| SocketPairOutcomes.CloseIsAnswered | src/api/web-socket.ts:566-573 | a close that reaches an accepted socket which did not close itself is answered with the same code and reason as its next write |
| SocketPairOutcomes.HandshakeCompletes | src/api/web-socket.ts:424-617 | from end to end: one close between two open, idle, accepted sockets leaves both closed, each having heard that clean close once |
| SocketPairOutcomes.AcceptDeliversWaiting | src/api/web-socket.ts:539-558 | a late accept delivers what waited, and answers a close among it |
| SocketPairOutcomes.WrittenCloseCompletes | src/api/web-socket.ts:177-185 | a written hibernatable close completes at the checkpoint's end, or waits for the close event in a pair |
| SocketPairOutcomes.DispatchedCloseReleases | src/api/web-socket.ts:874-902 | a close event dispatched after the own close was written releases the socket at the checkpoint's end |
| SocketPairOutcomes.RefusedEventIsGone | src/api/web-socket.ts:893-901 | an event no handler took is gone, and a close among them still completes the own close |
| SocketPairOutcomes.HostTakesOver | src/api/web-socket.ts:502-533 | the host's half is unaccepted, without an actor and as far in its handshake as it was; the other half's written close completes |
| SocketPairOutcomes.NextActorTakesOver | src/api/web-socket.ts:935-944 | a hibernated socket's next actor finds it live, as far in its handshake as it was, and not released |
| SocketPairOutcomes.CleanTransportCloses | src/api/web-socket.ts:451-459 | a transport closed cleanly, with a code and reason close accepts, closes the socket as its own close does |
| SocketPairOutcomes.HibernationTakesOver | src/api/web-socket.ts:470-495 | a socket an actor accepts for hibernation is the registry's, and what waited for accept is dropped |
| SocketPairOutcomes.AbortedActorDrops | src/api/web-socket.ts:582-590 | an aborted actor's accepted socket is closed, and each end that had not heard a close hears 1006, unclean |
| SocketPairOutcomes.AbortedActorIsSilent | src/api/web-socket.ts:646-648 | an aborted actor writes nothing more |
| SocketPair.WebSocketPair.EndpointClose | src/api/web-socket.ts:294-298 | marks the close sent once and lets the other end hear it |
| SocketPair.WebSocketPair.EndpointAbort | src/api/web-socket.ts:301-308 | marks both closes sent and tells the ends that had not heard one, the other end first |
| SocketPair.WebSocketPair.ReceiveClose | src/api/web-socket.ts:604-617 | a heard close closes a socket that closed first, else is answered when accepted; then it is passed on |
| SocketPair.WebSocketPair.AnswerPeerClose | src/api/web-socket.ts:566-573 | answers a clean close once, and only marks closed on an unclean one |
| SocketPair.WebSocketPair.CloseSocket | src/api/web-socket.ts:424-442 | an own close is taken once, moves the state and is written at once or through the pump |
| SocketPair.WebSocketPair.AcceptSocket | src/api/web-socket.ts:539-558 | a late accept answers and delivers what waited, in order |
| SocketPair.WebSocketPair.CoupleSocket | src/api/web-socket.ts:502-533 | the host takes the endpoint's state over and the other half's written close completes |
| SocketPair.WebSocketPair.LoseTransport | src/api/web-socket.ts:451-459 | an unclean or invalid transport close drops the connection, a valid one closes the socket |
| SocketPair.WebSocketPair.DropWith | src/api/web-socket.ts:582-590 | an aborted context closes its socket and drops the connection with 1006, once |
| SocketPair.WebSocketPair.PumpNext | src/api/web-socket.ts:636-650 | the pump's next write goes to the endpoint (SocketPairOutcomes.PumpedWriteIsHeard says it reaches the other end); a hibernatable close records that it was written |
| SocketPair.WebSocketPair.RunCheckpointEnds | src/api/web-socket.ts:182-190 | completes the own closes that are due |
| RegistryTheorems.MirrorAgrees | src/api/web-socket.ts:708-951 | replaying the host callbacks over what a container was constructed with never throws and lists exactly the registry: transports, tags, order, timestamps, auto-response and attachments written since acceptance, over any number of respawns |
| RegistryTheorems.MirroredAttachments | src/api/web-socket.ts:814-817 | the mirrored attachment is the transport's own if and only if one was written since acceptance or none was ever written |
| RegistryTheorems.EarlyAttachmentIsNotMirrored | src/api/web-socket.ts:814-817 | a run that writes an attachment and then accepts: the socket has it, the mirror has none |
| RegistryTheorems.RegisteredOnce | src/api/web-socket.ts:708-727 | no transport is registered twice |
| RegistryTheorems.ClosedOnce | src/api/web-socket.ts:904-909 | of the transports a container started with or accepted, each is still mirrored or was reported closed, never both and never twice |
| RegistryTheorems.RespawnReproduces | src/api/web-socket.ts:928-951 | an evicted container's successor has the same entries, auto-response and attachments |
| RegistryTheorems.NormalizingTwice | src/api/web-socket.ts:1006-1025 | normalized tags are distinct, are the given ones, and normalize to themselves |
| RegistryOutcomes.AcceptanceRegisters | src/api/web-socket.ts:708-727 | a new transport with fitting tags, while there is room, is registered last with its tags each once, and mirrored; otherwise nothing changes |
| RegistryOutcomes.AcceptedOnlyOnce | src/api/web-socket.ts:714-715 | a transport accepted once, classic or hibernatable, is not taken again |
| RegistryOutcomes.AttachmentIsStored | src/api/web-socket.ts:250-255 | an attachment is on its transport and, if that is registered, on its entry alone and mirrored |
| RegistryOutcomes.AnswerIsStamped | src/api/web-socket.ts:824-826 | an automatic answer stamps its registered transport alone, and the mirror is told |
| RegistryOutcomes.CloseUnregisters | src/api/web-socket.ts:904-909 | a closed transport is registered no more, the others keep their order, and the mirror is told |
| RegistryOutcomes.AutoResponseIsSet | src/api/web-socket.ts:752-767 | an auto-response within its limit is set and mirrored; a longer one changes nothing |
| RegistryOutcomes.HostAnswerReachesSuccessor | src/server/hibernation-mirror.ts:28-56 | an answer the host gives for an evicted container is stamped in what its successor starts from |
| SocketRegistry.HibernationMirror.Receive | src/server/hibernation-mirror.ts:28-56 | the mirror applies one callback, and throws exactly for an attachment or timestamp of an unknown transport |
| SocketRegistry.HibernatableWebSocketRegistry.constructor | src/api/web-socket.ts:681-695 | a registry constructed from a mirror's snapshot is the model's respawned one |
| SocketRegistry.HibernatableWebSocketRegistry.Accept | src/api/web-socket.ts:708-727 | an acceptance registers and reports, or throws and changes nothing |
| SocketRegistry.HibernatableWebSocketRegistry.Serialize | src/api/web-socket.ts:250-255 | an attachment is stored, and reported if the transport is registered |
| SocketRegistry.HibernatableWebSocketRegistry.Remove | src/api/web-socket.ts:904-909 | a registered transport is removed and reported closed; any other call changes nothing |
| ActorTreeTheorems.OnePlacementPerFacet | src/browser/actor-tree.ts:139-240 | of one facet's starts at most one is live or under way, unwinding ones included |
| ActorTreeTheorems.StorageChangesHands | src/browser/actor-tree.ts:179-229 | storage of a facet is opened only after the placement that had it open closed it, and closed only by that one; whoever has it open is live or under way |
| ActorTreeTheorems.AbortedStartsUnwind | src/browser/actor-tree.ts:179-229 | an aborted start never goes live, and a start that is over holds no container and no storage |
| ActorTreeTheorems.RestartFollowsUnwinding | src/browser/actor-tree.ts:143-151 | a restart starts over only after the aborted start it found has unwound and closed its storage |
| ActorTreeTheorems.ScopeNamesThePlacement | src/browser/actor-tree.ts:78-107 | a facet's scope resolves to its own placement's container, not aborted by the tree, or to none |
| ActorTreeTheorems.SnapshotIsHandedOver | src/browser/actor-tree.ts:182-217 | a hibernated facet's snapshot is given up only to a live placement created from it |
| ActorTreeTheorems.NothingIsLeftOpen | src/browser/actor-tree.ts:275-277 | once nothing is live or starting, no start holds storage or a container |
| ActorTreeOutcomes.StartGoesLive | src/browser/actor-tree.ts:207-218 | in every run, a start that was not aborted and whose container started is its facet's live placement, running, with its storage open, and no longer starting or restoring |
| ActorTreeOutcomes.LoadOpensStorage | src/browser/actor-tree.ts:177-200 | in every run, a loaded start that was not aborted opens its storage and takes its facet's snapshot, exactly when there is none or its request matches, and is over otherwise |
| ActorTreeOutcomes.CreatedIsScoped | src/browser/actor-tree.ts:185-207 | in every run, a start that was not aborted goes on to start the container created for it, and its scope resolves to it |
| ActorTreeOutcomes.FailedStartUnwinds | src/browser/actor-tree.ts:219-230 | in every run, a start whose await failed, or that was aborted meanwhile, is over, holds nothing, and leaves its facet's snapshot |
| ActorTreeOutcomes.FreshStartBegins | src/browser/actor-tree.ts:153-174 | a facet neither live nor starting in an attached tree gets a start of its own |
| ActorTreeOutcomes.OneStartIsShared | src/browser/actor-tree.ts:139-153 | a facet that is live or starting is shared; behind an aborted start a restart waits |
| ActorTreeOutcomes.RestartStartsOver | src/browser/actor-tree.ts:146-151 | a restart whose aborted start is over starts its facet afresh, unless someone else did |
| ActorTreeOutcomes.AbortTakesEffect | src/browser/actor-tree.ts:242-255 | an abort ends a live placement with its storage closed, and cancels one that is starting with its container stopped |
| ActorTreeOutcomes.FacetComesUp | src/browser/actor-tree.ts:139-218 | from end to end: a facet asked for in an attached tree, with nothing failing, is live with its storage open, from its snapshot if it hibernated |
| ActorTreeOutcomes.HibernatedFacetComesBack | src/browser/actor-tree.ts:132-218 | from end to end: a facet the tree was attached with as hibernated comes back from its own snapshot |
| ActorTree.BrowserActorTree.StartFacet | src/browser/actor-tree.ts:139-169 | hands back the live placement, the start under way, a restart behind an aborted start, or a fresh start |
| ActorTree.BrowserActorTree.Loaded | src/browser/actor-tree.ts:177-200 | a loaded start opens its storage unless it was aborted or its restored request differs, and else unwinds |
| ActorTree.BrowserActorTree.Created | src/browser/actor-tree.ts:201-207 | a created container is kept, or stopped again if the start was aborted meanwhile |
| ActorTree.BrowserActorTree.Started | src/browser/actor-tree.ts:207-218 | a started placement goes live (ActorTreeOutcomes.StartGoesLive says when), or unwinds |
| ActorTree.BrowserActorTree.UnwindStart | src/browser/actor-tree.ts:219-230 | a failed start stops its container, closes its storage, releases its scope and unregisters itself |
| ActorTree.BrowserActorTree.AbortFacet | src/browser/actor-tree.ts:242-255 | a live placement ends at once with its storage closed; one under way is cancelled |
| ActorTree.BrowserActorTree.CloseAll | src/browser/actor-tree.ts:275-277 | nothing stays live and every start under way is cancelled; keeps the invariant |

## Left out

- `SQLite`, the SAH pool driver, Cap'n Web, `MessagePort`, `chrome.*` and timers: only the steps the protocols use are kept (a slot store, a FIFO of events, a one-shot alarm, a nondecreasing clock).
- `src/io/*` gates, `ActorSqlite` and `AlarmScheduler`: what the cores use of them is assumed (a lock is held to its checkpoint's end, a scheduled slice runs under its lock, a published outcome resumes before its checkpoint ends).
- Sockets, placements, deletions, sends and starts are values in indexed lists of their owner, not heap objects of their own: aliasing between them is not modelled.
- Client and worker callbacks that throw or re-enter the supervisor, idle grace timers (a probe may start at any time instead), and the content of a worker snapshot beyond the transport ids it names.
- Alarm and projection times are integers; the parse and require functions of alarm records, and non-finite times they refuse, are not modelled.
- `SqliteWasmDatabase` objects constructed directly, `deleteAll` on a prefix while that prefix is being replaced, two connections to one database file in the exactness of the inequality, and what makes an image intact or importable (a parameter).
- `installSqliteWasmHost` and `rollBackHotJournals`: a replayed journal is an abstract undo of an image.
- `compileListOptions` beyond 16-bit code units: the database's own byte order differs for astral characters, as its comment says.
- The await transform's development build (a source id on the gate call), shebang lines, source maps, Babel lowering and async-method markers; parsing is left out, so trees are related to text by printing only.
- `__gateAsyncIterable`'s iterator methods beyond the publication they share with awaits: that a for-await goes through the wrapper as through the iterable is assumed, also where the two differ in how often they read `next`.
- `bridgeWebSocket`, `serveMessagePortWebSockets` and `bindChromePortWebSocket` (heartbeats and retries); lone surrogates in close reasons, whose UTF-8 length differs.
- Whether a pair half may still be accepted for hibernation after its pair was used: the model allows more acceptances than the code.
- The registry's event timeout, `getWebSockets` order by tag, dispatch of messages to handlers, and attachments' own encoding and size limit.
- Containers that break by themselves: one stays live and in its scope until the tree aborts it, so it counts as running here.
- `deleteStorage`, `copyStorage`, quiescence and activity observers of the actor tree, and the resources a facet's scope disposes.
- Regulation of SQL text, loopback and HTTP proxies, module loading, `conformance/`, benches and examples: thin wrappers or I/O.
