# Verified model of the export cache, the run event pipeline and the artifact contracts

This project models the parts of the system whose correctness depends on interleavings, long runs
or round trips, and proves what they promise. It verifies with `dafny verify dfyconfig.toml`.

**How it is built.** Code that runs between two awaits is one step. A protocol is a function from
states and labels to states; everything that the outside decides (cancellation, replies, timers, an
uncertain commit, what a worker does) is in the labels. A run is any sequence of steps from the first
state, so a statement about all runs is a statement about every interleaving. Where the program is
an object or closures over shared variables, a class has these variables as fields and a method per
piece of code between awaits. Its `Valid()` is the invariant that is proved of every run, and its method
`Turn` takes whatever comes next: it takes exactly the step of the machine and keeps `Valid()`.

- *Export cache*: `ExportCache` (callers, rows, files, background threads), `ExportInvariant`,
  `ExportCacheRuns`, `ExportOutcomeSteps` and `ExportOutcomes` (how a call ends), `ExportOrphans`, `BuildOnce`, `ExportNames`.
- *Run event pipeline*: `Utf16Text` and `Protocol` (sizes and parsers), `Projection`,
  `DeltaConservation`, `ProjectorRuns`, `ProjectorTurns`, `ProjectorTheorems`,
  `ProjectorAcceptance`, `FrameHistory` and `FramePayloads` (what the events say), `DeltaTiming`, class `Projector`; `Delivery`,
  `DeliveryRuns`, `DeliveryTries`, `DeliveryRetries`, class `Pump`; `Lease`, `Gateway`, `GatewayInvariant`, `GatewayRuns`, `LeaseRenewal`, class `GatewayJob`;
  `PipelineSteps` joins the child, the channel, the pump and the job, `Pipeline` has what holds of the whole,
  `PipelineProgress` shows that it can finish, and `LeaseLoss` and `LostLease` what a lost lease does to a
  `failed` on its way.
- *Dispatch gate and accounting hooks*: `DispatchGate`, `AccountingHooks`, `AccountingInvariant`,
  `GrantOrder`, `AccountingRuns`, classes in `AccountingExtension`.
- *Artifact contract*: `JsonPointer`, `DataLeaves`, `Canonical`, `CanonicalContract`, loops in
  `CanonicalPublisher`.
- *Evidence chain*: `EvidenceFiles`, `EvidenceChain`, class `EvidenceWriter`.
- *Admin idempotency*: `Idempotency`, class `AdminService`.
- *Client stream*: `SseStream`, `RunReducer`, `RunTheorems`.

**Assumptions.** Hashes have no collisions (and, for the evidence chain, never yield the zero hash);
rendering is a function of the key with a non-empty result; a database transaction is one step and a
unique constraint is enforced; the channel from the worker is reliable and in order and its end comes
last; the SDK emits nothing between the last flush of a worker and its clean-up, when its subscription
is still live; tool call ids are unique and every call gets at most one result; the clock does not move
within one step.

**Where the code does less than its documentation says.**

- The export cache promises that cancellation leaves no orphan file. A second cancellation during the
  clean-up of the first one leaves one (`ExportOrphans.SecondCancellationLeavesOrphan`). Which steps
  strand a file is `ExportOrphans.Strands`, and a file is an orphan in the end exactly if one of them
  did (`ExportOrphans.OrphanExactlyWhen`).
- A `failed` request can go out after the lease was lost, when the loss falls into the drain awaited
  before it (`LostLease.FailedAfterLost`): exactly when the pump that the loss stops has nothing queued
  and its batch in flight is still acknowledged (`LostLease.FailedUnderLossExactlyWhen`).
- A second terminal request can follow one that was not refused, and may have reached the control plane
  (`GatewayRuns.CancelledTwice`): exactly when a `cancelled` meets an infrastructure error, because the
  catch block looks at the cancellation first (`GatewayRuns.RepeatedExactlyWhen`).
- The projector publishes a final answer of any length, and the parser of the gateway refuses one whose
  payload is longer than 64 KiB (`ProjectorAcceptance.LongAnswerRefused`); nothing else is ever refused
  (`ProjectorAcceptance.RefusedOnlyTooLong`).
- The canonical validator compares by Python equality, so true passes for 1
  (`CanonicalContract.TrueAcceptedForOne`); otherwise it is exact (`CanonicalContract.ExactExceptBooleans`).
- The admin service answers with a conflict also when an unrelated integrity error, and no record
  under the key, made the flush fail (`Idempotency.OtherViolationConflicts`), and groundlessly only then
  (`Idempotency.GroundlessConflictExactlyWhen`).
- The client drops an empty first data line (`SseStream.FrameRoundTrip`), and dispatches a trailing event
  at the end of the input (`SseStream.TrailingEvent`), where section 9.2.6 of the WHATWG HTML Standard
  keeps the one and discards the other.

## Model

| member | source | states |
|---|---|---|
| ExportCacheRuns.ReturnedIsRender | backend/app/agent_artifacts/export_cache.py:145-403 | In every interleaving of callers with crashes, cancellations, takeovers and file damage, a file that a call returned is exactly the render of its key, with its hash and size, cached or fresh. When a call returns is `ExportOutcomes.ReturnsExactlyWhen` |
| ExportCacheRuns.OneOwner | backend/app/agent_artifacts/export_cache.py:219-282 | At most one live builder's claim token matches a row |
| ExportCacheRuns.LaterAlong | backend/app/agent_artifacts/export_cache.py:219-282 | Along any run rows stay, and the claim token of a row never goes back |
| ExportCacheRuns.FencedForever | backend/app/agent_artifacts/export_cache.py:428-484 | Once a builder's row was taken over, its `_mark_ready` and `_mark_failed` change no row, however late they run |
| ExportCacheRuns.OnlyWriterDeletes | backend/app/agent_artifacts/export_cache.py:202-228 | A file that nothing has damaged is deleted by nobody but the caller that wrote it |
| ExportCacheRuns.VerifiedFileKept | backend/app/agent_artifacts/export_cache.py:204-218 | A file that its ready row verifies is deleted by its writer only, or by a deletion begun while it was damaged |
| ExportCacheRuns.NeverStuck | backend/app/agent_artifacts/export_cache.py:229-240 | After the lease has run out, a waiting caller always leaves the waiting loop |
| ExportOutcomes.ReturnsExactlyWhen | backend/app/agent_artifacts/export_cache.py:202-403 | A call returns a file in exactly two ways: its own `_mark_ready` is acknowledged while the row still carries its claim token, and then the file is the render of its key under its own sanitized name and the ready row names it at the call's storage key; or it polls a ready row whose file verifies, and then it gets that file with the row's name, hash and size and nothing changes |
| ExportOutcomes.RaisesExactlyWhen | backend/app/agent_artifacts/export_cache.py:291-397 | A call raises in exactly these ways: it is killed, its failure was recorded, it is cancelled while a deletion runs, or after a cancelled mark it finds that its file took effect |
| ExportOutcomes.FailsExactlyWhen | backend/app/agent_artifacts/export_cache.py:298-397 | A build fails exactly when rendering fails, the write fails or is cancelled, or the mark fails or is cancelled |
| ExportOutcomes.FailedCallRaises | backend/app/agent_artifacts/export_cache.py:310-397 | A call whose build has failed never polls or returns again: it cleans up and raises |
| ExportOutcomes.PollDecides | backend/app/agent_artifacts/export_cache.py:193-283 | A poll inserts when there is no row, returns when the row serves its file, waits inside the lease of a build, and in all other cases takes the row over with a token that nothing carried before |
| ExportOutcomes.InsertDecides | backend/app/agent_artifacts/export_cache.py:241-267 | An insert takes the row with a fresh token, unless another call was faster: then the call polls again |
| ExportOutcomes.FencedPollsAgain | backend/app/agent_artifacts/export_cache.py:391-397 | A builder that was taken over changes no row when it marks: it removes its file and polls again |
| ExportOutcomes.FailureFreesRow | backend/app/agent_artifacts/export_cache.py:268-280 | A recorded failure frees the row: whoever polls next takes it over at once, inside the lease |
| ExportOutcomes.RetriesBounded | backend/app/agent_artifacts/export_cache.py:185-192 | A call may retry a deadlock or lock wait if and only if it has done so fewer than five times |
| ExportOutcomes.ReturnedNameWasAsked | backend/app/agent_artifacts/export_cache.py:211-216 | A returned file carries the sanitized name that some call for its key was given |
| ExportOutcomes.BuiltFileIsServed | backend/app/agent_artifacts/export_cache.py:378-403 | After an acknowledged build the row serves the file that was built, unless something damaged it meanwhile |
| ExportOutcomes.CanReturn | backend/app/agent_artifacts/export_cache.py:171-403 | From every reachable state a call at the top of its loop can come to a file by its own steps alone, once the lease of whatever build is under way has run out |
| ExportOrphans.OrphanExactlyWhen | backend/app/agent_artifacts/export_cache.py:310-403 | When all callers are done, an undamaged final file is there without a ready row naming it if and only if a step stranded it: its writer went away holding it or could not unlink it, its abandoned write landed, the thread deleting it was lost, or its own ready row was marked failed |
| ExportOrphans.OnlyReadyFilesRemain | backend/app/agent_artifacts/export_cache.py:310-403 | Without damage, only files that ready rows name remain if and only if no step of the run stranded a file |
| ExportOrphans.SecondCancellationLeavesOrphan | backend/app/agent_artifacts/export_cache.py:322-336 | A run in which it happens: a second cancellation while the first one awaits the write task leaves an unnamed final file |
| BuildOnce.RenderedOnce | backend/app/agent_artifacts/export_cache.py:156-290 | When no build fails, is cancelled or outlives its lease and no file is damaged, a key is rendered at most once, for any number of callers |
| ExportNames.SanitizeFilename | backend/app/agent_artifacts/export_cache.py:53-55 | The name is safe, non-empty and free of dots and underscores at its ends; a name that is like that already is unchanged |
| ExportNames.SanitizedIsMiddle | backend/app/agent_artifacts/export_cache.py:53-55 | The result is the middle of the given name, from its first to its last character that may stand at an end, with every unsafe character replaced by an underscore; or `artifact`, if there is no such character |
| Utf16Text.TakeUtf8Prefix | pi-gateway/src/event-projector.ts:73-85 | The prefix and the rest make up the value; the prefix is the longest run of whole characters within the byte limit |
| Utf16Text.FitLenMeaning | pi-gateway/src/event-projector.ts:73-85 | What that longest prefix is: it fits, ends at a character boundary, and the next character would not fit |
| Utf16Text.JoinChars | pi-gateway/src/event-projector.ts:74-84 | Splitting a text into characters and joining them gives the text back |
| Utf16Text.ConcatAny | pi-gateway/src/event-projector.ts:69-71 | The UTF-8 size of two texts put together is at most the sum of their sizes (a surrogate pair split over both is shorter) |
| Projection.FlushOrderCovers | pi-gateway/src/event-projector.ts:275-291 | A flush visits every pending channel, and once |
| Projection.AppendOnceProgress | pi-gateway/src/event-projector.ts:301-326 | A turn of the append loop that consumes no text has just flushed the channel, so the next one consumes some: the loop terminates |
| ProjectorTheorems.NumberedWithoutGap | pi-gateway/src/event-projector.ts:341-350 | Over all calls the events are numbered 1, 2, 3, .. with matching ids |
| ProjectorRuns.TextConserved | pi-gateway/src/event-projector.ts:275-339 | Per channel, emitted text followed by pending text is exactly the accepted text: nothing lost, doubled or reordered |
| ProjectorRuns.FlushedAtExit | pi-gateway/src/worker-entry.ts:370-377 | After the flush on the worker's exit path, everything accepted has been emitted |
| ProjectorTheorems.BoundaryLeavesNothingPending | pi-gateway/src/event-projector.ts:201-203 | An SDK event that is not a delta leaves no batch pending |
| ProjectorTheorems.DeltaEventsAccepted | pi-gateway/src/event-projector.ts:301-339 | Every delta event passes the source-event parser, with a non-empty text of at most 4096 bytes and at most 32 parts |
| DeltaTiming.NothingOverdue | pi-gateway/src/event-projector.ts:294-299 | After a timer flush or a delta, no batch that is still pending is 50 ms old |
| DeltaTiming.FlushSays | pi-gateway/src/event-projector.ts:275-291 | A flush emits one event for every pending batch, the one begun first coming first, with its text and the number of its parts |
| DeltaTiming.HeldBackExactlyWhen | pi-gateway/src/event-projector.ts:203-208 | A delta is held back if and only if nothing is due and it leaves its batch below 32 parts and 4096 bytes; it is then added to that batch, which keeps its age |
| ProjectorRuns.NeverSplitsCharacter | pi-gateway/src/event-projector.ts:73-85 | No batch boundary parts a surrogate pair that arrived within one delta |
| ProjectorTurns.CandidateMeaning | pi-gateway/src/event-projector.ts:219-228 | The completion candidate is a registered text that no later tool start or candidate has voided |
| ProjectorTurns.CompletedAtMostOnce | pi-gateway/src/event-projector.ts:233-238 | `message.completed` is emitted at most once per attempt |
| ProjectorTheorems.AnswerPublished | pi-gateway/src/event-projector.ts:229-259 | A frame publishes the answer exactly when it ends a turn with a live candidate and none was published before; it carries that candidate, behind the flushed deltas and before turn end and usage |
| ProjectorAcceptance.RefusedOnlyTooLong | pi-gateway/src/protocol.ts:318-358 | Every event the projector emits passes the source-event parser, except an answer whose payload is longer than 64 KiB |
| ProjectorAcceptance.LongAnswerRefused | pi-gateway/src/event-projector.ts:233-238 | The exception is real: an answer of 16384 control characters is published, and the parser refuses it |
| ProjectorTurns.UsageCarriesRequestId | pi-gateway/src/event-projector.ts:386-413 | A usage event carries the request id that the SDK reported, and none otherwise |
| FramePayloads.UsageSaysWhatWasReported | pi-gateway/src/event-projector.ts:386-413 | A usage event reports each of the four counts under its own key exactly if it was reported, likewise request id, provider and model, and is `available` exactly if some count is there |
| FramePayloads.UsageReported | pi-gateway/src/event-projector.ts:373-414 | A frame with a usage object emits a usage event exactly if all counts can be read and no frame before reported the same provider call: the same request id; without any, the same message; without either, the same counts and names in the same turn. The event says what the object reports |
| FramePayloads.UsageComesFromFrame | pi-gateway/src/event-projector.ts:248-259 | A usage event is the last event of a frame; the fallback says no more than that usage is unavailable |
| FramePayloads.FrameTold | pi-gateway/src/event-projector.ts:239-247 | A frame emits an event of its own kind exactly if it has one and no frame before with the same event id has emitted one |
| FramePayloads.ToolEventsSay | pi-gateway/src/event-projector.ts:139-154 | `tool.start` carries call id and tool name, `tool.end` the call id and `failed` exactly if the call failed, `succeeded` otherwise |
| ProjectorTurns.RequestReportedOnce | pi-gateway/src/event-projector.ts:373-414 | No two usage events share an upstream request id |
| ProjectorTurns.TurnFlagMeaning | pi-gateway/src/event-projector.ts:209-218 | The turn flag says whether a usage event was emitted since the last turn reset |
| ProjectorTheorems.FallbackExactlyWhenNone | pi-gateway/src/event-projector.ts:248-259 | The `unavailable` fallback is emitted at a turn end exactly when no usage event was emitted since the last reset |
| Projector.PiSdkUsageProjector.Flush | pi-gateway/src/event-projector.ts:275-291 | All pending batches become events in start order and nothing stays pending |
| Projector.PiSdkUsageProjector.FlushIfDue | pi-gateway/src/event-projector.ts:294-299 | A flush when some batch is 50 ms old, nothing otherwise |
| Projector.PiSdkUsageProjector.FlushChannel | pi-gateway/src/event-projector.ts:328-339 | One channel's batch becomes the next event |
| Projector.PiSdkUsageProjector.AppendDelta | pi-gateway/src/event-projector.ts:301-326 | The append loop, with its lexicographic measure, computes the specified state and events |
| Projector.PiSdkUsageProjector.Project | pi-gateway/src/event-projector.ts:187-272 | One SDK event in, the specified state and events out; a usage event reports exactly what the usage object does, and the events of a tool call carry its id, its name and whether it failed |
| Projector.PiSdkUsageProjector.Turn | pi-gateway/src/event-projector.ts:187-350 | One call from outside keeps the projector valid: all it ever emitted is what a run over its inputs emits, numbered from 1, and per channel followed by what is pending it is the accepted text |
| Protocol.AcceptedFitsAlone | pi-gateway/src/protocol.ts:318-378 | An accepted event always fits into a batch of its own |
| Protocol.EventsBytesMonotone | pi-gateway/src/protocol.ts:380-382 | A shorter prefix of events never takes more bytes |
| Protocol.AcknowledgedExactlyByEcho | pi-gateway/src/event-delivery.ts:356-368 | The receipt parser and the pump's check together accept exactly the echo of the batch sent |
| Utf16Text.JsonBound | pi-gateway/src/protocol.ts:331-331 | Escaping as JSON takes at most six bytes per UTF-16 unit, plus the quotes |
| DeliveryRuns.TakesLongestPrefix | pi-gateway/src/event-delivery.ts:323-334 | The batch fits, and every longer prefix of the queue breaks one of the two limits |
| DeliveryRuns.TakenIsAccepted | pi-gateway/src/protocol.ts:360-378 | A batch taken from a valid stream passes the batch parser |
| DeliveryRuns.TakeNeverThrows | pi-gateway/src/event-delivery.ts:330-332 | In every run the exception of `takeBatch` is unreachable |
| DeliveryRuns.Conservation | pi-gateway/src/event-delivery.ts:210-354 | In every run accepted == acknowledged ++ active batch ++ queue, in order, and the last acknowledged number is that of the last acknowledged event |
| DeliveryRuns.DrainedMeansAcknowledged | pi-gateway/src/event-delivery.ts:244-252 | `drain` returns true exactly when nothing failed and every accepted event was acknowledged |
| DeliveryRuns.OnlyEchoAcknowledges | pi-gateway/src/event-delivery.ts:336-354 | With batches, only the exact echo of the batch in flight acknowledges it, and whole |
| DeliveryRuns.NeverBackwards | pi-gateway/src/event-delivery.ts:271-354 | The last acknowledged number never decreases; after a permanent failure nothing is sent or accepted |
| DeliveryRuns.SendsStutterAlongStream | pi-gateway/src/event-delivery.ts:271-321 | The sends are a chunking of a prefix of the accepted stream, each chunk sent at most `maxTransientRetries + 1` times in a row |
| DeliveryRuns.AllAccepted | pi-gateway/src/event-delivery.ts:210-242 | Until it fails or is stopped, the pump has accepted everything it was offered |
| DeliveryRuns.NumberedNeverMismatches | pi-gateway/src/event-delivery.ts:219-233 | Events numbered 1, 2, 3, .. for the pump's attempt never fail its attempt or sequence check |
| DeliveryRuns.CanDrain | pi-gateway/src/event-delivery.ts:244-321 | From every open state a control plane that answers lets `drain` finish with everything acknowledged |
| DeliveryRuns.StrandedWithoutDrain | pi-gateway/src/event-delivery.ts:262-269 | An event accepted between the runner's return and its callback stays queued until `drain` looks |
| DeliveryRetries.FailsExactlyWhen | pi-gateway/src/event-delivery.ts:210-321 | A pump fails exactly when an event is offered that is malformed, out of order or one too many, or when an answer does not acknowledge the batch and is not transient, or the batch was already sent `maxTransientRetries + 1` times, or no retry is allowed, or the pump was stopped; the failure recorded is that cause |
| DeliveryRetries.TransientWaits | pi-gateway/src/event-delivery.ts:284-318 | Any other failing answer costs nothing: the batch stays and the retry delay begins |
| DeliveryRetries.WokenSendsAgain | pi-gateway/src/event-delivery.ts:271-282 | After the delay, a pump still open sends exactly the batch it sent last |
| DeliveryRetries.AcknowledgedSendsOn | pi-gateway/src/event-delivery.ts:276-286 | After an acknowledgement, a pump still open sends the next batch off the front of its queue at once |
| Pump.EventDeliveryPump.constructor | pi-gateway/src/event-delivery.ts:170-192 | An empty pump; the retry limit is clamped to 0..10 |
| Pump.EventDeliveryPump.Enqueue | pi-gateway/src/event-delivery.ts:210-242 | Accepts or refuses as specified and keeps the books: what is accepted grows by exactly the event that is accepted; the expected number moves on before the buffer limit is checked |
| Pump.EventDeliveryPump.TakeBatch | pi-gateway/src/event-delivery.ts:323-334 | The loop takes exactly the greedy batch off the queue, or nothing if even that is too long |
| Pump.EventDeliveryPump.AssertReceipt | pi-gateway/src/event-delivery.ts:356-368 | The checking loop accepts exactly the matching receipts |
| Pump.EventDeliveryPump.RunTop | pi-gateway/src/event-delivery.ts:271-282 | The top of the runner's loop up to its next await |
| Pump.EventDeliveryPump.AfterSend | pi-gateway/src/event-delivery.ts:282-320 | The continuation after a reply: exactly an acknowledged batch joins what is acknowledged; otherwise the pump fails if the answer is final, with its cause, and else waits with batch and sends unchanged |
| Pump.EventDeliveryPump.AfterDelay | pi-gateway/src/event-delivery.ts:271-282 | After the retry delay, a pump still open sends its batch again |
| Pump.EventDeliveryPump.EnsureRunner | pi-gateway/src/event-delivery.ts:262-269 | Afterwards a runner is there, unless the pump is closed or has nothing to send |
| Pump.EventDeliveryPump.DrainResult | pi-gateway/src/event-delivery.ts:251-251 | `drain` returns true exactly when nothing failed and everything accepted is acknowledged |
| Pump.EventDeliveryPump.Turn | pi-gateway/src/event-delivery.ts:210-354 | Whatever happens to the pump between two awaits keeps its books: accepted == acknowledged ++ active batch ++ queue, and what is acknowledged only grows |
| Lease.BeatEndsInTime | pi-gateway/src/gateway.ts:382-397 | A heartbeat is cut off by the deadline it began under, and by the abort grace before it whenever that leaves 25 ms |
| Lease.BeatComesEarly | pi-gateway/src/gateway.ts:368-373 | When the next heartbeat is due, two thirds of the remaining lease are left |
| Lease.FirstBeatHasTime | pi-gateway/src/gateway.ts:297-301 | With at least 60 ms of lease at the claim, the first heartbeat finds more than the grace left |
| Lease.GraceIsQuarter | pi-gateway/src/gateway.ts:298-301 | The abort grace is a quarter of the lease, in whole milliseconds, kept between 25 and 5000 |
| Lease.DelayIsThird | pi-gateway/src/gateway.ts:370-373 | The delay before a heartbeat is a third of what is left of the lease, at least 1 ms and at most the interval |
| LeaseRenewal.RenewalMeaning | pi-gateway/src/gateway.ts:417-425 | The job works with the deadline that the last heartbeat answered before the fence has brought, or the one of the claim, and counts the failures since the last answer |
| LeaseRenewal.OutcomeExactlyWhen | pi-gateway/src/gateway.ts:387-450 | While nothing is decided, a step records the loss of the lease if and only if a timer goes off with no more than the grace left to the renewed deadline, or a heartbeat fails before the fence as the second in a row or within the grace of it; and a cancellation if and only if a heartbeat answered before the fence asks for it |
| LeaseRenewal.BeatSentExactlyWhen | pi-gateway/src/gateway.ts:382-416 | A heartbeat is sent exactly when a timer goes off, nothing is decided and more than the grace is left to the renewed deadline; it may take the longest time that the control timeout and the grace allow |
| LeaseRenewal.ChainGoesOn | pi-gateway/src/gateway.ts:454-457 | Until something is decided or the fence is up, exactly one heartbeat is under way or one timer is pending |
| LeaseRenewal.ReportedUnlessExcused | pi-gateway/src/gateway.ts:519-670 | No job ends without a terminal request unless the gateway was stopped, an event got lost, the lease was lost, a drain failed or the worker met an infrastructure error; `failed` comes first only after the worker threw something else |
| LeaseRenewal.SentExactlyWhen | pi-gateway/src/gateway.ts:572-591 | `completed` is sent exactly when the final drain succeeds with nothing decided and no event lost; `cancelled` and `failed` exactly when the drain for them succeeds |
| LeaseRenewal.AnswerDecides | pi-gateway/src/gateway.ts:587-626 | A refused `completed` leads to `failed`, a `cancelled` that was not accepted to another try, unless the gateway was stopped or an event got lost; otherwise the job is done |
| LeaseRenewal.CancellationGoesOn | pi-gateway/src/gateway.ts:561-610 | A recorded cancellation is reported as `cancelled` on every way, unless the job is stopped, an event gets lost or a drain fails |
| GatewayRuns.BeatsCutOff | pi-gateway/src/gateway.ts:382-450 | So it is for every heartbeat of every run |
| GatewayRuns.TwoFailuresGiveUp | pi-gateway/src/gateway.ts:436-450 | A second failure in a row gives the lease up, unless terminalization has begun: then it changes nothing |
| GatewayRuns.OutcomeWrittenOnce | pi-gateway/src/gateway.ts:356-450 | The heartbeat outcome is written at most once and never changes afterwards |
| GatewayRuns.NoBeatBehindFence | pi-gateway/src/gateway.ts:459-470 | Once terminalization has begun no heartbeat starts and the outcome is settled |
| GatewayRuns.CompletedNeverAfterLost | pi-gateway/src/gateway.ts:567-591 | `completed` is sent only while no loss or cancellation is recorded, and none is recorded later |
| GatewayRuns.AtMostOneAccepted | pi-gateway/src/gateway.ts:471-666 | At most two terminal requests, at most one of them answered with accepted; a second one follows only a first that was answered and not accepted, in one of two shapes |
| GatewayRuns.RepeatedExactlyWhen | pi-gateway/src/gateway.ts:594-626 | A second request follows a first one that was not refused if and only if a `cancelled` from the try block met an infrastructure error, with the gateway running and the buffer intact, and the drain of the catch block succeeded |
| GatewayRuns.CancelledTwice | pi-gateway/src/gateway.ts:561-565 | A run in which that happens |
| LostLease.SentUnderLossExactlyWhen | pi-gateway/src/gateway.ts:594-666 | In any run a terminal request goes out under a lost lease if and only if the lease is lost during the drain before `failed`, with nothing failed and nothing queued in the pump, and the batch in flight, if any, is acknowledged before that drain returns |
| LostLease.FailedUnderLossExactlyWhen | pi-gateway/src/gateway.ts:611-662 | For a loss in that drain: whether `failed` still goes out, decided by the pump at that moment and the one answer outstanding |
| LostLease.FailedAfterLost | pi-gateway/src/gateway.ts:611-662 | A run of child, pump and job in which that happens |
| GatewayJob.DispatchedJob.constructor | pi-gateway/src/gateway.ts:297-304 | The grace is fixed at the claim and the first heartbeat is scheduled before the worker starts; the job is valid |
| GatewayJob.DispatchedJob.Turn | pi-gateway/src/gateway.ts:356-666 | Whatever the event loop calls next keeps the job valid: an outcome once written stays, behind the fence none is written and no heartbeat starts, at most two requests are sent, and `completed` only without an outcome; an answered heartbeat renews the deadline and clears the failures, and the lease is lost exactly as stated for runs |
| Pipeline.CompletedMeansAcknowledged | pi-gateway/src/gateway.ts:567-591 | End to end: once `completed` was sent, the acknowledged delta texts of each channel are exactly the deltas the projector accepted, in order |
| Pipeline.AcknowledgedIsPrefix | pi-gateway/src/event-delivery.ts:271-354 | In every run the acknowledged text is a beginning of the accepted text, and the last acknowledged number counts the acknowledged events |
| Pipeline.ProjectorNeverMismatches | pi-gateway/src/event-delivery.ts:219-233 | In every run the pump's attempt and sequence checks never fail on what the projector emits |
| PipelineProgress.CanComplete | pi-gateway/src/gateway.ts:519-591 | For all inputs whose events pass the parser there is a run in which everything is acknowledged and `completed` is sent |
| PipelineProgress.CanCompleteUnlessTooLong | pi-gateway/src/gateway.ts:519-591 | So the run can be completed whatever the SDK sends, unless the final answer is longer than a payload may be or the numbers run out |
| PipelineProgress.RefusedExactlyWhen | pi-gateway/src/event-delivery.ts:210-242 | An open pump refuses what the projector emits exactly when it is an answer that is too long or the buffer is full |
| AccountingRuns.SlotsConserved | pi-gateway/src/mcp-accounting-extension.ts:125-181 | Per server the slots in use are the granted calls in preflight plus the recorded holders, within the limit; somebody waits only for a full server |
| AccountingRuns.ReleasedOnce | pi-gateway/src/mcp-accounting-extension.ts:495-620 | A slot is released at most once per call, exactly when the call took one and no longer occupies it; a finished call occupies none |
| AccountingRuns.EverySlotHasAnExit | pi-gateway/src/mcp-accounting-extension.ts:495-620 | Wherever a call occupies a slot, a step that frees it is possible: a running call has its watchdog armed |
| AccountingRuns.FreedExactlyWhen | pi-gateway/src/mcp-accounting-extension.ts:495-620 | A step frees the slot of a call if and only if it is a decision other than a permit, the last settlement, or the watchdog of that call; and then the slot is released once |
| AccountingRuns.GrantedInOrder | pi-gateway/src/mcp-accounting-extension.ts:143-178 | Of two calls queued for a server, the later one is granted only after the earlier one was granted or gave up |
| AccountingRuns.PermitsKeptUntilAcknowledged | pi-gateway/src/mcp-accounting-extension.ts:567-619 | A permit is forgotten exactly when a settlement of it was acknowledged |
| AccountingRuns.CallExactlyWhen | pi-gateway/src/mcp-accounting-extension.ts:513-526 | A call that is not free takes a slot at once if its server has one left and waits otherwise; a call of a discovery tool does neither and leaves the gate as it is |
| AccountingRuns.FreeCallTakesNoSlot | pi-gateway/src/mcp-accounting-extension.ts:517-526 | A free call never takes a slot and never waits for one, however the run goes on |
| AccountingRuns.SettledExactlyWhen | pi-gateway/src/mcp-accounting-extension.ts:528-619 | A permit is given exactly by a decision for it; a result begins the settlement of a permit and of nothing else; it is acknowledged exactly by a successful try, of two |
| DispatchGate.ReleaseKeeps | pi-gateway/src/mcp-accounting-extension.ts:165-178 | A release passes the slot to the first waiter of its server or frees it, and the count stays right |
| DispatchGate.AcquireKeeps | pi-gateway/src/mcp-accounting-extension.ts:143-163 | A slot is taken at once only if nobody waits for that server |
| AccountingExtension.PerServerDispatchGate.constructor | pi-gateway/src/mcp-accounting-extension.ts:128-131 | The option is clamped to 1..32 |
| AccountingExtension.PerServerDispatchGate.Acquire | pi-gateway/src/mcp-accounting-extension.ts:143-163 | A slot that is granted at once is free and nobody waits for it; otherwise the server is full and the caller is last in the queue |
| AccountingExtension.PerServerDispatchGate.Release | pi-gateway/src/mcp-accounting-extension.ts:165-178 | Hand-over to the first waiter, or one slot less in use; the gate still counts exactly the holders |
| AccountingExtension.PerServerDispatchGate.Expire | pi-gateway/src/mcp-accounting-extension.ts:154-158 | The waiter leaves the queue and no slot changes hands |
| AccountingExtension.Hooks.Turn | pi-gateway/src/mcp-accounting-extension.ts:495-620 | Whatever hook or timer comes next keeps the hooks valid: gate and hooks agree on who holds a slot, within the limit, and no slot is released twice |
| JsonPointer.EscapeRoundTrip | backend/app/agent_artifacts/canonical.py:221-222 | Unescaping as in section 4 of RFC 6901 undoes the escaping |
| DataLeaves.LeafResolves | backend/app/agent_artifacts/canonical.py:225-240 | Every leaf's pointer, evaluated as in section 4 of RFC 6901, yields that leaf's value |
| DataLeaves.PathsDistinct | backend/app/agent_artifacts/canonical.py:225-240 | Different leaves have different pointers |
| DataLeaves.EveryLeafListed | backend/app/agent_artifacts/canonical.py:225-240 | Every way down that ends in a leaf is listed, with its tokens |
| Canonical.EvidenceIdsMeaning | backend/app/agent_artifacts/canonical.py:243-257 | The evidence of a path has no id twice and exactly the ids that some reference to the path names |
| Canonical.SortFacts | backend/app/agent_artifacts/canonical.py:276-276 | The fields come in path order and are the leaves, each as often as it occurs |
| CanonicalContract.PublishSucceedsExactlyWhen | backend/app/agent_artifacts/canonical.py:260-294 | Publishing raises if and only if a numeric leaf has no evidence, outside the direct mode |
| CanonicalContract.PublishedSaysWhatIsKnown | backend/app/agent_artifacts/canonical.py:260-294 | Published fields and leaves correspond: a field is unavailable exactly for null, partial exactly for another value whose path is among the partial ones, complete otherwise, and carries each id that references to its path name, once |
| CanonicalContract.PublishedIsAccepted | backend/app/agent_artifacts/canonical.py:119-205 | What publishing returns passes the validators of the fields and of the payload |
| CanonicalContract.AcceptedFieldIsLeaf | backend/app/agent_artifacts/canonical.py:157-205 | In an accepted, non-empty contract every path resolves in the data to a leaf with the value of its field |
| CanonicalContract.AcceptedCoversLeaf | backend/app/agent_artifacts/canonical.py:191-205 | And every leaf of the data has a field with its value: the contract is the leaf map |
| CanonicalContract.ExactExceptBooleans | backend/app/agent_artifacts/canonical.py:199-204 | An accepted contract is exactly the leaf map of its data if and only if no field differs from its leaf in being a boolean |
| CanonicalContract.TrueAcceptedForOne | backend/app/agent_artifacts/canonical.py:202-204 | A field that says true is accepted for a leaf that is 1 |
| CanonicalPublisher.WalkDataLeaves | backend/app/agent_artifacts/canonical.py:225-240 | The recursive closure appends exactly the leaves, in document order |
| CanonicalPublisher.EvidenceIdsByPath | backend/app/agent_artifacts/canonical.py:243-257 | The nested loops build the evidence of every path |
| CanonicalPublisher.PublishCanonical | backend/app/agent_artifacts/canonical.py:260-294 | The loop returns the specified fields and lineage, or raises |
| EvidenceChain.VerifyMeaning | backend/scripts/b7_evidence.py:361-395 | Verification reports nothing exactly for a terminated chain: canonical, numbered, linked, self-hashed |
| EvidenceChain.HeadMeaning | backend/scripts/b7_evidence.py:393-399 | With an expected head it must also end in the hash that `head` reports |
| EvidenceChain.ReportedExactlyWhen | backend/scripts/b7_evidence.py:361-399 | Which error is reported: of every record whether it is no JSON, not canonical, out of its place, not linked to the last hash before it, or not true to its own hash; of the file, a missing line end or another head |
| EvidenceChain.AppendKeepsClean | backend/scripts/b7_evidence.py:314-338 | Appending to a clean file succeeds, adds one record at the end and leaves it clean |
| EvidenceChain.WriterRoundTrip | backend/scripts/b7_evidence.py:314-338 | A file written by appends only is clean and holds what was appended, in order |
| EvidenceChain.HeadDeterminesRecords | backend/scripts/b7_evidence.py:361-395 | Two files that verify clean against one head hold the same records |
| EvidenceChain.TailDeletionNeedsHead | backend/scripts/b7_evidence.py:361-367 | Every beginning of a chain is a chain: without a head a cut-off end goes unnoticed |
| EvidenceWriter.EvidenceWriter.ReadLast | backend/scripts/b7_evidence.py:300-312 | The count and last hash, or an exception |
| EvidenceWriter.EvidenceWriter.Append | backend/scripts/b7_evidence.py:314-338 | One frame more, built on the last one, or nothing written |
| EvidenceWriter.EvidenceWriter.CheckLine | backend/scripts/b7_evidence.py:376-392 | No problems exactly for a canonical line that is numbered, linked and self-hashed; otherwise the specified ones, and the hash that the next line must carry |
| EvidenceWriter.EvidenceWriter.Verify | backend/scripts/b7_evidence.py:361-395 | The loop reports exactly the specified errors, in order |
| Idempotency.OneEffect | backend/app/admin/gateway_service.py:160-212 | Per actor, action and key at most one effect is ever committed, and its transaction was told so |
| Idempotency.SuccessesAgree | backend/app/admin/gateway_service.py:160-212 | All successful replies under one key are the same response to the same request, backed by a committed effect: a different request never succeeds |
| Idempotency.RepliesExactlyWhen | backend/app/admin/gateway_service.py:178-211 | In every run, which reply a step gives, in terms of the table and the requests alone: success with the stored response when a transaction selects or reads the winner and the record of its actor, action and key carries the hash of its request, success with its own response exactly by its commit, a failure only by its own abort, a conflict otherwise |
| Idempotency.ReplaySucceeds | backend/app/admin/gateway_service.py:184-211 | A transaction that selects or reads the winner after the same request has succeeded is answered with the same success, and no record or effect is added |
| Idempotency.NewRequestSucceeds | backend/app/admin/gateway_service.py:187-201 | A new request whose key is free has a continuation in which its effect is committed, its response is on record, and it is told so |
| Idempotency.ConflictMeansOtherRequest | backend/app/admin/gateway_service.py:184-211 | A conflict means that another request holds the key, for every transaction whose own flush violated no other constraint |
| Idempotency.GroundlessConflictExactlyWhen | backend/app/admin/gateway_service.py:178-211 | When a conflict is decided, no other request holds the key if and only if the own flush violated another constraint and no record was there when the winner was read |
| Idempotency.OtherViolationConflicts | backend/app/admin/gateway_service.py:202-211 | An unrelated violation is reported as a conflict although no record exists |
| AdminService.GatewayAdminService.Turn | backend/app/admin/gateway_service.py:160-212 | Whatever a transaction does next keeps the table valid: effects and records are only added, together and by a commit, at most one per key; whoever finds a record of its own request is told the stored response, whoever commits its own |
| SseStream.LinesOfPieces | src/api/taskStream.ts:35-43 | Splitting a text anywhere and carrying the unfinished line over gives the same lines, also between a return and a line feed |
| SseStream.ParseSseStream | src/api/taskStream.ts:34-44 | What the read loop hands out depends on the text only, not on its chunks |
| SseStream.FrameRoundTrip | src/api/taskStream.ts:20-32 | A frame is read back as it was written if and only if its data does not begin with an empty line |
| SseStream.SentFrameRoundTrip | src/api/taskStream.ts:34-44 | The same of the text that is sent: it is parsed into the frame that was written if and only if the data does not begin with an empty line |
| SseStream.TrailingEvent | src/api/taskStream.ts:42-43 | The end of the input hands out one more event exactly when a line after the last blank one added data |
| SseStream.EitherLineEnd | src/api/taskStream.ts:38-39 | Lines that end in a line feed, or in a return and a line feed, also mixed, come out as they went in |
| SseStream.FrameWithEitherLineEnd | src/api/taskStream.ts:34-44 | So a sent frame is parsed into the frame that was written whichever line ends carried it, if and only if its data does not begin with an empty line |
| SseStream.IgnoredLinesChangeNothing | src/api/taskStream.ts:25-31 | Comments and fields other than id, event and data change no event |
| RunTheorems.FoldIsFresh | src/state/agentEvents.ts:460-485 | Any replayed or reordered stream has the effect of its strictly newer subsequence, applied without a check |
| RunTheorems.FreshIncreases | src/state/agentEvents.ts:461-461 | That subsequence is strictly increasing and of one run |
| RunTheorems.FoldTwice | src/state/agentEvents.ts:460-485 | Folding a stream a second time changes nothing |
| RunTheorems.ThinkingIsWhatWasSaid | src/state/agentEvents.ts:188-206 | The shown thinking is the text of the events that count, in order |
| RunTheorems.CallsAndStepsAgree | src/state/agentEvents.ts:139-152 | Tool calls and tool steps show the same number of calls in every status, for any stream |
| RunTheorems.ResultsInOrder | src/state/agentEvents.ts:212-246 | The tool calls shown are those begun by the events that count, and the results that found a call waiting belong to them in order |
| RunTheorems.StatusIsLastAnnounced | src/state/agentEvents.ts:154-448 | The status shown is the one announced last by the events that count, or running once thinking or a tool call has begun; the stream is closed exactly once a terminal event has come |

## Left out

- ExportCache.Step: `get_or_build` is cut at its awaits into steps over values rather than written as one method with a loop, because callers interleave at every await; error codes, completion times and `.tmp` files are not kept.
- Export cache keys: `export_cache_key` and the renderer are not modelled; a key is the pair of version and template version, rendering is a function of it.
- Database retries: the exponential back-off is not modelled, only its budget of five.
- Projection.UsageKey: the fingerprint of a usage object without ids is compared field by field, not as the joined string.
- Projection.ProjectFrame: which SDK objects count as usage and which aliases name a token count is resolved before the model, which takes for granted where it matters that strings and counts have passed `safeString` and `integer` (`ProjectorAcceptance.SafeInput`); diagnostics counters are not kept.
- Protocol.EventAccepted: nested payload values are known by their serialized size only, so sensitive keys are looked for at the top level; an event id is a pair of attempt and number, so other spellings of the same number are not told apart.
- DeliveryRuns.StrandedWithoutDrain: the gap lies between two microtasks; only an enqueue from a promise continuation that runs in between falls into it, not one from the callback of a message.
- Delivery.Settled: an acknowledgement sets the last acknowledged number and clears the batch in one step; in the program a microtask lies between the two.
- DeliveryRuns.CanDrain: says that a completing schedule exists; that timers fire and replies arrive is left to the environment.
- Pump.EventDeliveryPump: back-off lengths, diagnostics, the queue's high-water mark and the second attempt check, which can never fail, are not modelled; whether a retry is allowed is an input.
- Gateway.Job: the path without a pump (a bounded buffer), worker process ids and the pool are not modelled; the result of a drain is an input there and the pump's answer in `PipelineSteps`.
- PipelineSteps.Enabled: workers expose the end of their run; a handle without one would report `completed` without waiting for events.
- AccountingHooks.Call: name resolution against bindings and the contents of permits and metadata are not modelled, nor is `classifyMcpFailure`, a chain of tests.
- Canonical.FieldOf: units are not modelled; NaN, which differs from itself, and non-string keys are not either.
- EvidenceFiles.Line: a line that is JSON but no object, for which verification itself raises, is not modelled; a sequence that is a float, or true, is not told from an integer, nor a record hash that is null from one that is missing.
- EvidenceWriter: fsync and directory entries, corrections (ordinary appends) and the cross-file checks are not modelled.
- Idempotency.State: records are never deleted; the model of a response is the response itself, not its JSON.
- SseStream.ParseSseStream: works on decoded text; the decoder's own buffering of split characters is not modelled.
- RunReducer.Apply: drafts, review details, labels, durations and error texts are not modelled.
- Secrets, signing, process spawning, the worker pool, configuration and the user interface are not modelled.
