# From packets to forecasts: a verified model

This project models the telemetry path of a network-monitoring system: an agent turns packets into
flows and flows into 10-second states, delivers the states to a central service over an unreliable
network, and the service keeps a history and a forecast per sensor; training code cuts state tables
into windows and chooses operating thresholds. `dafny verify dfyconfig.toml` checks everything.

How the modules build on each other:

- **Delivery, agent to central.** `Telemetry` numbers batches, `DiskBuffer` is the bounded ordered
  queue (`BatchNames` shows that its file names sort as its numbers do), `SensorAgents` sends,
  queues, retries and puts back. `RateLimit`, `SensorRegistries`, `StateBuffers`, `SensorRuntime`
  and `Endpoint` are the receiving side; `CentralRuns` is the service under any traffic. `Delivery`
  puts both sides and a network that loses requests and replies and delivers stale copies into one
  step system, with states collected at any moment, crashes and restarts of either side and
  corrupted files. `DeliverySafety` (order, at-most-once, no conflict on a live request),
  `DeliveryFates` (one fate per sequence number), `DeliveryStates` (conservation of states) and
  `DeliveryBackoff` (the retry schedule) are its theorems; `SpilledStates` says exactly when an
  accepted state is lost, `OversizeBatches` why at-most-once needs a condition, and `RefusedBatches`
  exactly which batches central refuses for good.
- **Packets to states.** `PacketEvents` normalises events, `FlowBuilders` is the bounded flow table,
  `FlowSegments` proves what it computes key by key. `NetworkStates` aggregates flows into states,
  `Collectors` emits them on a completion watermark, `Emissions` proves what is emitted whatever
  the callback answers, and `EmissionRuns` holds the runs that fall short. `AgentRuns` makes the
  agent's deque that callback and runs collector and delivery together. `SourceActivities` is the
  second aggregation, in batch and as a stream.
- **Training and policy.** `Windowing` builds input windows, `WindowTheorems`, `FilteredTables`,
  `FilteredWindows` and `StateTargets` prove what they contain and exactly when the builders agree. `OperatingPolicies`
  sweeps thresholds and selects modes.
- `Prelude` holds sequence functions shared by all, `SortedLists` the sorted keys of a grouping.

Objects that the program updates in place are classes whose methods are proved against
specification functions on values; the theorems are lemmas about those functions. Timestamps are
integer microseconds, real numbers stand for floats. The inference function, clocks, jitter, the
responses of the network and the order in which a process happens to list a set of flags are
parameters; a batch stands for its own hash. `log`, `taken`, `packets`, `completed`, `emitted`,
`built` and the like are histories that the theorems speak of; the program keeps only their lengths
or summaries.

Where the code and its own description differ, or a promise holds only under a condition:

- A batch given up at a full buffer loses its number and its states are sent again under another.
  If its direct request had reached central, the states are sent twice; this happens exactly for
  batches over the byte limit (`DirectIsAbandonedExactlyIfOversize`), and then a state can be
  committed twice (`OversizeStateIsCommittedTwice`).
- Putting a batch back is meant to lose nothing. Packets are captured on a thread of their own
  (src/telemetry/live.py:225-276), so states are also collected while a batch is on its way; if the
  deque has filled up by the time the batch is put back, the newest accepted states fall off it
  (`StatesSpillExactly`, `StatesCollectedMeanwhileAreLost`).
- The agent cuts batches by number and time only, while central takes no batch across a midnight or a
  gap and refuses it for good: its states are lost (`RefusedForGoodExactly`, `MidnightDecides`,
  `IncoherentStatesAreLost`).
- `_emit_due` starts over after a refusing callback, so a call that takes a state and then refuses
  one emits it again (`EmissionIsBatchAggregation`, `StateIsEmittedTwice`), and the agent collects it
  again (`CollectedExactlyOnce`, `InterruptedExactlyByRoom`); a call that refuses its first state is
  repeated without harm.
- The final flush drops flows of windows already emitted (`FlushLosesExactlyStaleFlows`,
  `FlushLosesFlow`).
- The one-step builder returns an extra window for a group whose last row has its target marked
  available, as happens when a split ends inside a day (`OneStepBuildersAgreeExactly`,
  `OneStepBuildersDiffer`).
- Dropping unavailable rows before windowing, as the training scripts do, fails or gives other windows
  than skipping them inside when they are not at the end of their group
  (`FilteringFirstAgreesExactly`, `LeadingRowMatters`).
- FPR(balanced) can exceed FPR(sensitive) when the balanced mode falls back to rows above 0.25
  (`ModesAreOrdered`, `ModesOutOfOrder`).

## Model

| member | source | states |
|---|---|---|
| `Telemetry.TelemetryBatcher.Build` | src/agent/telemetry.py:93-130 | no states, more than the batch size or 60, or more than 120 source rows are refused and take no number; an accepted batch takes the next number, and the persisted number is the one after it before the envelope is handed out |
| `BatchNames.NameOrderIsDeliveryOrder` | src/agent/buffer.py:58-59 | file names are injective, and for numbers of one printed width, in particular all below 10^20, listing order is numeric order |
| `BatchNames.ListingIsOrdered` | src/agent/buffer.py:58-59 | below 10^20 a directory listing is sorted by name if and only if it is the queue in increasing sequence order, the order the other modules assume |
| `BatchNames.NameOrderExactly` | src/agent/buffer.py:140 | for any two numbers, exactly when the smaller one is listed first, whatever their printed widths |
| `BatchNames.OrderBreaksAtTwentyOneDigits` | src/agent/buffer.py:140 | at 10^20 the listing order and the numeric order part ways: the first 21-digit name is listed before its predecessor |
| `DiskBuffer.MakeSpaceDropsShortestPrefix` | src/agent/buffer.py:146-152 | making room removes the shortest oldest prefix that leaves enough room and counts exactly its files and bytes; REJECT_NEW removes nothing |
| `DiskBuffer.DropOldestAlwaysStores` | src/agent/buffer.py:119-158 | under DROP_OLDEST a new envelope within the byte limit is always stored, the shortest oldest prefix is evicted and counted, and both limits hold afterwards |
| `DiskBuffer.RejectNewStoresExactlyWithSpace` | src/agent/buffer.py:146-158 | under REJECT_NEW an envelope is stored exactly when there is already room; otherwise the queue is as before |
| `DiskBuffer.FailedEnqueueChangesNothing` | src/agent/buffer.py:132-158 | an enqueue that stores nothing leaves the queue and its counters as they were; on an empty queue it fails for space exactly for an envelope over the byte limit |
| `DiskBuffer.InsertKeepsOrder` | src/agent/buffer.py:58-59 | storing a new name keeps the listing sorted and adds no file but the new one |
| `DiskBuffer.PeekShowsSmallestReadable` | src/agent/buffer.py:160-175 | the batch shown is that of the readable file of smallest sequence, and there is none exactly when no file is readable; exactly the unreadable files before it have been quarantined and counted |
| `DiskBuffer.DiskTelemetryBuffer.EnqueueBatch` | src/agent/buffer.py:132-158 | the eviction loop terminates and leaves the queue, the counters and the outcome of the specified enqueue |
| `DiskBuffer.DiskTelemetryBuffer.PeekBatch` | src/agent/buffer.py:160-175 | the quarantine loop terminates and leaves the specified queue and head |
| `DiskBuffer.DiskTelemetryBuffer.PopBatch` | src/agent/buffer.py:192-195 | removes the file of that sequence and nothing else |
| `DiskBuffer.DiskTelemetryBuffer.RejectBatch` | src/agent/buffer.py:177-190 | records the rejected sequence; the queue is untouched |
| `DiskBuffer.DiskTelemetryBuffer.SizeBytes` | src/agent/buffer.py:66-75 | the total of the file sizes |
| `DiskBuffer.DiskTelemetryBuffer.constructor` | src/agent/buffer.py:31-56 | a new process finds files and rejection records and starts its counters at zero |
| `SensorAgents.FlushAccountsForPrefix` | src/agent/client.py:264-308 | a flush terminates, leaves an order-preserving suffix of the queue, accounts for each removed file once (delivered, rejected or quarantined) and stops early only at one transient failure |
| `SensorAgents.FlushBacksOffExponentially` | src/agent/client.py:289-293 | after k transient failures since the last success the delay is min(base * 2^k, max), and a flush that fails schedules the next try that far off |
| `SensorAgents.PutBackIsExactlyInverse` | src/agent/client.py:405-414 | putting a batch back at the left end of the bounded deque restores it if and only if everything fits |
| `SensorAgents.DrainLosesNoState` | src/agent/client.py:390-419 | with nothing collected meanwhile: the batches handed over, then what is still pending, are exactly what was pending, in order; one number per batch, and one more exactly when the drain ended at a full buffer |
| `SensorAgents.SensorAgent.TakeState` | src/agent/client.py:355-364 | a state is refused exactly when the deque is full and is otherwise appended and counted |
| `SensorAgents.SensorAgent.SubmitStates` | src/agent/client.py:198-240 | with files queued the new batch goes behind them unsent; otherwise it ends delivered, recorded as rejected, queued or refused for space, as its response says |
| `SensorAgents.SensorAgent.EnqueuePayload` | src/agent/client.py:242-262 | counts a buffered batch only when the queue took it |
| `SensorAgents.SensorAgent.SettleHead` | src/agent/client.py:272-308 | how one flushed request changes queue, counters, delay and schedule |
| `SensorAgents.SensorAgent.FlushBuffer` | src/agent/client.py:264-308 | before the scheduled time nothing happens; after it the whole delivery loop, with the number delivered |
| `SensorAgents.SensorAgent.Restore` | src/agent/client.py:409-410 | pushing states back one by one from the last is putting them back in their original order, overflow falling off the right end |
| `SensorAgents.SensorAgent.DrainOnce` | src/agent/client.py:399-419 | one drain round: submit at most a batch, put it back on a full buffer, restart the batch timer otherwise |
| `SensorAgents.SensorAgent.DrainPending` | src/agent/client.py:390-419 | the drain loop terminates in the state of the specified drain |
| `SensorAgents.SensorAgent.constructor` | src/agent/client.py:129-175 | an agent starts over whatever files and sequence number it finds, with nothing pending |
| `RateLimit.AtMostLimitPerWindow` | src/platform/rate_limit.py:24-33 | every closed 60-second interval holds at most `limit` admissions of a key, over any requests on a non-decreasing clock |
| `RateLimit.RoomExactlyWhenWindowIsNotFull` | src/platform/rate_limit.py:24-33 | the pruned history has room exactly when the 60 seconds up to now hold fewer than `limit` admissions |
| `RateLimit.RoomDecidesExactly` | src/platform/rate_limit.py:24-33 | a request is refused exactly when the 60 seconds up to it already hold `limit` admissions |
| `RateLimit.RoomSurvivesPruning` | src/sensors/registry.py:275-285 | room found by a looking request is still there for the consuming one that follows, whatever both clocks say |
| `RateLimit.DropExpired` | src/platform/rate_limit.py:29-30 | the popleft loop terminates and drops exactly the leading entries before the cutoff |
| `RateLimit.SlidingWindowRateLimiter.Check` | src/platform/rate_limit.py:24-33 | admits exactly when the last 60 seconds hold fewer than `limit` admissions of the key and records the admission |
| `SensorRegistries.CheckedBatchIsCommitted` | src/sensors/registry.py:287-328 | inside one transaction a batch judged fresh with room in the window is always committed, and only its own sensor changes |
| `SensorRegistries.RegistryWindowIsExact` | src/sensors/registry.py:265-285 | the registry window, looking and consuming requests mixed, meets the specification of the limiter |
| `SensorRegistries.SensorRegistry.CheckDelivery` | src/sensors/registry.py:318-328 | answers new, duplicate or conflict from the last committed batch and changes nothing |
| `SensorRegistries.SensorRegistry.CheckCapacity` | src/sensors/registry.py:275-285 | looks at the window without consuming a slot |
| `SensorRegistries.SensorRegistry.AcceptBatch` | src/sensors/registry.py:287-316 | commits a fresh batch into its sensor record after the rate check; a duplicate or conflict changes no record |
| `SensorRegistries.SensorRegistry.AcceptBeat` | src/sensors/registry.py:345-383 | a heartbeat only raises the reported sequence numbers and never touches the committed ones |
| `StateBuffers.StateBuffer.PushState` | src/streaming/state_buffer.py:51-109 | refuses earlier or equal times, resets at a later day, holds a gap back, and returns the last ten states whenever there are ten |
| `SensorRuntime.RunLengthIsLongest` | src/sensors/runtime.py:156-190 | RunLength, defined on the log of accepted states, is the length of its longest same-day gap-free suffix |
| `SensorRuntime.HistoryAndForecastFollowLog` | src/sensors/runtime.py:144-191 | after any ingest calls the history length is min(10, that length), a forecast is present exactly when it is 10, and it is the forecast of exactly the last ten accepted states |
| `SensorRuntime.WholeBatchOrNothing` | src/sensors/runtime.py:156-191 | a coherent batch is accepted whole or leaves the accepted states as they were; it is accepted exactly when its first state is later than the last accepted one |
| `SensorRuntime.IngestFromMovesForward` | src/streaming/state_buffer.py:74-80 | accepted states strictly move forward in time, so none is accepted twice |
| `SensorRuntime.RemoteSensorRuntime.AcceptState` | src/sensors/runtime.py:157-190 | one state: pushed, or pushed again after a reset on a gap, with length and forecast as specified |
| `SensorRuntime.RemoteSensorRuntime.IngestStates` | src/sensors/runtime.py:144-200 | states are taken in order up to the first that is malformed or refused |
| `SensorRuntime.RemoteSensorRuntimeStore.RuntimeFor` | src/sensors/runtime.py:274-287 | a sensor gets a runtime of its own unless the store is full; no other runtime changes |
| `SensorRuntime.RemoteSensorRuntimeStore.IngestFor` | src/sensors/runtime.py:289-297 | ingestion changes the runtime of that sensor only |
| `Endpoint.AdmissionIsAtomic` | src/api/app.py:810-902 | once checked, a batch is committed in the registry and whole in the runtime, or neither: no commit fails after ingestion |
| `Endpoint.OtherSensorsAreUntouched` | src/api/app.py:722-925 | a request authenticated as one sensor changes nothing kept about any other |
| `Endpoint.RequestCommitsOrLeavesAlone` | src/api/app.py:722-925 | for every request: ACCEPTED means a later sequence committed with exactly its states appended, any other reply leaves record and accepted states alone, a duplicate is the last committed batch, a conflict an older or different one |
| `Endpoint.CheckCoherence` | src/api/app.py:749-758 | the loop with its previous state accepts exactly the batches that stay on their claimed day ten seconds apart |
| `Endpoint.CheckSources` | src/api/app.py:830-842 | the counting loop refuses exactly when some interval has more source rows than the limit |
| `Endpoint.TelemetryService.IngestRemoteTelemetry` | src/api/app.py:722-925 | registry, runtimes and reply of the specified request handling |
| `CentralRuns.RuntimesHoldExactlyTheCommits` | src/api/app.py:763-902 | over every interleaving of requests, heartbeats and restarts: committed sequences of a sensor strictly increase, the registry holds the last, and its runtime has accepted exactly the states of the batches committed since the last restart |
| `CentralRuns.ForecastsFollowTheCommits` | src/sensors/runtime.py:156-190 | over every such run the cached forecast is that of the last ten accepted states exactly when they are gap-free on one day |
| `CentralRuns.AcceptedStatesMoveForward` | src/streaming/state_buffer.py:74-80 | over every such run a runtime accepts no state twice |
| `Delivery.PartsMakeARound` | src/agent/client.py:390-419 | with nothing collected in between, numbering a batch, dispatching it and resuming with the response add up to a drain round of the agent |
| `Delivery.CollectingDuringPutBack` | src/agent/client.py:405-414 | a state that the capture thread delivers in the middle of a put-back ends exactly as one delivered just before it, or is refused as just after it, so the put-back can be one step |
| `Delivery.HalvesMakeAFlush` | src/agent/client.py:264-308 | the protocol actions that begin and end a flushed request add up to the flush loop of the agent |
| `DeliverySafety.RunIsSafe` | src/agent/client.py:198-308 | the invariant of every run: files, requests and numbers in order on the agent, commits ordered and genuine at central |
| `DeliverySafety.LiveRequestNeverConflicts` | src/sensors/registry.py:318-328 | with lost requests, lost replies, stale copies, crashes and either overflow policy, a request the agent waits on is never answered with a sequence conflict |
| `DeliverySafety.CommitsAreOrderedAndGenuine` | src/sensors/registry.py:287-316 | in every run the committed sequences strictly increase, each commit is the batch built under its number, and the runtime holds exactly the states committed since central last started |
| `DeliveryFates.EveryNumberHasOneFate` | src/agent/client.py:198-308 | in every run each number below the next has exactly one fate: in flight (numbered and not settled), delivered (and committed), queued (the files), evicted (as many as counted), refused (the rejection records), quarantined (as many as counted), abandoned or lost at a crash |
| `DeliveryStates.CollectedStatesAreConserved` | src/agent/client.py:390-419 | in every run, states collected at any moment included: the states of the batches not abandoned, in number order and with those pending at each crash, followed by the pending ones, are exactly the collected states that were not spilled, in order; with none spilled, all collected states |
| `DeliveryStates.DirectIsAbandonedExactlyIfOversize` | src/agent/client.py:405-414 | a direct send leaves its states both sent and pending if and only if its failure is transient and the batch is over the byte limit of the disk |
| `DeliveryStates.StatesAreCommittedAtMostOnce` | src/sensors/registry.py:287-316 | when no batch is over that limit, the states committed at central over all restarts are a subsequence of the collected, not spilled ones: each at most once, in order |
| `SpilledStates.QueueIsFullExactly` | src/agent/buffer.py:144-152 | the newest batch is refused by the queue if and only if it is over the byte limit, or REJECT_NEW is set and there is no room |
| `SpilledStates.StatesSpillExactly` | src/agent/client.py:399-414 | after any run an action loses accepted states if and only if it ends a drain round at a full buffer while the batch and the pending states exceed the bounded deque; it loses exactly the excess, from the newest end |
| `SpilledStates.StatesCollectedMeanwhileAreLost` | src/agent/client.py:355-414 | for every batch size and every oversize envelope there is a run that accepts states during a direct request and loses all of them when it is put back |
| `DeliveryBackoff.DelayFollowsResponses` | src/agent/client.py:289-307 | in every run, restarts included, the retry delay is min(base * 2^k, max) for the k transient failures of flushed requests since the last delivered one |
| `DeliveryBackoff.NextTryIsScheduledExactly` | src/agent/client.py:289-307 | in every run the next try is moved only by a transient failure, to that delay plus the jitter after it, and cleared only by a delivery or a restart |
| `OversizeBatches.OversizeStateIsCommittedTwice` | src/agent/client.py:405-414 | without the limit the claim fails: for every oversize envelope there is a run that commits one collected state twice |
| `RefusedBatches.RefusedForGoodExactly` | src/api/app.py:749-758 | in every run central refuses the live request in validation, with a 422 that is never retried and whatever it keeps and its clocks say, exactly if a state lacks a feature or the states of the batch leave their day or have a gap |
| `RefusedBatches.HeardRefusalIsFinal` | src/agent/client.py:226-238 | once the agent has heard that, the number is refused and recorded as rejected, its file is gone, its states are not pending again and nothing has been committed |
| `RefusedBatches.UnacceptableIsNeverDelivered` | src/api/app.py:722-925 | in every run a batch with a missing feature, a gap, a midnight or too many source rows of one interval is never committed and its number never counts as delivered |
| `RefusedBatches.AcknowledgedExactlyIfAcceptable` | src/api/app.py:722-925 | the live request of any run, answered by a service that has just restarted, is acknowledged if and only if its batch is acceptable, whatever the clocks say |
| `RefusedBatches.MidnightDecides` | src/api/app.py:749-758 | with states spaced as the collector spaces them, a live request is refused for good exactly if a state lacks a feature or a midnight lies between the first and the last state of its batch |
| `RefusedBatches.IncoherentStatesAreLost` | src/agent/client.py:390-419 | for all states with a midnight or a gap among them, up to a batch full, there is a run in which all were collected, none spilled, and none is pending, queued or committed |
| `AgentRuns.CollectedAreEmitted` | src/agent/client.py:355-364 | with the bounded deque as the state callback and the delivery protocol, crashes included, acting before any state of a call: the collected states are, in order, exactly those handed over, so a state emitted twice is collected twice |
| `AgentRuns.CollectedExactlyOnce` | src/agent/client.py:355-364 | in every such run each aggregated state is collected exactly once, but for those still waiting, if and only if no call took a state and then met a full deque |
| `AgentRuns.InterruptedExactlyByRoom` | src/agent/client.py:356-358 | a call during which the delivery loop does nothing is so interrupted exactly if the deque has room for the first of the due states and not for all |
| `AgentRuns.CommittedAreAggregated` | src/agent/collector.py:38-62 | without such a call and without a batch over the byte limit, the states committed at central are a subsequence of the aggregation of the completed flows: each at most once, in order |
| `PacketEvents.FlagTokensAreStable` | src/streaming/source_activity.py:49-60 | flag tokens that are normalised already stay as they are, listed in any order |
| `PacketEvents.FlagsAreTokens` | src/streaming/source_activity.py:49-60 | every normalised flag is an upper-case word without separators and not an alias |
| `PacketEvents.NormalizeIsIdempotent` | src/streaming/source_activity.py:72-101 | normalising a normalised event gives the same event |
| `PacketEvents.KeysJoinDirections` | src/streaming/source_activity.py:117-124 | two packets share a key exactly when they join the same two addresses, in either direction, under the same protocol |
| `FlowBuilders.AddKeepsSummary` | src/streaming/flow_builder.py:67-92 | adding a packet to the summary of a packet list gives the summary of the longer list, for every counter and both lists |
| `FlowBuilders.ActiveFlow.AddPacket` | src/streaming/flow_builder.py:67-92 | a packet from the past is refused and changes nothing; any other updates every counter as specified |
| `FlowBuilders.ActiveFlow.MakeRecord` | src/streaming/flow_builder.py:98-128 | the record reports the counters of the flow without changing it |
| `FlowBuilders.FlowBuilder.CloseDueFlows` | src/streaming/flow_builder.py:188-197 | exactly the flows idle or active too long leave, in table order, with their reasons; the others stay in order |
| `FlowBuilders.FlowBuilder.TakePacket` | src/streaming/flow_builder.py:209-227 | after the sweep the packet joins or opens the flow of its key, or is refused for space; RST or FIN closes that flow |
| `FlowBuilders.FlowBuilder.FeedEvent` | src/streaming/flow_builder.py:199-227 | one event: table, records and error of the specified step |
| `FlowBuilders.FlowBuilder.FlushFlows` | src/streaming/flow_builder.py:229-235 | all tracked flows are returned in table order and the table is empty |
| `FlowSegments.BuilderStaysSound` | src/streaming/flow_builder.py:188-235 | after any events: created = closed + tracked, tracked at most the bound, distinct keys in order of first timestamps (so the stable sort of the sweep is the identity), every record the summary of its own packets |
| `FlowSegments.FeedKeepsSound` | src/streaming/flow_builder.py:199-227 | no event meets a backwards flow, and one refused for overflow closed nothing, so no record is lost |
| `FlowSegments.RecordsAreSegments` | src/streaming/flow_builder.py:188-235 | for any events at all the records of each key are the segments of its own accepted packets, cut by its own gaps, spans and endings |
| `FlowSegments.CutsAreForced` | src/streaming/flow_builder.py:190-193 | a conversation is cut only where the earlier segment is over by the time of the next packet |
| `FlowSegments.PacketsAreConserved` | src/streaming/flow_builder.py:188-235 | the packets of the records of a key, one after another, are its accepted packets in order |
| `FlowSegments.EagerSweepChangesNoRecord` | src/streaming/flow_builder.py:188-235 | the records of each key, apart from their close reasons, are those of a builder fed only the events of that key |
| `FlowSegments.RecordsAreBounded` | src/streaming/flow_builder.py:67-128 | in every record both directions add up, gaps are positive, below the idle timeout and sum to the duration, the duration is below the active timeout, and only the last packet may carry RST or FIN |
| `NetworkStates.IndexIsComplete` | src/features/network_state.py:119-136 | the index is, in order, exactly the windows between flows of their own day, one interval apart within a day |
| `NetworkStates.EveryFlowIsCountedOnce` | src/features/network_state.py:161-208 | the flow counts of all states add up to the number of flows |
| `NetworkStates.AggregatedStatesAreOrdered` | src/features/network_state.py:161-248 | aggregated states are strictly later each time, one interval apart within a day, on the day of their timestamp |
| `NetworkStates.AppendExtendsIndex` | src/features/network_state.py:119-136 | a flow no earlier than all others extends the index at its end, filling empty windows of its day |
| `NetworkStates.CompleteStateIndex` | src/features/network_state.py:119-136 | the loop over days and date ranges builds that index |
| `NetworkStates.AggregateNetworkStates` | src/features/network_state.py:139-254 | refuses an unsupported interval, a date mismatch or no flows; otherwise one state per index window from the flows of that window |
| `Emissions.EmissionIsBatchAggregation` | src/agent/collector.py:47-107 | over every run, whatever the callback answers: emitted states followed by the pending ones are exactly the batch aggregation of all completed flows if and only if no call takes the first state it is offered and refuses a later one of the states due; otherwise they are longer by exactly the states such calls took; with nothing refused at most one state is pending |
| `Emissions.QueueIsFullExactly` | src/agent/collector.py:54-62 | an event is answered with a full state queue exactly if the callback refuses one of the states that the event makes due |
| `Emissions.EmissionIsRegular` | src/agent/collector.py:54-62 | in every run without such a call emitted timestamps strictly increase and are exactly ten seconds apart within a day |
| `Emissions.EveryCompletedFlowIsCounted` | src/agent/collector.py:64-86 | in every run without such a call every completed flow is counted in exactly one emitted or pending state |
| `Emissions.CompletedFlowsAreRecords` | src/agent/collector.py:98-103 | the completed flows are as many as the records the builder has closed |
| `Emissions.RefusedEmissionStartsOver` | src/agent/collector.py:59-62 | after a refusal the next emission for the same watermark starts over: the states taken before the refusal are emitted again, and there are some exactly if the callback took the first |
| `EmissionRuns.StateIsEmittedTwice` | src/agent/collector.py:47-62 | a run of three events in which the callback receives the state of one window twice |
| `Emissions.FlushLosesExactlyStaleFlows` | src/agent/collector.py:109-125 | after any run without such a call a flush that is accepted hands over a state for the window of a flow still open exactly if that window was not emitted before; the flows of the other windows are lost and every flow not lost is counted in exactly one emitted state |
| `EmissionRuns.FlushLosesFlow` | src/agent/collector.py:109-125 | a run with an accepting callback in which three flows complete and only two are counted after the flush |
| `Collectors.AgentCollector.EmitDueStates` | src/agent/collector.py:54-62 | emits the due states until one is refused and drops their windows only if none was |
| `Collectors.AgentCollector.AcceptFlows` | src/agent/collector.py:64-86 | each completed flow enters the window of its completion time |
| `Collectors.AgentCollector.IngestEvent` | src/agent/collector.py:88-107 | one event: builder, windows, emitted states and outcome of the specified step |
| `Collectors.AgentCollector.FlushCollector` | src/agent/collector.py:109-125 | the specified final flush |
| `SourceActivities.StreamingEqualsBatch` | src/streaming/source_activity.py:131-223 | for any chronological stream of valid events the emitted tables and one flush are the batch aggregation of all events, flags normalised twice included |
| `SourceActivities.StreamingEqualsTable` | src/streaming/source_activity.py:198-223 | for any stream, refused events included, they are the table of all accepted packets |
| `SourceActivities.CompletedIsTable` | src/streaming/source_activity.py:207-220 | aggregating stored events normalises and sorts them a second time without effect |
| `SourceActivities.TableGroupsEveryPacket` | src/streaming/source_activity.py:149-184 | one row for each source, interval and day that has packets, in order, with packet counts adding up to the number of packets |
| `SourceActivities.SourceActivityAccumulator.FeedEvent` | src/streaming/source_activity.py:198-215 | returns the table completed by the event; a refused event changes nothing |
| `SourceActivities.SourceActivityAccumulator.FlushEvents` | src/streaming/source_activity.py:217-223 | returns the table of the stored events and forgets them |
| `WindowTheorems.MultiStepWindowsAreExact` | src/forecasting/windowing.py:513-540 | the multi-step windows are exactly those that start at 0, stride, ... of a group and fit with their targets into it |
| `WindowTheorems.MultiStepWindowsAreOrdered` | src/forecasting/windowing.py:497-540 | the multi-step windows come group by group in sorted order and by start within a group, each once: a group of n rows has one for each of 0, stride, ... up to n - length - K |
| `WindowTheorems.MultiStepTargetsAreSpaced` | src/forecasting/windowing.py:521-538 | inputs, origin and targets of a window are rows of its own group: the i-th input is the row length - 1 - i intervals before the origin, the j-th target the label exactly j intervals after it |
| `WindowTheorems.AcceptedGroupsAreRegular` | src/forecasting/windowing.py:168-193 | in an accepted table every group runs at the fixed cadence |
| `WindowTheorems.OneStepBuildersAgreeExactly` | src/forecasting/windowing.py:317-343 | with stored next-row targets and horizon 1 both builders agree if and only if no group has a window ending at a last row marked available |
| `WindowTheorems.OneStepBuildersDiffer` | src/forecasting/windowing.py:317-343 | a table of two rows on which the one-step builder returns a window more |
| `WindowTheorems.ExtraWindowExactly` | src/forecasting/windowing.py:321-333 | when a group of n rows has such a window: n at least the length, n - length a multiple of the stride, last target available |
| `FilteredTables.FilteredIsAcceptedExactly` | scripts/train_world_model.py:71 | of an accepted table the available rows alone are accepted exactly if in no group an unavailable row lies between two available ones; otherwise the cadence check fails |
| `FilteredWindows.FilteringFirstAgreesExactly` | scripts/train_world_model.py:71 | filtering first gives the same one-step windows, in the same order, as skipping rows inside the builder, if and only if in addition each group keeps its starts: with the rows from a up to b available and a fitting window among them, a is 0, or a multiple of a stride no smaller than the length; with none fitting, no start ends among them |
| `FilteredWindows.LeadingRowMatters` | src/forecasting/windowing.py:327-333 | with stride 1 and windows of two rows or more, a leading unavailable row before a fitting window always makes the two differ |
| `FilteredWindows.FilteringFirstAgrees` | scripts/train_world_model.py:71 | in particular they agree when in each group every row but possibly the last is available |
| `StateTargets.OneStepFormsAgree` | src/features/network_state.py:241-247 | on every aggregated table, for every length and stride: one-step inside, one-step filtered first and multi-step with horizon 1 give the same inputs, targets, origins and groups |
| `StateTargets.DayIsShifted` | src/features/network_state.py:241-247 | within each day the stored target is the label of the next row, only the last row has none, and the cadence is fixed |
| `StateTargets.AddTargets` | src/features/network_state.py:241-247 | fills label, next-row target and availability row by row |
| `Windowing.MakeSequences` | src/forecasting/windowing.py:225-340 | the nested loops return the specified windows or the first error |
| `Windowing.MakeMultistepSequences` | src/forecasting/windowing.py:421-539 | the nested loops return the specified windows or the first error |
| `Windowing.FutureOf` | src/forecasting/windowing.py:522-538 | reads the next K rows of the group after the origin, in order |
| `OperatingPolicies.RatesNeverRise` | src/evaluation/world_model_metrics.py:21-33 | with both classes present neither recall nor false-positive rate rises with the threshold |
| `OperatingPolicies.AlertsAreWarnings` | src/evaluation/operating_policy.py:21-28 | the alerts of a swept threshold are as many as the scores classified as warnings |
| `OperatingPolicies.ComputeThresholdSweep` | src/evaluation/operating_policy.py:47-83 | one row per threshold from the confusion matrix, or the first error |
| `OperatingPolicies.PickIsBest` | scripts/build_operating_policy.py:96-113 | the picked row is beaten by none and beats all before it: of equal keys the first, as max and min return |
| `OperatingPolicies.ModesAreBest` | scripts/build_operating_policy.py:95-113 | each mode is one of its candidates and no candidate beats it |
| `OperatingPolicies.SensitiveIsLowestThreshold` | scripts/build_operating_policy.py:95-96 | the sensitive mode is exactly the lowest threshold with false-positive rate at most 0.25 |
| `OperatingPolicies.ModesAreOrdered` | scripts/build_operating_policy.py:98-113 | FPR(conservative) <= FPR(balanced) always, and FPR(balanced) <= FPR(sensitive) if and only if some row with recall has rate at most 0.10 or the most balanced row with recall has rate at most 0.25 |
| `OperatingPolicies.SweptModes` | scripts/build_operating_policy.py:92-114 | both results for the rows of an actual sweep |
| `OperatingPolicies.ModesOutOfOrder` | scripts/build_operating_policy.py:92-114 | a sweep of two thresholds over two states with FPR(balanced) = 1 and FPR(sensitive) = 0 |
| `OperatingPolicies.SelectionFailsExactly` | scripts/build_operating_policy.py:95-113 | selection fails exactly when a rate is missing, no rate is at most 0.25, or nothing is recalled |

## Left out

- HTTP, TLS, authentication, request schemas beyond the counted limits, audit, logging and metrics: a request is reduced to its outcome.
- The rows of source activity in a batch: only their interval starts are kept, for the per-window limit; the agent's second pending queue and the runtime's source history are not modelled.
- Enrollment, credential rotation, sensor status labels, source priorities: branch tables that keep no invariant.
- The model, the scaler and explanations: inference is an uninterpreted total function of ten states.
- Medians and standard deviations of flow and state statistics: rounding and square roots are not the point; counts, sums and means are kept.
- File-system failures inside an enqueue (partial writes, fsync, a file vanishing between two listings) and registry saves that fail: each file operation is one step; corruption of a stored file is an action of the protocol.
- The race of the capture thread for the batch timer: a state collected at the very moment a drain round restarts the timer can leave it unset, which delays the next drain and loses nothing. Taking states off the deque and putting them back are single steps (`CollectingDuringPutBack`).
- Stored files whose payload carries another sequence than their name: the invariant `Named` is assumed of the files found at start and kept.
- Unicode case folding and non-ASCII white space in flag texts, protocols and blank checks: upper-casing and splitting are those of ASCII.
- Time zones: timestamps are instants counted from a midnight and a capture day is the day number of its timestamp.
- The shutdown of an agent in the joint runs of `AgentRuns`: the final flush of the collector and the forced drain are proved on their own.
- The error strings, `_last_error` and connection status fields of agent and runtime: reporting only.
- The agent's optional source accumulator inside the collector: it is modelled on its own in `SourceActivities`.
- `generate_temporal_windows` and grouping columns other than `capture_day`: the builders in use are modelled.
- Non-numeric or non-finite table cells in windowing and aggregation: reals are always finite.
- The check in the multi-step builder that targets follow the origin: it cannot fail in an accepted table (`MultiStepTargetsAreSpaced`), so the loops do not repeat it.
- `LiveRuntimeStore` and `RealtimeEngine`: they repeat the collector and runtime ideas.
- FlowBuilders.ActiveFlow.MakeRecord: does not include the flow identifier text and the two standard deviations, which are derived display values.
- DiskBuffer.DiskTelemetryBuffer.RejectBatch: keeps the sequence of a rejection record and not its state count, status code and reason, which nothing reads back.
- DiskBuffer.DiskTelemetryBuffer.constructor: does not model the quarantine and the count of partial files left by a crash inside an enqueue, because an enqueue is one step.
- SensorAgents.SensorAgent.DrainPending: is the loop with nothing collected while it runs; states collected meanwhile are interleaved in `Delivery`.
- SensorRuntime.RemoteSensorRuntime.IngestStates: does not take in the source-activity rows that follow the states.
- Endpoint.TelemetryService.IngestRemoteTelemetry: covers of the request schema only the limits it counts, and no source history.
- NetworkStates.AggregateNetworkStates: does not include the median duration and the means of standard deviations.
- Collectors.AgentCollector.IngestEvent: does not run the source accumulator that precedes the flow builder, nor the refusal of its rows.
- Collectors.AgentCollector.FlushCollector: does not flush that accumulator.
