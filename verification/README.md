# Verified model of the WebSocket patterns

The repository's components are small asyncio state machines.  One event loop runs them, so what
lies between two suspension points is atomic.  Each component is modelled twice:

* as a machine on values (`...Model.dfy`): a `State` of what the program stores plus history
  (logs of what was accepted, popped, evicted, yielded, delivered), an `Apply` whose events are the
  atomic stretches, and `Exec`/`Reached` for whole runs.  Events come in any order; one that is not
  enabled leaves the state as it is.  So a lemma about `Reached(events)` speaks of every interleaving;
* as classes with the source's own fields and loops.  A ghost field `view` holds the state of the
  machine and `Valid()` ties the fields to it.  A method that is one atomic stretch ensures
  `view == Apply(old(view), event)`; a method that loops or suspends ensures which run its stretches
  make (`Exec`, `GoesOn`, `AfterRounds`, `AfterCloseAll`).  `Sound()` says that the view is a state the
  machine reaches; the send queue, the bus, the registry and the dashboard of `Simulation` keep it over every
  event, and `Heartbeat.RoundsAreARun` says the same of the heartbeat loop, so what is proved of runs is true of
  the objects.  (A correct handler's call of `Register` is not an event of its own but part of its first step.)

`Dashboard.ClientHandler` is a whole handler from its own side; its contract speaks of the manager's stores and of
the bus machine.  `Simulation.LiveDashboard` is all handlers of the dashboard together: its view is a state of
`DashboardModel`, each of its methods is one stretch of one coroutine, and they may be called in any order, so
the theorems of `DashboardRuns` hold of the objects (`SimulationEnds`, `SocketReceived`).

History variables never influence a step.

| files | component |
|---|---|
| `SendQueueModel`, `MessageAccounting`, `DeliveryOrder`, `SendQueueRuns`, `Drains`, `SuspendedDrains`, `DropRates`, `MapSums`, `Backpressure` | `patterns/backpressure.py`: send queues with four overflow strategies, blocked senders and concurrent drains; the controller and its totals |
| `PubSubModel`, `PubSubRuns`, `PubSubCalls`, `PubSubIndependence`, `PubSub` | `patterns/pubsub_distributed.py`: the in-memory bus, lag-based skipping, sentinels |
| `HeartbeatModel`, `Heartbeat`, `Reconnect` | `patterns/fault_tolerance.py`: the timed failure detector, the backoff schedule |
| `ShutdownModel`, `ShutdownRuns`, `ShutdownCalls`, `Shutdown` | `patterns/graceful_shutdown.py` with the handlers of `examples/graceful_shutdown_demo.py`; any number of overlapping calls of `close_all` |
| `DashboardModel`, `DashboardRuns`, `Dashboard`, `Simulation` | `examples/realtime_dashboard.py`: registry, send queues and bus in step |
| `BroadcastModel`, `Broadcast` | `benchmarks/connection_throughput.py`: broadcast rounds |
| `Options` | the Option type |

Where coroutines are suspended, what other code does meanwhile is a parameter: a sequence of events
for `drain`, `close_all`, the heartbeat loop and `client_handler`, a schedule for the concurrent drains
of a broadcast.  A random draw, a clock reading, the outcome of a send are parameters too.

## Where the code and its documentation disagree

The model follows the code.  In each case a run on which the documentation fails is given, and the
exact condition under which it holds is proved.

* A send queue is documented as a FIFO queue.  Messages are popped in order, but when two drains overlap
  the later message may reach the client first (`TwoDrainsOvertake`).  Of what the client receives: from a state
  where sends ended oldest first so far, of messages that can be told apart, the order is sure until the next
  pop if and only if at most one message is in flight (`ClientOrderIff`); with one drain at a time that is always
  so (`OneDrainDeliversInOrder`).  Of the ends of sends, delivered or not: they come in the order of the pops if
  and only if each one that ends is the oldest in flight (`EndedInOrderIff`), and the next one cannot break the
  order if and only if no two different messages are in flight (`NextEndKeepsOrderIff`).
* `messages_dropped` is documented as messages dropped.  Under DROP_OLDEST every append that leaves the
  deque full is counted, evicting or not (`DropCountedNothingLost`).  Per call: counted without eviction
  exactly when the last free place is taken.  Per run: the counter is the number of evictions exactly when
  the queue was never full.
* `messages_queued` is documented as messages successfully queued.  Under DROP_OLDEST an append that fills the
  deque is not counted although its message is queued: the counter is the number of messages that entered exactly
  when the queue was never full (`QueuedIsArrivalsIff`).
* `high_water_mark` is documented as the peak depth.  It is read before the append, so it may be one too
  low (`MarkBelowPeak`); it is the peak exactly when some enqueue call found the queue that deep, or nothing
  ever arrived (`MarkIsPeakIff`).
* `enqueue` is documented to answer True if the message was enqueued and False if it was dropped.  A full
  DROP_NEWEST queue answers True to what it drops (`DroppedButTrue`); the answer is right exactly unless
  DROP_NEWEST finds its queue full or DROP_OLDEST has no place at all (`AnswerIsTrueIff`).
* A subscriber is documented to lag when its queue is more than 80% full.  The test is
  `>= int(max * 0.8)`: with one place it lags while empty (`LagsWhileEmpty`); the two differ exactly from
  floor(80%) up to 80% (`LaggingVersusDocumented`).
* `messages()` is documented to end when the subscriber is closed.  `unsubscribe` loses its sentinel when
  the queue is full, and then the generator never ends (`LostSentinel`).  With `skip_lagging=True`
  throughout this cannot happen; in general the generator ends if and only if a sentinel was accepted
  (`EndsIffSentinelAccepted`), and the first unsubscribe delivers one if and only if the queue is not full.
* `close_all` is documented to drain all connections.  `register` does not look at the shutting-down flag:
  a handler that registers during `close_all` is left running (`LateHandlerSurvives`).  A task is sure to be
  done on return if and only if it was registered when the call started, or done already
  (`RegisteredIsWhatIsDrained`).
* A client that pongs once in every heartbeat cycle can be marked dead (`LateCheckKills`): it is safe exactly
  when `max_missed` is at least 2 or no wake-up is ever late.  One that answers every ping before the check
  may still miss one (`LateCheckMisses`): it never does exactly when nothing is later than the interval.

## Model

| member | source | states |
|---|---|---|
| SendQueueModel.ReachableInv | patterns/backpressure.py:114-196 | every reachable state of every strategy satisfies the FIFO, capacity, in-flight, counter, fill and peak invariants together |
| SendQueueRuns.FifoConservation | patterns/backpressure.py:136-196 | DROP_NEWEST, BLOCK_SENDER, DISCONNECT, any interleaving: arrivals are the pops followed by the queue; depth is at most max; queued = sent + errors + depth + in flight + cancelled in flight; what was popped is, as a multiset, what was delivered, failed, cancelled or is in flight; and while the oldest send in flight is the one that ends, deliveries are found in the pops in order |
| DeliveryOrder.EndedInOrderIff | patterns/backpressure.py:73 | over any run, sends end in the order of the pops if and only if each one that ends is the oldest in flight |
| DeliveryOrder.DeliveredInOrder | patterns/backpressure.py:182-195 | then the client receives messages at increasing positions of the history, for every strategy, whatever was evicted, failed or cancelled |
| DeliveryOrder.OneDrainDeliversInOrder | patterns/backpressure.py:182-195 | with one drain at a time it is so, while senders and enqueues interleave freely with the suspended drain |
| DeliveryOrder.OneDrainLosesNothing | patterns/backpressure.py:136-196 | lossless strategies, one drain at a time, no failed or cancelled send: arrivals = deliveries, then at most one message in flight, then the queue |
| DeliveryOrder.NextEndKeepsOrderIff | patterns/backpressure.py:189-195 | from an ordered state no send can end out of order if and only if no two different messages are in flight |
| DeliveryOrder.ClientOrderIff | patterns/backpressure.py:182-195 | from a run whose sends ended oldest first, of distinct messages: what the client receives until the next pop is sure to be in order, however the sends in flight end, if and only if at most one message is in flight |
| DeliveryOrder.TwoDrainsOvertake | patterns/backpressure.py:182-195 | a run of two overlapping drains: the second message is delivered first |
| SendQueueRuns.CallAccounting | patterns/backpressure.py:114-158 | every enqueue call is queued, dropped, refused, blocked, or was cancelled while blocked; only BLOCK_SENDER with a positive bound blocks |
| MessageAccounting.EveryMessageAccounted | patterns/backpressure.py:114-158 | over any run, message by message: what the enqueue calls were given entered the queue, waits with its sender, was turned away on arrival, or was given up with its sender; and what entered did so in the order of the calls and resumptions that found room |
| MessageAccounting.SuspendedCall | patterns/backpressure.py:146-150 | a call suspends if and only if BLOCK_SENDER finds no room; then exactly its message joins the waiting ones and nothing else moves |
| MessageAccounting.ReturnedCall | patterns/backpressure.py:127-158 | a call that returns touches no waiting sender and no send; its message becomes the newest of at most max, or the queue is as it was |
| MessageAccounting.SendEndsOnce | patterns/backpressure.py:189-195 | a send that ends leaves the sends in flight, is recorded once by its outcome, and moves nothing else |
| SendQueueRuns.DropOldestRefinesHistory | patterns/backpressure.py:92-94 | the DROP_OLDEST queue is a suffix of the unbounded history, of length at most max; popped and evicted positions partition the rest, each increasing; and while the oldest send in flight is the one that ends, deliveries are at increasing positions of that rest |
| SendQueueRuns.DropOldestCounters | patterns/backpressure.py:127-134 | queued + dropped = calls; dropped = evictions + steps that raised the depth from max-1 to max; evictions <= dropped <= evictions + pops + 1 |
| SendQueueRuns.FillsCounted | patterns/backpressure.py:127-134 | the fill counter of the history is the number of such steps of the run |
| SendQueueRuns.HighWaterMark | patterns/backpressure.py:102-126 | mark <= true peak of all depths of the run <= mark + 1, and peak <= max, for every strategy |
| SendQueueRuns.PeakIsTrue | patterns/backpressure.py:102-107 | the peak of the history is the largest depth any state of the run had |
| SendQueueRuns.MarkIsPeakIff | patterns/backpressure.py:53-61 | the mark is the peak if and only if some enqueue call found that depth, or the peak is 0 |
| SendQueueRuns.MarkBelowPeak | patterns/backpressure.py:125 | one message into an empty queue: the peak is 1, the mark 0 |
| SendQueueRuns.AnswerIsTrueIff | patterns/backpressure.py:122-158 | a call that does not suspend answers True exactly to a message that entered and is queued, if and only if it is not DROP_NEWEST on a full queue nor DROP_OLDEST without a place |
| SendQueueRuns.ResumedWhenQueued | patterns/backpressure.py:146-150 | a suspended call answers at the resumption that queues its message, and at no other |
| SendQueueRuns.DroppedButTrue | patterns/backpressure.py:136-140 | a run: a full DROP_NEWEST queue answers True to the message it drops |
| SendQueueRuns.CountsDropWithoutEviction | patterns/backpressure.py:127-134 | one call counts a drop without evicting if and only if the depth was max-1 |
| SendQueueRuns.DroppedIsEvictionsIff | patterns/backpressure.py:47-58 | over a run, messages_dropped is the number of evictions if and only if the peak stayed below max |
| SendQueueRuns.QueuedIsArrivalsIff | patterns/backpressure.py:127-134 | for a positive bound the queued counter is the number of messages that entered if and only if the queue was never full |
| SendQueueRuns.DropCountedNothingLost | patterns/backpressure.py:127-134 | one message into a queue of one place: counted as dropped, still queued, nothing evicted |
| Drains.DrainDeliversPrefix | patterns/backpressure.py:160-196 | a drain that nothing interrupts delivers the longest succeeding prefix of the first min(batch, depth) messages, removes it and at most one failed message, and changes nothing else |
| SuspendedDrains.DrainIsARun | patterns/backpressure.py:174-196 | whatever senders and other drains do during its sends, the drain with all that is a run of the machine, and a run with one drain at a time if nobody else drains |
| SuspendedDrains.DrainSendBySend | patterns/backpressure.py:174-196 | whatever happens during its sends: each step takes the head, lets the others do what they do in order, and ends its send; the result counts the completed sends; it stops only at the batch size, at an empty queue, or at a send that did not complete |
| SuspendedDrains.OneSendIsARun | patterns/backpressure.py:174-195 | if nobody else ends a send of an equal message, such a step is the run: the pop, the others' events, the end of the send |
| SuspendedDrains.AloneIsDrainCall | patterns/backpressure.py:174-196 | if nothing happens during its sends, it is such a drain call and returns the length of the succeeding prefix |
| Drains.BatchSizesDoNotMatter | patterns/backpressure.py:160-196 | consecutive drains whose sends complete deliver min(sum of batch sizes, depth) messages, whatever the batches |
| Drains.DrainsDeliverQueue | patterns/backpressure.py:160-196 | drains whose batch sizes reach the depth deliver exactly the queue, in order |
| Backpressure.SendQueue.constructor | patterns/backpressure.py:83-100 | a new queue is the initial state; a negative bound is refused for DROP_OLDEST only |
| Backpressure.SendQueue.Depth | patterns/backpressure.py:102-107 | the length of the buffer of the strategy is the depth of the machine |
| Backpressure.SendQueue.Enqueue | patterns/backpressure.py:114-158 | on the real two buffers: the enqueue step, and the answer; it suspends if and only if BLOCK_SENDER finds no room, and then its message joins the waiting ones while both buffers stay as they are |
| Backpressure.SendQueue.ResumeSender | patterns/backpressure.py:146-150 | a blocked sender that is resumed puts its own message last, or waits again if the room is gone |
| Backpressure.SendQueue.TakeNext | patterns/backpressure.py:176-188 | takes the oldest message, or none from an empty queue |
| Backpressure.SendQueue.SendEnds | patterns/backpressure.py:189-195 | counts a completed send, counts a failed one, and neither for a cancelled one |
| Backpressure.SendQueue.Drain | patterns/backpressure.py:160-196 | the loop, suspended in every send: the states it goes through, send by send, amid whatever happens meanwhile, where it stops, and the count it returns |
| Backpressure.BackpressureController.AddConnection | patterns/backpressure.py:227-242 | a fresh empty queue of the configured kind under that id, all others untouched |
| Backpressure.BackpressureController.RemoveConnection | patterns/backpressure.py:244-250 | exactly that id goes |
| Backpressure.BackpressureController.GlobalStats | patterns/backpressure.py:269-284 | the loops compute the sums over all connections, and the rate from them |
| DropRates.OverallRateIsMediant | patterns/backpressure.py:63-69 | the overall rate lies between the smallest and the largest drop rate of the connections with traffic, and is 0 when none has any |
| DropRates.Mediant | patterns/backpressure.py:269-284 | the mediant inequality over sums of any number of connections, on both sides |
| DropRates.TotalsFollow | patterns/backpressure.py:275-277 | no connection, no totals; a connection that comes or whose counters move changes each total by just that |
| DropRates.RatesAreShares | patterns/backpressure.py:63-69 | a rate times the traffic is the dropped messages, per connection and over all, and 0 without traffic |
| PubSubModel.ApplyInv | patterns/pubsub_distributed.py:143-231 | every operation keeps the channel map, queue, window and delivery-count invariants |
| PubSubModel.CloseFirstInv | patterns/pubsub_distributed.py:224-231 | the loop of close_channel keeps the invariants after every iteration, though it mutates the list it goes through |
| PubSubRuns.StreamExactness | patterns/pubsub_distributed.py:178-222 | yielded followed by buffered messages are exactly the accepted ones; these are publishes on the channel between subscribe and first unsubscribe, in order; nothing sits behind a sentinel; depth <= max |
| PubSubRuns.AcceptsExactly | patterns/pubsub_distributed.py:178-207 | over any run, a subscriber accepted exactly the messages published on its channel while it was open, with room for one more in its queue and, when lagging ones are skipped, at most 80% full with it; no other, none twice, in order |
| PubSubCalls.LogIsPublished | patterns/pubsub_distributed.py:178-207 | the log is the sequence of the published messages of the run, read from the calls alone |
| PubSubCalls.StreamIsPublished | patterns/pubsub_distributed.py:178-222 | what a generator yielded, then what is buffered, is what was published at the positions the subscriber was to get, payload and publisher included |
| PubSubCalls.SubscriptionAsCalled | patterns/pubsub_distributed.py:143-176 | a subscriber is there if and only if it was subscribed; its channel, bound and window are those of its first subscribe and of the first call after it that closes it or its channel |
| PubSubRuns.CommonOrder | patterns/pubsub_distributed.py:195-206 | two subscribers see the publishes both accepted in the same order |
| PubSubRuns.CommonMessage | patterns/pubsub_distributed.py:195-219 | and at those positions they yield the same messages |
| PubSubRuns.ChannelMap | patterns/pubsub_distributed.py:131-176 | keys are the channels with an open subscriber (so channel_count counts them); no empty list; each open subscriber listed exactly once, under its own channel |
| PubSubRuns.CloseChannelExactly | patterns/pubsub_distributed.py:224-231 | close_channel removes that channel, closes its subscribers, changes nothing else |
| PubSubRuns.DeliveryAccounting | patterns/pubsub_distributed.py:178-207 | the sum of all values publish returned is the sum of the accepted-log lengths over all subscribers ever created |
| PubSubRuns.StreamEnds | patterns/pubsub_distributed.py:209-222 | with a sentinel queued the generator ends after at most backlog + 1 resumptions, whatever else happens, having yielded exactly what was accepted |
| PubSubRuns.NoSentinelNoEnd | patterns/pubsub_distributed.py:217-222 | a generator that ended had a sentinel accepted for it |
| PubSubRuns.EndsIffSentinelAccepted | patterns/pubsub_distributed.py:163-222 | a closed subscriber's generator, resumed often enough, ends if and only if a sentinel was accepted |
| PubSubRuns.LagBound | patterns/pubsub_distributed.py:118-121 | with skip_lagging throughout, depth <= floor(4*max/5) < max while subscribed, and every unsubscribed subscriber got its sentinel, directly or through close_channel |
| PubSubRuns.DefaultStreamsEnd | patterns/pubsub_distributed.py:163-231 | so every stream closed on such a bus ends, its whole backlog yielded |
| PubSubRuns.FirstUnsubscribe | patterns/pubsub_distributed.py:174-176 | the first unsubscribe delivers its sentinel if and only if the queue is not full |
| PubSubRuns.LostSentinel | patterns/pubsub_distributed.py:174-176 | a run that loses the sentinel; its generator never ends |
| PubSubRuns.LaggingVersusDocumented | patterns/pubsub_distributed.py:118-121 | the depths at which the test differs from "more than 80% full", exactly |
| PubSubRuns.LagsWhileEmpty | patterns/pubsub_distributed.py:118-121 | a reachable bus: a subscriber with one place lags while empty, and a default publish skips it |
| PubSubIndependence.Independence | patterns/pubsub_distributed.py:143-231 | over any run, the channel map, every other subscriber and the publishes are what they would be had a given subscriber's own calls never been made |
| PubSubIndependence.LeavesNoTrace | patterns/pubsub_distributed.py:143-231 | the same from any reachable bus: a subscriber that comes and goes leaves no trace |
| PubSub.InMemoryMessageBus.ChannelCount | patterns/pubsub_distributed.py:134-137 | the number of channels with an open subscriber |
| PubSub.Subscriber.PutNowait | patterns/pubsub_distributed.py:202-206 | appends, or reports QueueFull and leaves the queue alone |
| PubSub.InMemoryMessageBus.Subscribe | patterns/pubsub_distributed.py:143-161 | a fresh subscriber, listed last on its channel |
| PubSub.InMemoryMessageBus.Unsubscribe | patterns/pubsub_distributed.py:163-176 | the unsubscribe step on the real lists and queue; a subscriber of another bus only gets its sentinel |
| PubSub.InMemoryMessageBus.Publish | patterns/pubsub_distributed.py:178-207 | the loop over the snapshot is the publish step: exactly the listed subscribers with room have this very message, payload included, last in their queues, and no other queue moves; returns how many took it |
| PubSub.InMemoryMessageBus.CloseChannel | patterns/pubsub_distributed.py:224-231 | the loop of unsubscribes over a snapshot is the close step: each listed subscriber whose queue is not full has a sentinel last, and no other queue moves |
| PubSub.InMemoryMessageBus.Next | patterns/pubsub_distributed.py:217-222 | one resumption of the generator of any subscriber: takes the head, yields it or ends |
| PubSub.InMemoryMessageBus.Messages | patterns/pubsub_distributed.py:209-222 | the loop is a run of resumptions; it yields exactly the buffered messages up to a sentinel, which on a reachable bus is every buffered message, and stops at an empty queue or the end |
| HeartbeatModel.DeadOnlyAfterSilence | patterns/fault_tolerance.py:142-155 | a check marks a connection dead only after silence longer than max_missed * (interval + timeout) |
| HeartbeatModel.DeadInTime | patterns/fault_tolerance.py:131-155 | a client last heard at p is dead no later than p + C + m*(C+d), for cycles lasting at most C+d |
| HeartbeatModel.VerdictSilence | patterns/fault_tolerance.py:142-155 | the silence of the verdict, in every later state too |
| HeartbeatModel.NextCheckPossible | patterns/fault_tolerance.py:133-144 | from every reachable state a running loop can reach its next check in time, so the bounds are not vacuous |
| HeartbeatModel.RegularClientSafeIff | patterns/fault_tolerance.py:142-155 | a client heard in every cycle is never declared dead for missed pongs if and only if max_missed >= 2 or nothing is late |
| HeartbeatModel.LateCheckKills | patterns/fault_tolerance.py:142-155 | a run of such a client that ends dead when max_missed is 1 and a check comes late |
| HeartbeatModel.PromptClientMissesNothingIff | patterns/fault_tolerance.py:131-155 | a client that answers every ping before the check never misses one if and only if the slack is at most the interval |
| HeartbeatModel.PromptClientSafeIff | patterns/fault_tolerance.py:142-155 | such a client is never marked dead for missed pongs if and only if the slack is at most the interval or max_missed is at least 2 |
| HeartbeatModel.LateCheckMisses | patterns/fault_tolerance.py:142-155 | a run of such a client that misses one, and ends dead if max_missed is 1 |
| HeartbeatModel.Counters | patterns/fault_tolerance.py:68-72 | every pong counted; one check per ping or the loop ended; never more misses than checks |
| Heartbeat.HeartbeatTracker.RecordPong | patterns/fault_tolerance.py:68-72 | the pong step on the real fields |
| Heartbeat.HeartbeatManager.OneRound | patterns/fault_tolerance.py:134-155 | one iteration of the loop, suspensions included, is the corresponding stretch of the machine; the ping is counted, and the tracker stays alive unless the send failed or a silent check reached max_missed |
| Heartbeat.FailedSendEnds | patterns/fault_tolerance.py:134-140 | a send that fails ends the loop with the tracker not alive, the ping counted and nothing checked |
| Heartbeat.CheckedRound | patterns/fault_tolerance.py:134-155 | otherwise one ping and one check; one more miss exactly after silence longer than interval + timeout, and the end exactly if that makes max_missed |
| Heartbeat.HeartbeatManager.HeartbeatLoop | patterns/fault_tolerance.py:131-155 | the loop runs round by round until the tracker is not alive |
| Heartbeat.RoundsAreARun | patterns/fault_tolerance.py:131-155 | rounds are the run in which their sleeps, pings, sends and checks happen in that order, so the bounds hold of the loop |
| Reconnect.RawSchedule | patterns/fault_tolerance.py:180-191 | the unjittered delay never decreases, is the uncapped one below the cap, and the cap ever after |
| Reconnect.ScheduleSteps | patterns/fault_tolerance.py:191 | the first delay is the initial one, each next one is the last times the multiplier, up to the cap |
| Reconnect.SaturatesBy | patterns/fault_tolerance.py:180-191 | the cap is reached by attempt ceil((max/initial - 1)/(multiplier - 1)) |
| Reconnect.Bernoulli | patterns/fault_tolerance.py:191 | x^n >= 1 + n(x-1) for x >= 1 |
| Reconnect.JitterEnvelope | patterns/fault_tolerance.py:191-193 | every possible delay lies in [raw*(1-j), raw*(1+j)] |
| Reconnect.JitterByDraw | patterns/fault_tolerance.py:192-193 | the lowest draw takes the whole jitter off, the middle one nothing, and between draws the delay moves in proportion |
| Reconnect.NeverShrinksIff | patterns/fault_tolerance.py:191-193 | below the cap successive delays never shrink, whatever is drawn, if and only if multiplier*(1-j) >= 1+j |
| Reconnect.AttemptsBounded | patterns/fault_tolerance.py:195-206 | should_retry allows at most max_attempts attempts |
| Reconnect.AttemptsIff | patterns/fault_tolerance.py:195-206 | should_retry allows a run of attempts if and only if there are at most max_attempts, or max_attempts is 0 |
| Reconnect.TotalWaitBounded | patterns/fault_tolerance.py:180-206 | the total wait of a bounded policy is at most max_attempts * max_delay * (1+j) |
| ShutdownModel.ApplyInv | patterns/graceful_shutdown.py:96-166 | every stretch of close_all, every handler step and anything other code does keep the invariants |
| ShutdownRuns.CloseAllReturns | patterns/graceful_shutdown.py:125-166 | on return every task registered at the start is done and was cancelled once per entry, once more exactly if still pending after the wait; the result is the starting size; the registry is empty |
| ShutdownRuns.CloseAllStretches | patterns/graceful_shutdown.py:139-162 | what "at the start" and "still pending" mean in it |
| ShutdownRuns.OneEntryEach | patterns/graceful_shutdown.py:148-150 | one entry per task means one cancel in the first loop |
| ShutdownRuns.WholeCall | patterns/graceful_shutdown.py:125-166 | the same of a whole call, whatever happens while it is suspended, with every correct handler's socket closed |
| ShutdownRuns.StretchReturnsIff | patterns/graceful_shutdown.py:153-166 | in every reached state, the stretch after the wait and the one after gather end the call, with the starting size and an empty registry, if and only if all tasks it started with are done |
| ShutdownRuns.CallReturnsIff | patterns/graceful_shutdown.py:125-166 | a whole call returns so, whatever happens while it is suspended, if and only if the tasks it found are done in the end |
| ShutdownRuns.CallIsARun | patterns/graceful_shutdown.py:125-166 | the call with what happens meanwhile is this run: its start, the wait, its end, and gather only if somebody is pending then |
| ShutdownRuns.CallCanReturn | patterns/graceful_shutdown.py:153-166 | a call under way is never stuck: a continuation exists after which its next stretch returns |
| ShutdownRuns.StretchLeavesAlone | patterns/graceful_shutdown.py:139-166 | the call's own stretches run no handler, cancel only the tasks they are after, and leave the registry as it is until the return |
| ShutdownRuns.EverySocketClosed | examples/graceful_shutdown_demo.py:190-205 | on return the socket of every correct handler registered at the start is closed |
| ShutdownRuns.CorrectHandler | examples/graceful_shutdown_demo.py:164-205 | a correct handler closes its socket exactly when it ends, is registered only while it runs, and echoes each text it took, in order |
| ShutdownRuns.RegistryAccurate | examples/graceful_shutdown_demo.py:176-205 | unless other code touches its entry, a handler is registered if and only if it has started and not ended |
| ShutdownRuns.EchoesInOrder | examples/graceful_shutdown_demo.py:190-193 | a handler has answered, once each and in order, exactly what arrived except what waits in its socket; after its end a prefix of it |
| ShutdownRuns.EveryTextAnswered | examples/graceful_shutdown_demo.py:191-194 | a handler that serves and is not cancelled answers every waiting text, in order, within as many resumptions, whatever else happens |
| ShutdownRuns.TextAnswered | examples/graceful_shutdown_demo.py:193-194 | one resumption with a text takes and answers it, and moves nothing else |
| ShutdownRuns.HandlerLeaves | examples/graceful_shutdown_demo.py:195-205 | end of file, a closed socket and a cancel end the handler: socket closed, entry gone, nothing sent |
| ShutdownRuns.HandlerStarts | examples/graceful_shutdown_demo.py:180-193 | the first resumption registers the handler under its own id, unless it was cancelled before |
| ShutdownRuns.EchoTellsText | examples/graceful_shutdown_demo.py:194 | the answer determines the text |
| ShutdownRuns.GracefulDrain | examples/graceful_shutdown_demo.py:164-205 | if all registered handlers are correct and each is resumed before the timeout, nobody is cancelled twice and the wait ends the call |
| ShutdownRuns.CancelledIffRegistered | patterns/graceful_shutdown.py:139-166 | on return a task was cancelled by the call if and only if it was registered at the start |
| ShutdownRuns.RegisteredIsWhatIsDrained | patterns/graceful_shutdown.py:125-166 | however the call goes, a task is sure to be done on return if and only if it was registered at the start or done already |
| ShutdownCalls.EachCallIsARun | patterns/graceful_shutdown.py:125-166 | any number of overlapping calls: each of them, seen by itself, is a run of the one-call machine in which the stretches of the others are events from outside |
| ShutdownCalls.EveryCallReturns | patterns/graceful_shutdown.py:125-166 | each of the overlapping calls, when it returns: the size it started with, an empty registry, all tasks it found done and cancelled by it once per entry and once more if still pending, no other task cancelled by it |
| ShutdownCalls.EveryCallReturnsIff | patterns/graceful_shutdown.py:153-166 | each of the overlapping calls: its next stretch ends it, with its starting size and an empty registry, if and only if all tasks it started with are done |
| ShutdownCalls.EveryCallCanReturn | patterns/graceful_shutdown.py:153-166 | none of the overlapping calls is ever stuck |
| ShutdownCalls.EveryCallStarts | patterns/graceful_shutdown.py:139-150 | each call starts with the connections registered at that moment, and leaves the other calls where they are |
| ShutdownRuns.LateTaskForgotten | patterns/graceful_shutdown.py:96-103 | a task registered after close_all started is dropped from the registry without having been cancelled by it |
| ShutdownRuns.LateHandlerSurvives | patterns/graceful_shutdown.py:96-166 | a run: after close_all returned, the late handler is running with an open socket |
| Shutdown.ConnectionRegistry.Register | patterns/graceful_shutdown.py:96-103 | the entry is added or replaced, the flag not looked at |
| Shutdown.ConnectionRegistry.Deregister | patterns/graceful_shutdown.py:105-112 | exactly that entry goes, if it is there |
| Shutdown.ConnectionRegistry.CloseAll | patterns/graceful_shutdown.py:125-166 | the source's loops, waits and clear are the three stretches of the machine, with new tasks, handlers, other code and overlapping calls of close_all in between; it answers, with the starting size and an empty registry, if and only if all tasks registered at the start are done |
| Shutdown.ConnectionRegistry.Spawn | examples/graceful_shutdown_demo.py:164-188 | a task is created, also while close_all is suspended; one that exists already or whose connection id is in use is not created again |
| Shutdown.ConnectionRegistry.ResumeHandler | examples/graceful_shutdown_demo.py:164-205 | correct_ws_handler from one suspension to the next |
| Shutdown.FakeWebSocket.SendEcho | examples/graceful_shutdown_demo.py:66-71 | appends the echo, or raises on a closed socket |
| DashboardModel.TakeInv | examples/realtime_dashboard.py:93-205 | every step of every handler keeps the three stores in step |
| DashboardRuns.StoresInStep | examples/realtime_dashboard.py:93-124 | registry ids = send-queue ids = ids of the handlers between connect and disconnect |
| DashboardRuns.FeedSubscribers | examples/realtime_dashboard.py:173-205 | the subscribers of the feed are the handlers not yet unsubscribed, each listed once |
| DashboardRuns.NothingLeftBehind | examples/realtime_dashboard.py:196-205 | when all handlers have finished, however each ended, all three stores are empty and all sockets closed |
| DashboardRuns.ClientSees | examples/realtime_dashboard.py:194-199 | a socket received, in order, the payloads of the posted messages its subscription accepted, all on the feed while it was subscribed, up to what is still buffered; no send raised |
| DashboardRuns.LogIsPosted | examples/realtime_dashboard.py:162 | the log of the dashboard's bus is what was posted, in order |
| DashboardRuns.HandlerGoesOnIff | examples/realtime_dashboard.py:194-203 | a handler resumed with a message receives it and goes on if and only if its deadline has not passed; at the sentinel it leaves; once it leaves its subscription is closed |
| DashboardRuns.CancelledLeaves | examples/realtime_dashboard.py:200-203 | a cancelled handler is unsubscribed at once, with nothing more received |
| DashboardRuns.DeadlineIsLast | examples/realtime_dashboard.py:196-203 | the message with which the deadline is found passed is the last one ever received, however much is queued |
| DashboardRuns.ClosedFeedEndsHandler | examples/realtime_dashboard.py:194-205 | once the feed is closed a handler leaves after at most as many resumptions as its queue has items, whatever else happens, and with its whole backlog received unless it is cancelled or expires |
| DashboardRuns.CloseFeedReachesAll | examples/realtime_dashboard.py:194-199 | with default publishes, a handler whose feed was closed has its sentinel to come |
| DashboardRuns.BusIsARun | examples/realtime_dashboard.py:173-205 | the bus of a dashboard runs like any bus, so all facts about buses apply |
| Dashboard.ConnectionManager.Connect | examples/realtime_dashboard.py:93-113 | one entry in the registry and one fresh send queue under the same id |
| Dashboard.ConnectionManager.Disconnect | examples/realtime_dashboard.py:115-124 | both go |
| Dashboard.ClientHandler | examples/realtime_dashboard.py:173-205 | a whole handler among others, already there or joining later: it takes what its feed holds at each moment of the script, up to the first at which it is cancelled, expired with a message, or meets the sentinel, all told by the script and the calls on the bus; it leaves the stores as the others left them, is unsubscribed, its socket closed with everything taken received |
| Dashboard.ServedLeavesNoTrace | examples/realtime_dashboard.py:191-203 | the bus after it is as if only the others had been there: channel map and other subscribers |
| Simulation.LiveDashboard.Connect | examples/realtime_dashboard.py:190-192 | a handler up to its first wait, on the real registry, queues and bus, is the connect step |
| Simulation.LiveDashboard.Receive | examples/realtime_dashboard.py:194-203 | one resumption of a handler: a message is received, and the handler still serves if and only if it was a message and the deadline has not passed |
| Simulation.LiveDashboard.Interrupt | examples/realtime_dashboard.py:200-203 | the handler is cancelled while it waits |
| Simulation.LiveDashboard.CleanUp | examples/realtime_dashboard.py:202-205 | the socket is closed and both stores lose the id |
| Simulation.LiveDashboard.Post | examples/realtime_dashboard.py:162 | a publish on the dashboard's bus, and how many took it |
| Simulation.LiveDashboard.CloseFeed | patterns/pubsub_distributed.py:224-231 | a channel of the dashboard's bus is closed |
| Simulation.SimulationEnds | examples/realtime_dashboard.py:254-265 | when all handlers have finished the real registry, send queues and channels are empty and all sockets closed |
| Simulation.SocketReceived | examples/realtime_dashboard.py:194-199 | every real socket received, in order, the posted payloads its subscription accepted up to what is still in its queue; no send raised |
| BroadcastModel.QueuesAreIndependent | benchmarks/connection_throughput.py:132-140 | in any interleaving each queue goes through its own events only |
| BroadcastModel.AnyInterleaving | benchmarks/connection_throughput.py:104-141 | however the drains of a round interleave, the outcome is the same |
| BroadcastModel.RoundExistsIff | benchmarks/connection_throughput.py:104-141 | a round is possible if and only if no addressed queue makes its sender wait, which only a full BLOCK_SENDER queue does |
| BroadcastModel.RoundSendsTen | benchmarks/connection_throughput.py:123-139 | with any backlog and any strategy, a round gives each addressed queue the payload as enqueue does and then sends its ten oldest messages in order; no other queue is touched |
| BroadcastModel.RoundsDeliver | benchmarks/connection_throughput.py:199-218 | r rounds add exactly the r payloads to what an empty DROP_OLDEST queue delivered, and leave it empty, with these counters |
| BroadcastModel.EveryClientReceivesAll | benchmarks/connection_throughput.py:199-218 | from new queues, after every number of rounds and for any interleaving: queues empty, each client has the payloads in order, nothing evicted or failed; none counted as dropped unless max is 1 |
| BroadcastModel.ServedIffRoom | benchmarks/connection_throughput.py:199-218 | clients are served if and only if max >= 1, and no drop is counted if and only if max >= 2 |
| Broadcast.Stretch | benchmarks/connection_throughput.py:67-73 | one resumption of queue.drain(c.send, batch_size=10): where the drain stands next, the client in step with its deliveries |
| Broadcast.Gather | benchmarks/connection_throughput.py:132-139 | the concurrent drains, resumed in any order, all end |
| Broadcast.BroadcastWithBp | benchmarks/connection_throughput.py:104-141 | both loops, the drains interleaved by any schedule, clients without a queue skipped, every other queue untouched; it completes if and only if no queue makes its sender wait, and otherwise stays in the first gather with every queue offered the payload and none drained |
| Broadcast.BroadcastRounds | benchmarks/connection_throughput.py:213-218 | rounds one after the other, as long as they complete |
| Broadcast.RunBenchmark | benchmarks/connection_throughput.py:189-218 | a whole run, any interleaving in every round: every client received exactly the payloads, every queue is empty, and the drop counter is known |

## Left out

- Backpressure.SendQueue.constructor: `deque(maxlen=...)` raises ValueError for a negative bound; this is a precondition, not a modelled exception.
- Backpressure.SendQueue.SendEnds: a send that is cancelled loses its message without being counted, as in the source; the conservation law names it as a separate term.
- SuspendedDrains.DrainIsARun: two equal messages in flight are not told apart.
- Reconnect.RawSchedule: over the reals; rounding and overflow of `multiplier**attempt` are not modelled.
- Shutdown.ConnectionRegistry.CloseAll: the method follows one call; that overlapping calls have the same results is proved on the machine (`ShutdownCalls`); a call made inside a registered handler is excluded; the timeout may strike at any moment instead of being timed.
- Shutdown.ConnectionRegistry.Spawn: connection ids are fresh, so a task under an id in use does not come.
- Dashboard.ClientHandler: awaiting the fake socket's disconnect never suspends, so cancellation does not strike there; connection ids are fresh; what others do to the manager's stores is put before the feed loop, which does not look at them.
- Simulation.LiveDashboard.Connect: a new socket and a fresh connection id, as `run_simulation` makes them.
- Broadcast.BroadcastWithBp: client ids are distinct, as `run_benchmark` makes them; how a call that waits in its first gather goes on once other code drains the queue is not followed.
- PubSub.InMemoryMessageBus.Next: one consumer per subscriber.
- The threshold `int(max_queue_size * 0.8)` is the exact 4*max/5 truncated towards zero; the rounding of 0.8 is not modelled.
- Payloads are maps of strings; message timestamps, `to_json` and `from_json` are not part of this model.
- A queue's SendStats is a value in its queue object, without the connection id; nothing else holds it.
- `drain` tests a popped message for None; messages are never None here.
- `RedisPubSubConfig`, `create_lifespan`, the global registry and the heartbeat context manager: wiring around the modelled parts.
- `CloseCode` and close reasons: constants (section 7.4.1 of RFC 6455); a close is the flag `closed`.
- `DeadClientDetector`, `ConnectionHealth`, `lagging_connections`, `subscriber_count`, `active_count`: one-line filters and counters.
- `broken_ws_handler` is covered by the arbitrary handlers of `ShutdownModel`, without a model of its own; `metrics_producer`, `broadcast_raw`, latencies, percentiles and printing are not modelled.
