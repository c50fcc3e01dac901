# Verified model of the dashboard's concurrency stack

The dashboard moves vehicle data between threads and processes through hand-written
concurrent queues, a publish/subscribe bus, an asynchronous logger, a down-sampling history
pool and a non-blocking TCP reporter. This project models that stack in Dafny and proves what
it is for: nothing lost, nothing duplicated, exact meanings for every `false`, no lost
wake-ups, bounded buffers, and a reporter that keeps its byte stream intact whatever the
network does. `dafny verify dfyconfig.toml` checks everything.

## How it is built

Concurrency is modelled as transition systems whose steps are single atomic loads, stores,
compare-exchanges, lock operations and notifications; a run is any interleaving of any length
with any number of threads, and every theorem quantifies over all runs. The code itself is
modelled as classes whose methods update fields in loops, and each class is tied to its
transition system: `MpmcQueue`, `RingBuffer` and `DataPool` carry the protocol state as ghost
fields, and `BlockingQueue`, `TopicBus` and `Logger` record the steps they take while the other
threads follow an arbitrary schedule. What the code does is a run, so the theorems about runs
are theorems about the code; and the code makes progress: its loops end only for the reasons
given, every turn of a dispatch or flush loop is an entry served or an empty queue seen, and
once stopped and quiet they return after a bounded number of turns with nothing left.

- `Words`: power-of-two rounding, masking and signed casts on 64-bit words.
- `Runs`: sequences of steps of any transition system.
- `TicketQueue`: the bounded queue as clients see it. Values get tickets in the order in which
  producers claim them; a ticket is being written, full, being read, or released.
- `MpmcProtocol`, `MpmcSimulation`, `MpmcTheorems`, `MpmcLimits`: the slot protocol of the
  multi-producer multi-consumer ring and of the shared-memory ring. Relaxed counter loads may
  return any earlier value and compare-exchanges may fail spuriously. Every step is at most one
  step of `TicketQueue`; exactly-once delivery, slot ownership, the meaning of `false`, the
  refinement by 64-bit arithmetic and the retry bound follow.
- `MpmcQueue`: the lock-free class and the mutex queue for one caller at a time, and their
  equality on every sequence of calls.
- `SpscRing`: the single-producer single-consumer ring, protocol and class.
- `BlockingQueue`, `TopicBus`, `Logger`: transition systems on top of `TicketQueue`, and the code
  of the blocking consumer, the dispatch thread and the flush thread. A call of the lock-free
  produce or consume appears there as its ticket steps, or as the observation that makes it
  return `false`; `MpmcTheorems.Refines`, `ProduceFailure` and `ConsumeFailure` are what
  licenses this.
- `Delivery`: the bus and a subscriber's queue together, from publish to reader.
- `LoggerQueue`: the logger on the steps of `BlockingQueue`, refining `Logger`.
- `Subscriptions`, `Ownership`: the subscriber lists and the move-only handles that own their
  entries, as classes, and ownership over every run of handle operations.
- `DataPool`: the sampling fold and its optimality, drains interleaved with snapshots, and the
  class.
- `ReporterSpec`, `EpollReporter`: the reporter as functions of an arbitrary environment
  (queue arrivals, answers of connect, send and recv, epoll events, clock readings) with its
  three laws, and the class, method by method equal to those functions.
- `ReporterLaws`: what each of those functions makes of the environment's answers - which bytes
  leave, when the socket closes and at what cost, how attempts end - in the source's numbers.

Clocks, I/O results and the scheduler are inputs. So is the room in a subscriber's queue in
`TopicBus`; in `Delivery` it is that of the queue itself.

## Where the code falls short of its intent

- Capacity 1. `round_up_pow2` maps 0 and 1 to capacity 1, for which "full" and "free for the
  next lap" are the same sequence number: a lone producer overwrites an unread value, and
  however the run goes on nothing is ever consumed (`MpmcLimits.CapacityOneOverwrites`). A
  consume that starts then never returns at all (`ConsumeNeverReturns`); a blocking consume
  would hold its mutex for good, and with it every producer and `stop`. The protocol bounds its
  outstanding tickets exactly for capacities from 2 (`SafeCapacities`), and everything built on
  the ring - `BlockingQueue`, `TopicBus`, `Logger` - is stated for capacities from 2. That covers
  the bus (4096) and the logger (8192); for a `BlockingQueue` made with 0 or 1 it is the limit.
  Above 2^63 the rounding loop never ends (`Words.RoundUpHalts`).
- A log call that has passed its `running_` test can be accepted after the flush thread has
  gone (`Logger.LateEntryIsLost`). Shutdown writes every accepted entry, whatever happens
  meanwhile, if and only if no log call is past that test when `running_` is cleared
  (`DrainIffNonePastTest`).
- A publish that is half done when the bus is stopped can be accepted after the dispatch thread
  has gone (`TopicBus.LatePublishIsLost`). A stop dispatches every accepted publish, short of new ones, if and only if none is
  half done when `running_` is cleared (`DrainIffNoneHalfDone`).
- Stamps below 100 ms are never sampled before the first later one. Sampling is optimal for all
  sorted streams that begin at a given stamp exactly if that stamp is at least 100 ms
  (`DataPool.SafeStarts`); for a sorted stream that begins earlier at most one point is lost, and
  often none.
- README.md:231 says the reporter keeps emptying its queue during the backoff. The code
  (include/epoll_reporter.hpp:62-79) empties it once per failed attempt and takes nothing from it
  while it waits: after a stretch of the backoff the queue is empty if and only if it was empty
  and nothing arrived (`ReporterSpec.BackoffKeepsQueue`, `ClosedPass`; `QueueFills` is an
  instance).
- Not every lost connection is a counted failure with a retry deadline. A recv that ends or
  fails, EINTR included, closes the socket uncounted, unless the same event is writable and data
  is buffered; `ReporterSpec.UncountedClose` gives the exact condition, `PeerClosesUncounted` an
  instance.
- Connecting does not reset the backoff as such: only a completed asynchronous connect does.
  While all connects succeed at once the backoff is 1000 ms if and only if nothing has ever
  failed (`ReporterSpec.OnlyAsynchronousResets`; `ConnectedKeepsBackoff` is an instance).

## Model

| member | source | states |
|---|---|---|
| Words.RoundUpPow2 | include/mpmc_queue.hpp:93-97 | the loop ends for n up to 2^63 with the least power of two that is at least n |
| Words.RoundUpHalts | include/mpmc_queue.hpp:95 | on 64-bit words the loop ends if and only if n is at most 2^63 |
| Words.AndMask | include/mpmc_queue.hpp:57 | `pos & mask` is `pos` modulo the capacity for every position and power-of-two capacity |
| Words.CreateAcceptsPowersOfTwo | include/shm_ring.hpp:61 | the geometry guard of the shared ring lets through exactly the powers of two from 2 |
| TicketQueue.RefusalIsExact | include/mpmc_queue.hpp:46-47 | with no consume in flight refusal means tail - head = capacity; with no produce in flight unreadiness means head = tail |
| MpmcProtocol.ProducerSees | include/mpmc_queue.hpp:33-36 | the sequence number a producer reads, at any stale position, is behind it iff the tail still stands there and the ticket a lap back is not released; ahead only if the tail has moved on |
| MpmcProtocol.ConsumerSees | include/mpmc_queue.hpp:57-60 | the same for a consumer: behind iff the head still stands there and its ticket is unpublished |
| MpmcSimulation.Simulation | include/mpmc_queue.hpp:30-76 | every atomic step keeps the coupling invariant and is at most one enabled step of the ticket queue |
| MpmcTheorems.Refines | include/mpmc_queue.hpp:19-98 | every run of the ring, from capacity 2, is accompanied by a run of the ticket queue that starts empty |
| MpmcTheorems.ExactlyOnce | include/mpmc_queue.hpp:30-76 | the open question of README.md:296: no ticket is accepted or returned twice, a returned value is the one accepted under its ticket, and at every moment the tickets below head are exactly those returned and those of consumes in flight, the tickets below tail those accepted and those of produces in flight; at rest head and tail count them |
| MpmcTheorems.ValueOfCall | include/mpmc_queue.hpp:30-44 | nothing is made up: every accepted value is one that some thread called produce with before |
| MpmcTheorems.SlotOwnership | include/mpmc_queue.hpp:37-43 | head <= tail <= head + capacity; two calls in flight never share a cell; a compare-exchange that would succeed still finds the sequence number checked before it |
| MpmcTheorems.Monotone | include/mpmc_queue.hpp:43-67 | counters and every cell's sequence number never decrease along a run |
| MpmcTheorems.RealTimeOrder | include/mpmc_queue.hpp:38-44 | a ticket claimed after a produce has returned is larger than that produce's ticket, and likewise for consumes |
| MpmcTheorems.ProduceFailure | include/mpmc_queue.hpp:46-47 | produce returns false iff at its sequence load tail equals its position and no consume has returned the ticket one lap back; exactly full if no consume is in flight |
| MpmcTheorems.ConsumeFailure | include/mpmc_queue.hpp:70-71 | consume returns false iff head equals its position and no produce has returned true for that ticket; exactly empty if no produce is in flight |
| MpmcTheorems.StepAgrees | include/mpmc_queue.hpp:33-35 | while tail + capacity < 2^63 each step on 64-bit words (mask, wrap-around, difference of signed casts) equals the step on unbounded numbers |
| MpmcTheorems.Word64Refines | include/shm_ring.hpp:130-179 | a 64-bit run below that bound is a run of the unbounded protocol, for any power-of-two capacity from 2 |
| MpmcLimits.CapacityOneOverwrites | include/mpmc_queue.hpp:38-44 | with capacity 1 and any number of threads there is a run in which two values are accepted and the first is overwritten, and in every continuation of it head stays 0 and nothing is consumed |
| MpmcLimits.ConsumeNeverReturns | include/mpmc_queue.hpp:55-75 | at capacity 1, once a value is overwritten, a consume stays in its loop in every continuation and answers neither true nor false |
| MpmcLimits.SafeCapacities | include/mpmc_queue.hpp:22-28 | all runs keep at most `capacity` tickets outstanding iff capacity is at least 2 |
| MpmcLimits.RetryBound | include/mpmc_queue.hpp:31-51 | with current loads, a call loops at most 1 + growth of its counter during the call + spurious failures times, its last load included when that returns false |
| MpmcLimits.RetryMeansMoved | include/shm_ring.hpp:133-152 | every retry that is not a spurious failure means the counter has moved past the loaded position |
| MpmcQueue.MpmcQueue.constructor | include/mpmc_queue.hpp:22-28 | cell i carries sequence number i, the capacity is the least power of two that is at least n; from n = 2 this is an empty queue |
| MpmcQueue.MpmcQueue.Produce | include/mpmc_queue.hpp:30-52 | one caller: true iff below capacity, and then the value is appended; the call is a run of the protocol; any number of spurious failures |
| MpmcQueue.MpmcQueue.Consume | include/mpmc_queue.hpp:54-76 | one caller: true iff not empty, returning and removing the oldest value; otherwise the out argument is untouched |
| MpmcQueue.MutexQueue.Produce | tests/bench_mutex_vs_lockfree.cpp:20-25 | appends iff the deque is below its capacity |
| MpmcQueue.MutexQueue.Consume | tests/bench_mutex_vs_lockfree.cpp:27-33 | returns and removes the front iff there is one |
| MpmcQueue.FirstInFirstOut | tests/bench_mutex_vs_lockfree.cpp:16-39 | over any sequence of calls what is taken out is a prefix of the initial contents followed by what was put in, and at most capacity values are held |
| MpmcQueue.Lockstep | tests/bench_mutex_vs_lockfree.cpp:20-33 | for every n from 2 to 2^63 and every sequence of calls the lock-free ring and the mutex queue of the rounded capacity give the same replies, those of a bounded FIFO |
| SpscRing.CursorTests | include/ring_buffer.hpp:12-24 | the two cursor comparisons are exact tests for full (size - 1 items) and empty |
| SpscRing.Linearizable | include/ring_buffer.hpp:10-30 | in every interleaving push takes effect at its store of tail and pop at its store of head, nothing else changes the contents, and false is returned iff full or empty at the load of the other cursor |
| SpscRing.InOrderAndApart | include/ring_buffer.hpp:16-28 | popped items are a prefix of pushed items, and the slot being written is never the slot being read |
| SpscRing.RingBuffer.constructor | include/ring_buffer.hpp:9 | a buffer of the given size; from size 1 an empty ring |
| SpscRing.RingBuffer.Push | include/ring_buffer.hpp:10-19 | true iff fewer than size - 1 items are held, and then the item is appended |
| SpscRing.RingBuffer.Pop | include/ring_buffer.hpp:22-30 | true iff not empty, returning and removing the oldest item |
| BlockingQueue.NoLostWakeup | include/blocking_queue.hpp:19-54 | whenever the consumer waits un-notified although the head ticket is published, the producer of that ticket is still between publishing and notify_one |
| BlockingQueue.StopReleases | include/blocking_queue.hpp:57-63 | after a stop call has finished the consumer is not left waiting un-notified and gets past no stop test |
| BlockingQueue.DeliveredInOrder | include/blocking_queue.hpp:26-41 | the consumer gets the values in ticket order, each once |
| BlockingQueue.ValueOfCall | include/blocking_queue.hpp:19-24 | every value a ticket stands for is that of an earlier produce call of the thread that claimed the ticket |
| BlockingQueue.HolderCanMove | include/blocking_queue.hpp:20-63 | the holder of the mutex, and every producer with a ticket, always has a step to take |
| BlockingQueue.BlockingQueue.constructor | include/blocking_queue.hpp:13 | the ring's capacity is the least power of two that is at least the given one; from 2 this is an empty queue |
| BlockingQueue.BlockingQueue.ConsumeBlocking | include/blocking_queue.hpp:35-54 | among threads on any schedule the call is a run of the transition system; it hands out the next value, or stop is set, or, only if timed, the head was not ready at the last try, and the mutex is free afterwards; with the mutex free at the call, a set stop ends it, a published head is what it returns, and a timed call with nothing ready comes back empty when only the clock moves; it fails to return only if nothing more comes from outside while it waits for the mutex in other hands, or un-notified, having met no alarm that ends the wait |
| BlockingQueue.BlockingQueue.Wait | include/blocking_queue.hpp:44-51 | the wait passes over no spurious wake-up and, if timed, no time-out: it times out iff the last alarm met is the clock's, wakes otherwise by a spurious alarm or a notification, and is left waiting only if none came |
| BlockingQueue.ConsumeMany | include/blocking_queue.hpp:35-63 | any number of blocking calls end at the end of a run, each Item reply is the next value in ticket order, and a call that does not return is held up: if it waits un-notified it has met no alarm that ends the wait, the head is unpublished or its producer has yet to notify, and no stop call has finished |
| Subscriptions.WithoutAt | include/topic_bus.hpp:82 | erasing the one entry with an id leaves every other entry and the order |
| Subscriptions.EraseFirst | include/topic_bus.hpp:79-84 | the nested loop, in whatever order topics come, removes the id from the lists and reports whether it was there |
| Subscriptions.SubscriberLists.SubscribeQueue | include/topic_bus.hpp:63-68 | the topic's queue list gets the given queue under a new id at its end, nothing else changes, and the handle owns that id |
| Subscriptions.SubscriberLists.SubscribeCallback | include/topic_bus.hpp:70-75 | the same for callbacks |
| Subscriptions.SubscriberLists.Unsubscribe | include/topic_bus.hpp:77-91 | every list loses the entries with the id and keeps the others in their order; no id is issued |
| Subscriptions.SubscriptionHandle.Moved | include/topic_bus.hpp:43-44 | the new handle owns what the source owned, and the source is null |
| Subscriptions.SubscriptionHandle.Assign | include/topic_bus.hpp:45-48 | self-assignment changes nothing; otherwise the old subscription ends and the source's moves over |
| Subscriptions.SubscriptionHandle.Reset | include/topic_bus.hpp:179-182 | ends the subscription once and makes the handle null |
| Ownership.OneOwner | include/topic_bus.hpp:37-91 | in every run an id occurs at most once, is below next_id_, and is held by at most one handle; while removal goes through handles, live entries and handles correspond one to one |
| TopicBus.FanOut | include/topic_bus.hpp:144-164 | per subscription the tickets offered to its queue, or its callback called with, are exactly the dispatched envelopes of its topic between its beginning and its end, each once, in ticket order, under any subscribing and unsubscribing in between |
| TopicBus.ReachesTarget | include/topic_bus.hpp:63-75 | over every run, the subscription made at a step has the topic and target it was given, from that moment until it is cancelled, and every offer and call under its id goes to that target |
| TopicBus.PublishedAs | include/topic_bus.hpp:94-96 | a ticket stands for good for the topic and message of the publish that claimed it |
| TopicBus.PublishOf | include/topic_bus.hpp:94-96 | every ticket was claimed by a publish with its topic and message |
| TopicBus.GivenInOrder | include/topic_bus.hpp:156-160 | what one subscription's queue accepts are dispatched envelopes of its topic within its lifetime, in ticket order, each once; accepted, refused and still owed ones add up to all of them |
| Delivery.ReadsInOrder | include/topic_bus.hpp:94-160 | from publish to reader, through a queue that any subscriptions may share: what has been read are, in bus order, the messages of the first accepted offers to them, and of all once the queue is empty |
| Delivery.EachInOrder | tests/test_topic_bus.cpp:15-19 | told apart by subscription these are the first of its accepted tickets, ascending, each once, of its topic and within its lifetime |
| TopicBus.Accounting | include/topic_bus.hpp:156-160 | accepted offers + dropped_ + offers still to make = sum of the snapshot sizes |
| TopicBus.DrainOnStop | include/topic_bus.hpp:104-142 | if stop is called with no publish half done and nothing is published afterwards, the dispatch thread is gone after at most two turns more than envelopes were left, and then every accepted publish has been dispatched |
| TopicBus.DrainIffNoneHalfDone | include/topic_bus.hpp:104-142 | a stop dispatches every accepted publish, whatever happens meanwhile short of new publishes, iff no publish is half done when running_ is cleared |
| TopicBus.ExitedStays | include/topic_bus.hpp:138-141 | once the dispatch thread has gone the count stays at the head it left: later publishes are left behind |
| TopicBus.TopicBus.DeliverEnvelope | include/topic_bus.hpp:144-164 | deliver offers the envelope once to every entry of the copied queue list and then calls every entry of the copied callback list once, in list order, whatever callbacks and other threads do to the lists meanwhile |
| TopicBus.TopicBus.DispatchLoop | include/topic_bus.hpp:128-142 | among threads on any schedule the dispatch and drain loops are a run of the transition system; unless they have returned every turn was used, each an envelope dispatched or an empty queue seen; entered stopped and quiet they return within two turns more than envelopes left, with all dispatched |
| TopicBus.RunDispatchThread | include/topic_bus.hpp:98-164 | the dispatch thread of a new bus ends at the end of a run, obeys the accounting and the fan-out order, and drains after any stop with no publish half done or to come, given the turns |
| Logger.WrittenInOrder | include/logger.hpp:120-135 | the file is at all times the taken entries in ticket order, each once |
| Logger.OnlyEnabledLevels | include/logger.hpp:69-81 | nothing below the configured level is ever enqueued or written |
| Logger.TestIsExact | include/logger.hpp:69-71 | a call goes on to enqueue its very entry iff the logger runs and the entry has at least the configured level; otherwise it is over |
| Logger.AcceptedUnchanged | include/logger.hpp:73-80 | an accepted entry stands under its ticket for good, level and text unchanged |
| Logger.EntryOfCall | include/logger.hpp:69-80 | every entry in the queue is that of a log call |
| Logger.DroppedOnlyWhenFull | include/logger.hpp:79-80 | a call past the test is dropped only when the queue is full |
| Logger.DrainOnShutdown | include/logger.hpp:61-66 | if no log call is past its running_ test when shutdown begins, the closed file holds every entry ever accepted |
| Logger.DrainIffNonePastTest | include/logger.hpp:61-81 | shutdown writes every accepted entry, whatever happens meanwhile, iff no log call is past its running_ test when running_ is cleared |
| Logger.FlushEnds | include/logger.hpp:120-135 | after that the flush thread is gone after at most three rounds more than entries are left, and the file is complete |
| Logger.LateEntryIsLost | include/logger.hpp:69-80 | a run in which shutdown has returned and an accepted entry is not in the file |
| LoggerQueue.Refines | include/logger.hpp:61-135 | the logger on the blocking queue as it is, with its locks, waits, timeouts and notifications: every stretch of steps is one of the logger's transition system |
| LoggerQueue.DrainOnShutdown | include/logger.hpp:61-81 | on that queue, if shutdown begins with no log call between its test and its publication, the closed file holds every accepted entry in ticket order |
| LoggerQueue.WrittenInOrder | include/logger.hpp:120-135 | on that queue the file is at all times a prefix of the claimed entries, at most one line behind what was taken |
| LoggerQueue.TestIsExact | include/logger.hpp:69-80 | on the blocking queue too, a call enters produce with its very entry iff the logger runs and the level is enabled, whatever the others do |
| LoggerQueue.EntryOfCall | include/logger.hpp:69-80 | every entry in that queue is that of a log call |
| Logger.Logger.ConsumeAndWrite | include/logger.hpp:122-132 | one consume call writes the head entry iff it is published and, in the main loop, stop is not set or the call is at its last try after a timeout |
| Logger.Logger.FlushLoop | include/logger.hpp:120-135 | among threads on any schedule the flush and drain loops are a run of the transition system; unless they have returned every part of the schedule was followed by an entry written or nothing handed out; entered quiet they return within two rounds more than entries left, with all written |
| Logger.RunFlushThread | include/logger.hpp:48-135 | the flush thread of a new logger ends at the end of a run, writes a prefix of the claimed entries, none below the level, and once the logger is quiet writes them all, given the rounds |
| DataPool.GreedyIsOptimal | include/data_pool.hpp:39-45 | for sorted stamps no 100 ms-spaced subsequence is longer than the sample if the stream starts at 100 ms or later, and none by more than one otherwise |
| DataPool.GreedyAttains | include/data_pool.hpp:40-41 | the sample is itself a subsequence spaced by 100 ms |
| DataPool.DueMeans | include/data_pool.hpp:40-41 | a point is due 100 ms after the last sample, or when time has gone back |
| DataPool.SafeStarts | include/data_pool.hpp:77-78 | sampling is optimal for all sorted streams that begin at a stamp iff the stamp is at least 100 ms |
| DataPool.Snapshots | include/data_pool.hpp:36-61 | whenever a reader looks, the history is the window of the sample of a stream prefix, latest ends a prefix no longer than that, and between drains both are the whole stream |
| DataPool.DataPool.Produce | include/data_pool.hpp:29 | queues the point iff the ring has room and touches nothing else |
| DataPool.DataPool.Drain | include/data_pool.hpp:33-55 | empties the ring; history is the window of one sampling fold over everything ever consumed, latest its last point, total its length, however drains split it |
| ReporterSpec.ByteStreamConserved | include/epoll_reporter.hpp:199-235 | for every environment: bytes taken by the kernel over all connections followed by send_buf_ are the kept messages as lines; every arrived message is kept, discarded or queued; send_buf_ is at most 1 MiB plus one line |
| ReporterLaws.FlushTakes | include/epoll_reporter.hpp:199-224 | on an open socket the first bytes of the buffer, as many as the send answers take, go to the kernel and leave the buffer; the socket closes, as a counted failure, iff a send fails while bytes are left; interest in writing ends with the buffer |
| ReporterLaws.KernelIsTaken | include/epoll_reporter.hpp:199-206 | for every environment, what the kernel has got over all connections is what the send answers took |
| ReporterLaws.EventCloses | include/epoll_reporter.hpp:148-197 | an event closes an open socket iff the connection is lost, the connect has failed, a recv closes, or a send fails with bytes left |
| ReporterLaws.BrokenIsCounted | include/epoll_reporter.hpp:150-176 | a lost connection or failed connect is closed and counted at once: deadline, doubled backoff up to 30000 ms, reconnects, record |
| ReporterLaws.EventConnects | include/epoll_reporter.hpp:163-180 | a connect under way completes iff the event is writable without error; then the backoff is 1000 ms again and sampling may start at once |
| ReporterLaws.EventHands | include/epoll_reporter.hpp:183-206 | in an event exactly what its send answers take leaves the buffer, if the socket is open when it writes, and nothing otherwise |
| ReporterLaws.EventsJoin | include/epoll_reporter.hpp:106-108 | all events of a batch are handled, one after the other |
| ReporterLaws.SampledTakes | include/epoll_reporter.hpp:81-88 | messages are taken exactly when 50 ms have passed since the last drain or a connect has completed, at most 128 in order |
| ReporterLaws.PassWaits | include/epoll_reporter.hpp:60-104 | a pass reaches epoll_wait, once, iff there is a socket; it is connecting there iff it was or the connect is in progress; the loop ends only when epoll_wait fails for good |
| ReporterLaws.FailedAttempt | include/epoll_reporter.hpp:63-74 | a failed attempt is a counted failure at its time |
| ReporterLaws.GoodAttempt | include/epoll_reporter.hpp:115-146 | an attempt that does not fail leaves an open socket, connecting iff in progress, and the retry state unchanged |
| ReporterLaws.LoopJoins | include/epoll_reporter.hpp:60-109 | the loop makes a pass for every turn |
| ReporterLaws.AllArrive | include/epoll_reporter.hpp:226-230 | every message that came in while the loop ran has arrived |
| ReporterSpec.DrainPops | include/epoll_reporter.hpp:226-235 | a drain pops at most its budget of 128 in order, discards at most the last one, and only because the buffer is full |
| ReporterSpec.InterestExact | include/epoll_reporter.hpp:90-98 | at every epoll_wait the socket is open, EPOLLOUT is registered iff want_write_, and want_write_ iff connecting or data is buffered |
| ReporterSpec.BackoffLaw | include/epoll_reporter.hpp:62-68 | for every environment: backoff is min(1000 * 2^k, 30000), k the counted failures since the last completed asynchronous connect; no attempt before the imposed wait is over |
| ReporterSpec.NoEarlyAttempt | include/epoll_reporter.hpp:211-217 | after a counted failure the next attempt comes no earlier than the pre-doubling backoff of its streak |
| ReporterSpec.DrainsApart | include/epoll_reporter.hpp:82-88 | two drains with no completed asynchronous connect between them are at least 50 ms apart |
| ReporterSpec.ClosedPass | include/epoll_reporter.hpp:60-88 | without a connection a pass takes messages from a non-empty queue iff the backoff is over and the attempt fails, when all are thrown away, or succeeds at a time to sample |
| ReporterSpec.BackoffKeepsQueue | include/epoll_reporter.hpp:62-79 | during the backoff nothing is taken from the queue: it is empty afterwards iff it was and nothing arrived |
| ReporterSpec.UncountedClose | include/epoll_reporter.hpp:148-197 | an event closes the socket without counting a failure iff it is no error, its recv loop closes, and it is not writable with data buffered; every other close counts one |
| ReporterSpec.OnlyAsynchronousResets | include/epoll_reporter.hpp:163-177 | for every environment in which connects that succeed do so at once, the backoff is that of all failures ever counted, and 1000 ms iff there was none |
| ReporterSpec.ReporterIsSound | include/epoll_reporter.hpp:50-113 | all three laws together for a fresh reporter in any environment |
| EpollReporter.EpollReporter.FlushSendBuf | include/epoll_reporter.hpp:199-224 | the send loop is the function Flush |
| EpollReporter.EpollReporter.ReadAll | include/epoll_reporter.hpp:183-191 | the recv loop is the function Receive |
| EpollReporter.EpollReporter.HandleEvent | include/epoll_reporter.hpp:148-197 | event handling is the function OnEvent |
| EpollReporter.EpollReporter.DrainQueueToBuf | include/epoll_reporter.hpp:226-235 | the drain loop is the function Drain with budget 128 |
| EpollReporter.EpollReporter.Connect | include/epoll_reporter.hpp:115-146 | connecting is the function TryConnect, for each way it can go |
| EpollReporter.EpollReporter.OnePass | include/epoll_reporter.hpp:60-108 | one pass of the main loop is the function Pass |
| EpollReporter.EpollReporter.Run | include/epoll_reporter.hpp:50-113 | the main loop is the function Loop, and the socket is closed at the end |
| EpollReporter.RunReporter | include/epoll_reporter.hpp:36-39 | the code of a new reporter, run in any environment, obeys the three laws |

## Left out

- Weak memory beyond stale relaxed counter loads, cache-line alignment and `shared_ptr` lifetime: steps on sequence numbers and data are sequentially consistent.
- Producers, publishers, log callers and stopping threads are steps of the transition systems and of the schedules, not methods of the `BlockingQueue`, `TopicBus` and `Logger` classes; thread creation and joining are not modelled beyond the order they impose. The other threads move between the calls a loop makes, while it waits, and between the deliveries of an envelope.
- More than one blocking consumer per `BlockingQueue` and wake-up fairness among them: the repository gives every queue one consumer.
- Restarting a stopped `TopicBus` and re-initialising a `Logger`: one start/stop cycle is modelled. Failure of `Logger::init` is an easy branch.
- MpmcQueue.MpmcQueue.constructor: asks for n of at most 2^63 because the rounding loop does not end above; `produce` and `consume` of the class ask for the capacity to be at least 2, `MpmcLimits` says what happens at 1.
- BlockingQueue.BlockingQueue.constructor: promises a working queue from capacity 2 only, as the ring below it does.
- MpmcQueue.MpmcQueue.Produce: counters are unbounded here; the 64-bit counters are covered by StepAgrees and Word64Refines.
- SpscRing.RingBuffer.Push: asks for a size of at least 1, because the code divides by the size; likewise Pop.
- EpollReporter.EpollReporter.Run: epoll_create1 succeeds, epoll_ctl MOD and DEL succeed, a send that returns 0 counts as failed (as in the code), and events are not limited to 16 a pass.
- `ShmRing::create`, `open` and `close` apart from the capacity guard, and slot addresses in shared memory: operating-system calls and pointer arithmetic.
- `net_reporter.hpp`, CAN sockets, the simulator, HTTP, WebSocket, JSON and signal handling: foreign libraries, I/O, or easier copies of what is modelled.
- Log line formatting: an entry stands for its line.
