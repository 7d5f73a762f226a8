# libchan, modelled and proved in Dafny

libchan is a C library of Go-style channels: a lock-free bounded ring, a locked
slow path that parks and wakes waiters, close, and select. This project models
its concurrent core and proves what the code promises about it, for any number
of threads, any interleaving, any run length and any capacity.

`dafny verify dfyconfig.toml` checks the whole project.

## How the model is built

Concurrent code is a machine of atomic steps: one atomic load, one
compare-and-swap, one slot copied, one cursor store, or one lock-held piece of
bookkeeping. A theorem about an execution is about every finite run of such a
machine. Code that changes data in place with nobody else at work is a class or
a method over arrays.

| modules | what they model |
|---|---|
| `Ring`, `RingTheorems` | the four-cursor MPMC ring, single and bulk, under sequential consistency, with unbounded cursors |
| `RingViews`, `RingViewTheorems`, `RingViewExact` | the same ring under release/acquire memory (sections 5.1.2.4 and 7.17.3 of ISO/IEC 9899:2011), and exactly which executions race |
| `Wrap32`, `WordRing`, `WordRuns` | 32-bit cursors, masked indices and capacity rounding, and how they simulate the unbounded ring, step by step and execution by execution |
| `Channel`, `ChannelBase`, `ChannelSteps`, `ChannelInv` | the buffered channel over that ring: fast paths, slow path, register and recheck, parking, delivery, admission, timeouts, bursts, close; its structural invariant |
| `ChannelLedger`, `ChannelFifo`, `ChannelTheorems` | conservation, honest results, per-producer order |
| `ChannelResults`, `ChannelOrder`, `ChannelProgress` | when an operation may refuse and with which result; waiters served in the order they queued; what a thread may wait for, and no deadlock |
| `ChannelDuty`, `ChannelClose`, `ReceiverWakeup`, `SenderWakeup`, `LostWakeups` | who owes a parked waiter a look; close; no lost wakeup, and exactly on which channels |
| `Sides`, `SpscRing`, `SpscChannel`, `SpscTheorems`, `SpscLedger`, `SpscProgress`, `SpscWords` | the single-producer single-consumer channel: cursor caches, the bounded backstop, the account of its values and results, what a thread may wait for, and the cached tests on 32-bit words |
| `Vyukov`, `VyukovTheorems` | the per-slot-sequence ring of the benchmark |
| `Results`, `Seqs`, `WaitQueue`, `RingBuffer`, `CloseDrain` | shared vocabulary, the intrusive wait queue, the in-place ring with its two-piece copies, and close with no fast path at work |
| `SelectOrder`, `WaitGraph`, `SelectClaim`, `SelectFate` | lock order of a select, the wait-for graph of locks and ring turns, stub claiming and cleanup, and what becomes of a parked select |
| `Unbuffered` | the rendezvous of an unbuffered channel |

A channel's control step is a program step that turns the thread's own state and
a view of the shared state into an effect; `Apply` carries the effect out. Every
ring operation, locked or not, runs as the ring's own atomic steps, so a locked
section is interleaved with lock-free pushes and pops. Parking is a one-shot
latch set with the result. Clocks and spinning are nondeterminism: a timed wait
may expire at any moment, and the relaxed gates of the fast paths may read
anything.

## Findings

* A wakeup can be lost on a channel with several senders or receivers. The
  comments promise that sender and receiver never both miss
  (src/chan_send.c:133-151, src/chan_recv.c:140-157). But a pop that has
  reserved and not released leaves a one-slot ring empty to the delivering loop
  and full to a push (src/libchan_internal.h:301-312). The sender then parks
  beside a parked receiver, and the admission that serves it commits a value
  and looks for no receiver (src/libchan_internal.h:320-330). Delivery likewise
  frees a slot and looks for no sender.
  `LostWakeups.TwoReceiversStuck` and `LostWakeups.TwoSendersStuck` are such
  runs. `LostWakeups.ReceiverWakeupExact` and `LostWakeups.SenderWakeupExact`:
  no receiver's (sender's) wakeup is lost exactly on channels on which one
  thread makes all the receives (sends).
* A parked select can be lost. A waker claims a stub before it tries the ring
  (src/libchan_internal.h:248-274); when a lock-free operation has taken the
  value or the slot in between, it puts the stub back in the queue, still claimed
  (src/libchan_internal.h:303-307, 323-325). `SelectFate.StrandedForGood`: from
  then on nothing, closing included, ever gives that select a result.
  `SelectFate.PutBackStrands` is such a run. `SelectFate.StrandedBy`: a step
  strands a select exactly if it is a waker whose ring operation fails after it
  has claimed a stub of that select; `SelectFate.StrandedExact` says it of runs.
* A single push compares a possibly stale head with the tail in unsigned
  arithmetic (src/ring_lf.c:41-45), so it may report "full" on a ring that is
  not full. `RingTheorems.FullIsExact` says exactly when, and
  `RingTheorems.FullWhenEmpty` is a run, for every capacity, in which the ring
  is empty.
* Under release/acquire memory the relaxed load of a head may be newer than the
  acquire load of the other side's tail (src/ring_lf.c:41-49, 81-89). A single
  push then only reports "full". A pop, which tests for equality alone
  (src/ring_lf.c:84), and both bulk operations, whose differences wrap around
  (src/ring_lf.c:116, 158), then reserve indices they must not.
  `RingViewExact.RaceFreeIffFresh`: an execution is free of data races exactly
  when no compare-and-swap succeeds from a head that the acquired tail was
  behind. `RingViewTheorems.StalePopRaces` is a run that races, and
  `RingViewTheorems.NewestRunIsTidy` shows that sequentially consistent loads
  never get there. What Phase 3 publishes is right either way.
* The cached tests of the single-producer single-consumer ring compare 32-bit
  words (src/libchan_internal.h:190, 208), and bursts and the locked path move
  the cursors past a cache without refreshing it. `SpscWords.CachedTestExact`:
  the producer's test is right exactly when its head is less than 2^32 past the
  cache, or at least the capacity past it modulo 2^32; the consumer's exactly
  when its head is before the cache, or less than 2^31 past it modulo 2^32.
  `SpscWords.StaleCacheAdmits`
  reaches a full ring that reads as having room, `SpscWords.StaleCacheDelivers`
  an empty one that reads as holding a value.
* The timeout path of an unbuffered operation ignores whether it was still
  queued (src/chan_send.c:92-98, src/chan_recv.c:80-87), so it can report a
  timeout for a value that was received. `Unbuffered.UntruthExact`: a request is
  reported untruthfully exactly by the timeout path of a waiter already served.
  `Unbuffered.HonestExact`: all results are honest exactly when no finite
  timeout is used.
* The per-slot-sequence ring loses values when it has one slot, which its
  initialiser allows (bench/bench_ring_cmp.c:136-149).
  `VyukovTheorems.CapacityExact`: two slots are exactly enough.
* `next_pow2` returns 0 above 2^31 (src/ring_lf.c:7-12, `Wrap32.NextPow2`).
* A comment in the select code says that stubs are counted as waiters
  (src/select.c:268-271); the code does not count them (src/select.c:298-309),
  and the model follows the code.

## Model

| member | source | states |
|---|---|---|
| Ring.Room | src/ring_lf.c:113-120 | A snapshot never offers a width that would overrun the other side's tail, and with a head not below the tail it offers none exactly when the ring is full; RingTheorems.WidestReservation says how wide the width is |
| Ring.StepKeepsInv | src/ring_lf.c:36-186 | Every atomic step of push, pop and the bulk forms keeps cons.tail <= cons.head <= prod.tail <= prod.head <= cons.tail + capacity, the owners of all indices in flight, and every committed value in its slot |
| RingTheorems.RunInv | src/ring_lf.c:36-186 | That invariant holds in every state of every execution |
| RingTheorems.RunMonotone | src/ring_lf.c:36-186 | Reservation histories only grow and cursors never move back along an execution |
| RingTheorems.ReservationsPartition | src/ring_lf.c:40-49 | An index is between the tail and the head of a side exactly when some thread in flight holds it, and then exactly one does |
| RingTheorems.SlotsExclusive | src/ring_lf.c:51-52 | Two threads in flight, on either side, never touch the same slot |
| RingTheorems.TurnExists | src/ring_lf.c:67-70 | While indices are reserved and uncommitted, some thread in flight starts exactly at the tail |
| RingTheorems.OnlyTurnWaits | src/ring_lf.c:67-70 | A thread inside an operation can always step unless it waits for its turn |
| RingTheorems.RefinesBoundedFifo | src/ring_lf.c:36-186 | Each step appends its reservation to a queue of at most the capacity, takes its reservation off the front, or leaves the queue alone |
| RingTheorems.PopReturnsPush | src/ring_lf.c:74-104 | The pop that reserved an index returns the value of the push that reserved it, whatever the snapshots were |
| RingTheorems.PopsOrdered | src/ring_lf.c:148-186 | Pops reserve disjoint runs in index order, so each value leaves at most once and in order |
| RingTheorems.WidestReservation | src/ring_lf.c:116-119 | A reservation is as wide as asked for, or reaches the last free slot (the last committed value) of its snapshot |
| RingTheorems.ReservesItsWidth | src/ring_lf.c:121-123 | The compare-and-swap that succeeds reserves exactly that width, for exactly the first values |
| RingTheorems.ReportsItsReservation | src/ring_lf.c:139-146 | A commit reports its whole reservation: the values pushed, or as many as were reserved, each the one pushed at its index |
| RingTheorems.EmptyIsExact | src/ring_lf.c:81-85 | A pop reports empty only when no committed value is unreserved |
| RingTheorems.FullWhenEmpty | src/ring_lf.c:41-45 | For every capacity, a run in which a push whose head was overtaken is refused by an empty ring |
| RingTheorems.FullIsExact | src/ring_lf.c:41-45 | A push is refused exactly when the ring is full at its snapshot or, in the single form, when the snapshot lies below the tail |
| RingViews.StepKeepsInv | src/ring_lf.c:54-70 | Every step under release/acquire memory, with stale loads and stores anywhere in modification order, keeps the tails increasing and their views complete |
| RingViewTheorems.PublishedCarriesAll | src/ring_lf.c:54-70 | Every value t published on a tail carries all slot accesses of indices below t, not only the last thread's |
| RingViewTheorems.AcquirerSeesAll | src/ring_lf.c:78-89 | Whoever acquires t from the other side's tail has seen every access below t |
| RingViewTheorems.WidestReservation | src/ring_lf.c:155-162 | A single operation reserves one index, a bulk one as many as asked for or all that the 32-bit difference offers |
| RingViewTheorems.RaceFree | src/ring_lf.c:94-102 | If every successful compare-and-swap respects its gate, every access still to be made under a reservation comes after every conflicting one, and a read finds no later write in its slot |
| RingViewExact.RunExact | src/ring_lf.c:54-70 | Beyond its own unpublished accesses, no thread and no store has ever seen an access at or beyond the newest tail store it has seen |
| RingViewExact.FitIffSeen | src/ring_lf.c:41-49 | At every compare-and-swap of every execution the reservation respects its gate exactly when the thread has seen every access of the other side that it must come after |
| RingViewExact.RaceFreeIffFit | src/ring_lf.c:94-102 | An execution is free of data races exactly when every successful compare-and-swap respects its gate |
| RingViewExact.RaceFreeIffFresh | src/ring_lf.c:81-89 | An execution is free of data races exactly when no compare-and-swap succeeds from a head that the tail acquired after it was behind |
| RingViewTheorems.FitIffFresh | src/ring_lf.c:113-123 | While gates have been respected, a compare-and-swap that succeeds, single or bulk with wrapped differences, respects its gate exactly when the acquired tail is not behind the head; a single push does unless 2^32 behind |
| RingViewTheorems.NewestRunIsTidy | src/ring_lf.c:156-165 | When every gate load reads the newest store, every successful compare-and-swap respects its gate |
| RingViewTheorems.StalePopRaces | src/ring_lf.c:81-89 | A run in which a stale gate lets a pop reserve an index nobody has written |
| Wrap32.NextPow2 | src/ring_lf.c:7-12 | The least power of two not below n for 1 <= n <= 2^31, 1 for 0, and 0 above 2^31 |
| Wrap32.MaskIsMod | src/ring_lf.c:52 | Masking with capacity - 1 is reduction modulo a power-of-two capacity |
| Wrap32.WordSlot | src/ring_lf.c:92 | A 32-bit cursor points at the slot of the unbounded cursor |
| WordRing.RoomAgrees | src/ring_lf.c:113-120 | The full and free-entries tests on words agree with the unbounded ones while the snapshot lags by fewer than 2^32 - capacity |
| WordRing.FullTestExact | src/ring_lf.c:42-45 | The full test agrees exactly when a head below the tail is at most 2^32 - capacity behind |
| WordRing.LiftStep | src/ring_lf.c:36-186 | Every step of the 32-bit ring is a step of the unbounded ring, under that lag bound |
| WordRing.StepWords | src/ring_lf.c:36-186 | Every step of the unbounded ring is a step of the 32-bit ring, under that lag bound |
| WordRuns.LiftRun | src/ring_lf.c:36-186 | Every execution of the 32-bit ring whose snapshots stay within that bound is, state by state, the image of an execution of the unbounded ring |
| WordRuns.WordSlotsExclusive | src/ring_lf.c:51-52 | In such an execution two threads in flight never touch the same masked slot |
| ChannelSteps.ProgOk | src/chan_send.c:121-151 | Every program step of send, receive, sleep and close keeps its promises: lawful use of lock, queues and counts, and an honest account of the values moved |
| ChannelInv.RunBase | src/chan_recv.c:106-157 | In every reachable state ring operations fit their threads, one thread holds the lock, and each unserved waiter is queued once or in the lock holder's hands |
| ChannelLedger.RunLedger | src/chan_send.c:121-198 | The whole account balances in every reachable state, request by request |
| ChannelTheorems.Conservation | src/libchan_internal.h:301-330 | Values accepted are values that left plus values in the ring; none is accepted twice and none leaves twice |
| ChannelTheorems.SendsReportTheTruth | src/chan_send.c:184-197 | A completed send reports Ok exactly when it moved something, and moved exactly the prefix the channel accepted; begun after close it moves nothing; ChannelResults.RefusedSends says when it may report anything else |
| ChannelTheorems.ReceivesReportTheTruth | src/chan_recv.c:193-205 | A completed receive reports Ok exactly when it got something, and got exactly what left the channel for it; ChannelResults.RefusedReceives says when it may report anything else |
| ChannelResults.RunTold | src/chan_recv.c:106-157 | In every reachable state whoever holds a refusal, its own or one made for it, has met the reason during the request it is for |
| ChannelResults.RefusedReceives | src/chan_recv.c:134-138 | A receive reports WouldBlock or Closed only if the ring was empty at some moment of the request, Closed only on a closed channel, WouldBlock only to a try or burst (a try: open and no sender queued), Timeout only to a timed one that lapsed while still queued |
| ChannelResults.RefusedSends | src/chan_send.c:121-131 | A send reports WouldBlock only to a try, open and after its push read the ring as full, or to a burst so refused or closed; Closed only on a closed channel; Timeout only to a timed one that lapsed while still queued |
| ChannelResults.ForeverAnswers | src/chan_send.c:184-197 | A blocking request without a timeout ends in Ok or Closed |
| ChannelResults.OnlyPatientWait | src/chan_send.c:131-136 | Try and burst requests never register as waiters and never sleep |
| ChannelResults.LateFromTheStart | src/chan_send.c:69-72 | A send counts as late exactly if the channel was closed when it began |
| ChannelResults.ResultGiven | src/libchan_internal.h:277-284 | The result one thread sets for another is Closed from a closer with nothing to give, Ok from everybody else |
| ChannelOrder.LinesMove | src/libchan_internal.h:90-110 | Every step moves each line of waiters by at most one, newcomers at the end, and serves only the first in it |
| ChannelOrder.FirstComeFirstServed | src/libchan_internal.h:90-110 | Of two waiting senders (receivers) the later one is never first in line while the other still waits |
| ChannelProgress.OnlyWaits | src/libchan_internal.h:301-330 | A thread can take a step exactly unless it waits for a lock that is held, for its turn in the ring, or, parked without a timeout, for a peer |
| ChannelProgress.SomebodyMoves | src/ring_lf.c:141-144 | No deadlock: in every reachable state in which a thread is inside a request and not parked, some thread inside a request can move |
| ChannelFifo.RunFifo | src/chan_recv.c:106-132 | Order, attribution of values in flight and the empty-ring condition of direct handoff hold in every reachable state |
| ChannelTheorems.ProducerOrder | src/chan_recv.c:106-132 | One producer's values leave in its send order, through the ring or by handoff, pushed by itself or by others |
| ChannelDuty.ProgDutiful | src/libchan_internal.h:301-330 | Every program step discharges the thread's duty to look for a waiter or carries it to a nearer place |
| ChannelClose.CountsAreExact | src/chan_recv.c:140-157 | The two waiter counts are the numbers of registered senders and receivers |
| ChannelClose.CloseWakesAll | src/chan_core.c:84-112 | Once a close has finished, both queues are empty and every sleeper has its result, which ChannelResults.ResultGiven names |
| ChannelClose.ResultIsFinal | src/chan_core.c:98-112 | A waiter's result is set once; nobody else overwrites it |
| ChannelClose.ClosedForGood | src/chan_send.c:69-72 | The flag is never cleared and a closed channel admits no new waiter |
| ReceiverWakeup.NoLostReceiverWakeup | src/chan_send.c:37-64 | Many senders, one receiver: while the receiver sleeps unserved although a value is committed or a sender sleeps, another thread is in flight |
| ReceiverWakeup.DutyAdvances | src/libchan_internal.h:301-312 | A thread that owes the receiver a look comes nearer with every step until it dequeues the receiver |
| ReceiverWakeup.HandoverSucceeds | src/libchan_internal.h:305-310 | The pop made for the dequeued receiver never comes back empty |
| SenderWakeup.NoLostSenderWakeup | src/chan_recv.c:35-53 | One sender, many receivers: while the sender sleeps unserved although a slot is free, another thread owes it a look |
| SenderWakeup.DutyAdvances | src/libchan_internal.h:320-330 | A thread that owes the sender a look comes nearer with every step until it dequeues the sender |
| SenderWakeup.AdmissionSucceeds | src/libchan_internal.h:320-330 | The push made for the dequeued sender is never refused |
| SenderWakeup.NeverBothAsleep | src/chan_send.c:133-151 | One sender and one receiver are never both asleep unserved |
| LostWakeups.TwoReceiversStuck | src/libchan_internal.h:320-330 | One sender, two receivers: a run that leaves a receiver parked for good beside a committed value, everybody else outside any operation |
| LostWakeups.TwoSendersStuck | src/libchan_internal.h:301-312 | Two senders, one receiver: a run that leaves a sender parked for good beside an empty ring, everybody else outside any operation |
| LostWakeups.ReceiverWakeupExact | src/chan_recv.c:140-157 | A parked receiver is minded in every execution exactly on channels on which one thread makes all the receives |
| LostWakeups.SenderWakeupExact | src/chan_send.c:133-151 | A parked sender is minded in every execution exactly on channels on which one thread makes all the sends |
| SpscRing.StepKeepsInv | src/libchan_internal.h:185-218 | Every step of the cached and of the reserve-and-commit operations, on either side, keeps the cursors, the caches and the stored values |
| SpscRing.CachesAreLower | src/ring_lf.h:88-100 | Each cache is a lower bound of the cursor it caches, so a test against it, on unbounded cursors, never admits what the cursor would refuse |
| SpscRing.RefinesBoundedFifo | src/libchan_internal.h:196-217 | A commit appends the pushed values or takes exactly the popped ones off the front; no other step, in particular no store of a head after its tail, changes the queue; SpscLedger.CommitReturns follows the values to the caller |
| SpscRing.WidestReservation | src/ring_lf.c:116-119 | A reservation of either side is as wide as asked for or reaches the other side's tail |
| SpscLedger.Conservation | src/libchan_internal.h:185-218 | In every reachable state the values accepted are the values that left and then the ring's, in order; returned requests, the current one and its committed operation make up each of them; Ok is reported exactly for what was moved |
| SpscLedger.CommitReturns | src/libchan_internal.h:214-217 | The operation that commits hands back, when it is finished, exactly what it appended to the queue or took off its front |
| SpscLedger.RefusalsJustified | src/chan_recv.c:134-138 | A request that does not report Ok has moved nothing, reports WouldBlock or Timeout, and found its side of the ring full (empty) at some moment |
| SpscProgress.OnlyWaits | src/chan_send.c:184-197 | In every reachable state a thread inside a request can move exactly unless it waits for a lock that is held or is parked for good and unserved |
| SpscProgress.HolderMoves | src/libchan_internal.h:314-330 | A thread that waits for the lock waits for a peer that can move |
| SpscProgress.RefreshOnlyWhenNeeded | src/libchan_internal.h:190-197 | The other side's tail is loaded exactly when the cached one leaves no room, and only then does the cache change, to that tail |
| SpscTheorems.OneWriter | src/libchan_internal.h:301-330 | A peer works on the other side's cursors only under the lock, while that side's thread is a dequeued, unserved waiter |
| SpscTheorems.CachesAndCapacity | src/libchan_internal.h:185-218 | On unbounded cursors, the cache bounds and the capacity bound hold in every reachable state, whichever mix of operations ran |
| SpscWords.CachedTestExact | src/libchan_internal.h:190-213 | In every reachable state the 32-bit test against the cache is right exactly when the head is not 2^32 (producer) or 2^31 (consumer) past the cache, or right again further on; the test against the reloaded tail is always right |
| SpscWords.StaleCacheAdmits | src/libchan_internal.h:190 | For every capacity, a run to a full ring that the producer's cached test reads as having room |
| SpscWords.StaleCacheDelivers | src/libchan_internal.h:208 | For every capacity, a run to an empty ring that the consumer's cached test reads as holding a value |
| SpscTheorems.StepRefinesFifo | src/chan_recv.c:106-132 | In the two-thread channel a committing ring step appends its values or takes them off the front, whoever makes it for whom; no other step changes the queue, which never exceeds the capacity |
| SpscTheorems.NoLostWakeup | src/chan_recv.c:159-191 | A thread in its indefinite park, still queued although its side could proceed, has a peer that owes it a look; both sides |
| SpscTheorems.PeerAdvances | src/chan_send.c:153-182 | Each step of that peer brings the look nearer until it dequeues the sleeper; its count check sees the sleeper |
| SpscTheorems.HelpSucceeds | src/libchan_internal.h:301-330 | The ring operation a helper runs for a dequeued peer is never refused |
| Vyukov.StepKeepsInv | bench/bench_ring_cmp.c:163-218 | Every step keeps each slot's sequence number in agreement with the position using the slot |
| Vyukov.NextIsFree | bench/bench_ring_cmp.c:165-172 | A slot carrying the next position's own number is free, so the ring never holds more than its capacity |
| Vyukov.ReadyIsPushed | bench/bench_ring_cmp.c:199-206 | A slot that says "ready" at the consumers' head holds the value pushed there |
| VyukovTheorems.PopReturnsPush | bench/bench_ring_cmp.c:197-218 | The pop that won a position returns the value of the push that won it |
| VyukovTheorems.TryExact | bench/bench_ring_cmp.c:167-180 | A push at the head goes on exactly when the position one lap before has been popped and released, a pop exactly when its position has been pushed and committed |
| VyukovTheorems.NeverWaits | bench/bench_ring_cmp.c:163-206 | An operation under way always has a next step, whatever the other threads do |
| VyukovTheorems.NoOverwrite | bench/bench_ring_cmp.c:184-186 | A producer writing its slot finds no unfinished reader in it |
| VyukovTheorems.SequenceCycle | bench/bench_ring_cmp.c:186-217 | A slot's number moves from p to p + 1 and from p + 1 to p + capacity, by the owner of p, and in no other way |
| VyukovTheorems.RefinesBoundedFifo | bench/bench_ring_cmp.c:163-218 | Winning a position appends a value or takes the oldest; the queue never exceeds the capacity |
| VyukovTheorems.OneSlotOverwrites | bench/bench_ring_cmp.c:136-149 | With one slot, a run in which a second push overwrites the first value unread |
| VyukovTheorems.CapacityExact | bench/bench_ring_cmp.c:136-218 | The capacity is respected in every run exactly when there are at least two slots |
| WaitQueue.Waiter.TryClaim | src/libchan_internal.h:248-254 | Claiming succeeds exactly if the waiter is direct or its select is unclaimed, and claims the select |
| WaitQueue.Queue.Push | src/libchan_internal.h:90-95 | Appends to the sequence of waiters, links consistent |
| WaitQueue.Queue.PushFront | src/libchan_internal.h:97-101 | Prepends to the sequence of waiters, links consistent |
| WaitQueue.Queue.Pop | src/libchan_internal.h:103-110 | Takes the first waiter off the sequence, or reports an empty queue |
| WaitQueue.Queue.Remove | src/libchan_internal.h:112-125 | Cuts exactly the given waiter out, wherever it stands, and says whether it was there |
| WaitQueue.Queue.PopClaimable | src/libchan_internal.h:259-274 | Returns the first claimable waiter and drops exactly the claimed stubs before it |
| WaitQueue.Queue.CloseAll | src/libchan_internal.h:277-284 | Empties the queue; exactly the direct waiters and the first stub of each unclaimed select are woken with Closed |
| RingBuffer.RingBuffer.Push | src/ring_lf.c:36-72 | Appends exactly when the buffer is not full |
| RingBuffer.RingBuffer.Pop | src/ring_lf.c:74-104 | Takes the oldest value exactly when the buffer is not empty |
| RingBuffer.SplicedIsWritten | src/ring_lf.c:125-137 | The two-piece copy writes exactly the slots of indices start + i modulo the capacity |
| RingBuffer.ReadInPieces | src/ring_lf.c:167-178 | The two-piece read reads exactly those slots, in order |
| RingBuffer.CopyRun | src/ring_lf.c:125-137 | The in-place copy, in one piece or two, leaves the spliced buffer |
| RingBuffer.RingBuffer.EnqueueBurst | src/ring_lf.c:106-146 | Moves as many values as fit, in order, touching no other slot |
| RingBuffer.RingBuffer.DequeueBurst | src/ring_lf.c:148-186 | Takes as many of the oldest values as asked for and there are |
| RingBuffer.RingBuffer.PushEach | src/chan_send.c:204-221 | Pushing one by one until the first refusal has the same count and contents as the bulk push |
| RingBuffer.RingBuffer.PopEach | src/chan_recv.c:212-227 | Popping one by one until the first refusal has the same result and contents as the bulk pop |
| CloseDrain.DrainReceivers | src/chan_core.c:98-112 | The first min(waiters, items) claimable receivers get the oldest values with Ok, the rest Closed, and the ring keeps what is left in order |
| CloseDrain.DirectWaitersWin | src/chan_core.c:98-112 | With direct waiters only, everybody in the queue is claimable |
| CloseDrain.QuietChannel.Close | src/chan_core.c:74-116 | Closing once wakes every claimable sender with Closed, settles the receivers as above and empties both queues; closing again changes nothing and reports Closed |
| SelectOrder.SortOrder | src/select.c:8-18 | The insertion sort leaves every case index once, by ascending address, ties in case order |
| SelectOrder.SortOrder2 | src/select.c:21-28 | The two-case shortcut does too |
| SelectOrder.OrderUnique | src/select.c:220-221 | There is only one such order, so both sorts agree |
| SelectOrder.LockList.LockAll | src/select.c:30-36 | Each distinct channel is locked once, in strictly ascending order, and no other |
| SelectOrder.LockList.UnlockAll | src/select.c:38-44 | Exactly those locks are released |
| WaitGraph.TurnExists | src/ring_lf.c:67-70 | Among any number of locks and rings, whenever indices are reserved and not committed it is some thread's turn |
| WaitGraph.NoCircularWait | src/select.c:220-223 | With locks asked for in the order the select's sort leaves, the combined graph of lock waits and turn waits has no cycle, for any threads and channels |
| WaitGraph.SomebodyMoves | src/ring_lf.c:99-102 | While any thread is busy, some busy thread can take its next lock, its turn, or release its locks |
| SelectClaim.AtMostOneWinner | src/libchan_internal.h:248-254 | At most one stub of a select call ever has its result set |
| SelectClaim.SettledStubsGone | src/select.c:321-338 | A stub with a result is in no queue, and once the call has returned none of its stubs is |
| SelectClaim.ResultsAreFinal | src/select.c:288-315 | A stub's result never changes and its call stays claimed |
| SelectFate.NobodyIsLost | src/libchan_internal.h:259-274 | While a parked select is unclaimed, each of its stubs is queued on the channel of its case |
| SelectFate.WakeKeeps | src/libchan_internal.h:259-274 | A waker takes nobody out of a queue but claimed stubs and the first it can claim |
| SelectFate.WakeDrops | src/libchan_internal.h:259-274 | It drops every claimed stub before that one, and leaves the rest of the queue in order |
| SelectFate.StrandedForGood | src/libchan_internal.h:303-307 | A select claimed without a result never gets one |
| SelectFate.PutBackStrands | src/libchan_internal.h:303-307 | A run in which a parked select is claimed and put back |
| SelectFate.StrandedBy | src/libchan_internal.h:303-307 | A step strands a select exactly if it is a waker whose ring operation fails after it has claimed a stub of that select |
| SelectFate.StrandedExact | src/libchan_internal.h:248-254 | No select is ever claimed without a result, exactly when no waker puts a claimed waiter back |
| Unbuffered.RefusalsJustified | src/chan_send.c:76-84 | WouldBlock only to a try that finds nobody waiting on an open channel, Closed only on a closed one, Timeout only to a timed one |
| Unbuffered.OnlyWaits | src/chan_send.c:74-103 | In every reachable state a thread inside a request can move exactly unless it is parked, unserved and without a timeout |
| Unbuffered.FirstComeFirstServed | src/libchan_internal.h:90-110 | Of two waiting on the same side the later one is never first in the queue while the other still waits |
| Unbuffered.NeverBothWaiting | src/chan_send.c:74-103 | A waiting sender and a waiting receiver never coexist |
| Unbuffered.OkMeansPaired | src/chan_recv.c:58-91 | Each Ok operation has met exactly one operation of the other kind, with the same value |
| Unbuffered.UntimedIsHonest | src/chan_recv.c:58-91 | Without finite timeouts, an operation reports Ok exactly when it met its peer |
| Unbuffered.LateTimeout | src/chan_send.c:92-98 | A run in which a timed-out send reports a timeout although its value was received |
| Unbuffered.UntruthExact | src/chan_recv.c:80-87 | The step that returns a request misreports it exactly when it is the timeout path of a waiter already dequeued and served |
| Unbuffered.HonestExact | src/chan_send.c:92-98 | Results are honest in every run exactly when no finite timeout is used |

## Left out

- ReceiverWakeup.NoLostReceiverWakeup: one receiver only, which LostWakeups.ReceiverWakeupExact shows to be needed.
- SenderWakeup.NoLostSenderWakeup: one sender only, which LostWakeups.SenderWakeupExact shows to be needed.
- SpscRing.CachesAreLower: does not model 32-bit wrap-around; SpscWords.CachedTestExact says when the tests on words agree.
- SpscTheorems.CachesAndCapacity: likewise on unbounded cursors, under the condition of SpscWords.CachedTestExact on words.
- SpscTheorems.NoLostWakeup: says nothing about the bounded park, during which a wakeup may be missed by design.
- RingViewTheorems.RaceFree: one direction; RingViewExact.RaceFreeIffFit and RaceFreeIffFresh have both.
- CloseDrain.QuietChannel.Close: no other thread at work; close among running threads is in ChannelClose.
- WordRuns.LiftRun: the lag of a snapshot is measured on the cursors of the unbounded execution.
- The channel modules work on values: aliasing of waiter nodes and their links is in WaitQueue, and the slots array in RingBuffer.
- Waiter results and the wake that follows are one step; the few steps between setting a result outside the lock and signalling the park are not separated.
- RingBuffer keeps unbounded cursors; WordRing relates those to 32-bit words.
- Releasing the locks of a select is one step in WaitGraph; SelectOrder has the loop.
- Select on buffered channels: which case runs, its payload and how soon a stub is woken.
- Readiness and execution of select cases, the lock-free select path and its round-robin and random choices.
- ChannelProgress.SomebodyMoves: says that some thread can move, not that under a fair schedule every request ends.
- Closing a single-producer single-consumer channel, and its memory orders beyond the staleness of the waiter counts.
- Release/acquire reasoning for the channel protocol above the ring; the fenced count checks are taken as sequentially consistent.
- Futexes, mutexes, condition variables, spinning, clocks and the lifetime of stack-allocated waiters.
- Allocation failure, null arguments, element sizes and byte copies, reference counts, chan_len, ring_lf_count, chan_cap and error strings.
- Benchmarks other than the per-slot-sequence ring, the examples and the tests.
