# Verified model of the lock-free transports

A Dafny model of the transports under `src/`: the SPSC ring, the two wake gates,
and what is composed from them (the many-to-one fan-in with its producer pool, the
sharded many-to-many channel, the one-shot cell and the signal set).

`dafny verify dfyconfig.toml` checks everything.

## How it is modelled

Each transport appears in up to two forms.

* **Call by call**, as classes whose fields the methods update in place: slot arrays,
  wrapping word cursors, stale private cursor copies, occupancy words, live counts.
  Ghost history (everything sent, everything received) says what the words stand for.
  Callbacks that unwind are a parameter: the number of the call that unwinds.
* **Step by step**, as machines in which every atomic load, store, read-modify-write
  and fence is one step of one thread's program counter. A run is any finite sequence
  of enabled steps; theorems hold in every state of every run. What a call returns is a
  theorem about every run from its first step to its last, in which all other threads do
  what they like: it relates the answer to the arguments and to looks that the call itself
  made (`Runs.Happens`, `Runs.Since`). That a call comes back is a bound on the caller's own
  steps (`Runs.Count`); such a step exists unless the caller is blocked (the `CanMove`
  lemmas), where the wake-up theorems take over. Where the argument is
  about a store that a later load overtakes, memory is a store-buffering one (x86-TSO):
  stores enter the thread's own FIFO buffer and reach memory at a later flush;
  read-modify-writes and `fence(SeqCst)` need the buffer empty. `unpark` sets a boolean
  token and `notify_one` a boolean permit, as the standard library and tokio promise.

| file | what it holds |
|---|---|
| `Bits.dfy`, `Slots.dfy`, `Runs.dfy` | words, masks and wrapping cursors; storage that owns values; runs |
| `Ring.dfy` | the ring and its two handles, call by call |
| `RingTso.dfy`, `RingFifo.dfy`, `RingWake.dfy` | the blocking ring step by step; that it is a bounded FIFO; that it never deadlocks |
| `RingCalls.dfy`, `RingProgress.dfy` | what its calls return, whatever happens meanwhile; that they come back |
| `ParkGate.dfy`, `NotifyGate.dfy` | the parked-flag gate and the armed-counter gate, each alone with any number of wakers |
| `Mpsc.dfy`, `MpscFanIn.dfy`, `MpscCalls.dfy` | the fan-in call by call; its waiting and termination step by step; what its receives return and when |
| `Pool.dfy`, `PoolRace.dfy`, `PoolCalls.dfy` | the leasable producer pool call by call and step by step; what an acquire comes to |
| `MpmcRouting.dfy`, `Mpmc.dfy`, `MpmcSteps.dfy` | routing on loads; the sharded channel call by call; every interleaving of it |
| `MpmcShutdown.dfy`, `MpmcWake.dfy` | what the end of its `recv` means, decided when the call begins; the waits of its producers and consumers |
| `MpmcCalls.dfy`, `MpmcWaits.dfy` | what its calls and its waits return, and that they come back |
| `OneShot.dfy` | the five-state cell step by step |
| `SignalSet.dfy`, `SignalGate.dfy` | the chunked bitmap call by call; edge-triggered waking step by step |

## Where code and text disagree

The model follows the code.

* `src/stream/ring.rs:684-725`: a drain whose callback unwinds publishes what it moved
  out but neither wakes the producer nor refreshes the cached head. Any call may follow,
  and each of them meets `Ring.Consumer.ReadSafe`: a receive reads a slot that owns a
  value if and only if an item is left or the cache word names the tail
  (`Ring.Consumer.TryRecv`; outside it the slot is empty, by `Ring.Ring.NextSlotOwned`).
  `Ring.UnwoundDrainMisreads` is a run that leaves the condition, and
  `Ring.SendForReader` and the contract of `Drain` say what brings it back.
  `RingWake.UnwoundDrainStrandsProducer` shows a producer blocked on a ring with room
  until the handle is used or dropped.
* `src/route/mpsc.rs:561-563` promises `Err(Shutdown)` after shutdown and with all rings
  drained; `src/route/mpsc.rs:504-507` returns on the flag alone. The promise holds of a
  channel if and only if nobody signals it: `MpscFanIn.DrainedIffNobodySignals`.
* `src/route/mpmc.rs:665-678` does not look again once the channel is over, so
  `Err(Shutdown)` can leave an item, even when nobody signalled
  (`MpmcSteps.RecvMayLeaveAnItem`). `MpmcShutdown.EndMeansDrainedIff` has the exact
  condition at the moment the call begins.
* `src/route/mpmc.rs:638-655`: an unwound `drain_all` has stored the tail and does not
  come to `wake()`. The handle stays usable, and producers and consumers can then all
  sleep for good: `MpmcWake.UnwoundDrainsPutAllToSleep`. Without an unwind not even two
  of them are blocked on each other: `MpmcWake.DeadlockNeedsAnUnwind`.
* `src/waiter/park.rs:112` calls the second probe a read-modify-write; the code
  (`src/waiter/park.rs:377-378`) is a fence and a relaxed load.
* `src/waiter/park.rs:28-29` lets an episode's last look precede the end of its
  announcement; a wait that times out (`src/waiter/park.rs:315-318`) looks once more after
  it, and `ParkGate.WaitReturns` says what its answer then means.
* `src/stream/ring.rs:451-489` publishes a bulk in `pop` order, so last item first.

## Model

| member | source | states |
|---|---|---|
| `Bits.WrapSubExact` | src/stream/ring.rs:403-424 | `wrapping_sub` of two wrapped counters is their true distance, through any number of word overflows, whenever that distance fits a word |
| `Bits.WrapInjective` | src/stream/ring.rs:648-665 | equal cursor words mean equal counters, so empty and full are never confused |
| `Bits.MaskedCursor` | src/stream/ring.rs:415-424 | `& MASK` of the wrapped cursor is the unbounded counter modulo the capacity |
| `Slots.TakeFirst` | src/stream/ring.rs:666-678 | the oldest slot owns the oldest value, and moving it out leaves exactly the rest owned |
| `Slots.PutNext` | src/stream/ring.rs:415-434 | the next slot to write owns nothing, so no value is overwritten, and afterwards owns the new value |
| `Ring.Ring.Len` | src/stream/ring.rs:271-275 | the word difference is the number of items sent and not received |
| `Ring.Ring.NextSlotOwned` | src/stream/ring.rs:666-678 | the masked slot at the tail owns a value if and only if an item is left |
| `Ring.Ring.Drop` | src/stream/ring.rs:302-324 | teardown destroys, in order, exactly what was sent and never received, and leaves no slot owning a value |
| `Ring.PoppedReverses` | src/stream/ring.rs:470-480 | the order in which a bulk send publishes is the vector's order reversed |
| `Ring.Producer.TrySend` | src/stream/ring.rs:400-434 | with a cache arbitrarily stale: sent exactly if the ring has room, one wake per item; refused hands the value back, as closed exactly if the ring is full and closed |
| `Ring.Producer.TrySendBulk` | src/stream/ring.rs:451-489 | takes as many items off the end as the cache leaves room for, nothing exactly if there is nothing to send or no room, under one wake |
| `Ring.Consumer.TryRecv` | src/stream/ring.rs:641-678 | in any state that calls leave behind, unwound drains included: reads an empty slot if and only if the cache word differs from the tail and no item is left; otherwise receives the oldest item if there is one, under one wake; reports disconnection only when closed and everything sent was received |
| `Ring.Consumer.ValidIsReadSafe` | src/stream/ring.rs:641-665 | where no drain has unwound a receive is always safe |
| `Ring.Consumer.Drain` | src/stream/ring.rs:684-725 | after anything, an unwound drain included: gives the callback exactly the items that leave the ring, in order, the item of an unwinding call included; a drain that returns with something makes every receive safe again; after one that unwinds a receive is safe if and only if items are left or the stale cache names the tail |
| `Ring.SendForReader` | src/stream/ring.rs:400-434 | an accepted send makes a receive safe, and a refused one changes nothing about that |
| `Ring.UnwoundDrainMisreads` | src/stream/ring.rs:684-725 | one slot, one send, a drain that unwinds on that item: the next receive reads the emptied slot |
| `Ring.RunAndTearDown` | src/stream/ring.rs:302-324 | any calls on both handles, unwound drains and whatever calls follow them, then both drops and teardown: accepted is delivered followed by destroyed, unless a receive somewhere after a drain read an empty slot |
| `RingTso.ConsumerReadsNext` | src/stream/ring.rs:666-678 | in every interleaving a receive reads an initialised slot and gets the next value issued |
| `RingTso.SlotFlushSlots` | src/stream/ring.rs:415-434 | a slot write reaching memory keeps every written and unreleased slot as it was |
| `RingTso.RunKeepsInv` | src/stream/ring.rs:526-545 | every state of every run of sends, bulk sends, receives, drains (after an unwound one too) and drops satisfies the invariant of cursors, buffers, gates and slots |
| `RingFifo.StepRefines` | src/stream/ring.rs:400-434 | every step of either thread is one step of an abstract bounded queue with a release of room, or none; full, empty and disconnected are observed only when true of it |
| `RingFifo.RunRefines` | src/stream/ring.rs:641-678 | a run of the ring is a run of the abstract queue |
| `RingFifo.FifoConserves` | src/stream/ring.rs:400-434 | of any run of the abstract queue: what left, then what is inside, is what was there, then what entered; never more than the capacity |
| `RingFifo.SentIsReceivedAndInFlight` | src/stream/ring.rs:641-678 | received is a prefix of sent and the rest in flight never exceeds the capacity, whatever the caches hold |
| `RingFifo.FullIsReal` | src/stream/ring.rs:405-414 | a ring that the loaded tail shows full holds its capacity, unless the consumer has not come to the second probe of its wake or left the wake out by unwinding |
| `RingFifo.SlotWriteIsFree` | src/stream/ring.rs:415-424 | a pending slot write never aims at a slot that is published and unreleased |
| `RingFifo.DisconnectMissesNothing` | src/stream/ring.rs:648-665 | disconnection is reported only with the producer gone and everything it ever wrote received, in every interleaving of last publish, close and both head loads |
| `RingFifo.RefusalMeansConsumerGone` | src/stream/ring.rs:526-545 | a send is refused as closed only after the consumer handle dropped |
| `RingFifo.OwnedExactlyOnce` | src/stream/ring.rs:302-324 | after both drops and teardown every issued value was received once or destroyed once, whatever safe calls follow an unwound drain |
| `RingFifo.ReceiveIsOpenIff` | src/stream/ring.rs:648-665 | the machine refuses to begin a receive in exactly the states in which it would read an empty slot |
| `RingFifo.ProducerTests` | src/stream/ring.rs:403-424 | the word differences of the producer are its exact room and occupancy against both the cached and the loaded tail, and the mask picks its slot, for every power-of-two capacity below the word size |
| `RingFifo.ConsumerTests` | src/stream/ring.rs:648-725 | emptiness against the loaded head, the end of the drain loop, the slot read and the end of the teardown loop come out the same on wrapped words |
| `RingFifo.CacheTest` | src/stream/ring.rs:648-650 | so does the test of the cached head, as long as the tail is less than one word size past a cache that an unwound drain left behind |
| `RingWake.NoDeadlock` | src/stream/ring.rs:526-545 | whatever calls follow an unwound drain: both endpoints are never blocked at once, none is blocked once its peer is gone, a blocked consumer with something to do is owed a wake, and a blocked producer with room is owed one if and only if the last tail it was woken for is the present one |
| `RingWake.BlockedProducerIsOwed` | src/stream/ring.rs:684-725 | that exception at every state of the invariant: the wake is owed if and only if no unwound drain has moved the tail since the last wake |
| `RingWake.ConsumerIsWoken` | src/waiter/park.rs:370-381 | a blocked consumer that is owed a wake has its token within eight of the producer's own steps |
| `RingWake.ProducerIsWoken` | src/waiter/park.rs:370-381 | a blocked producer that is owed a wake, by a consumer inside `wake()` or by the drop it has begun, has its token within five of the consumer's own steps |
| `RingWake.UnwoundDrainStrandsProducer` | src/stream/ring.rs:684-725 | a concrete run: after an unwound drain the producer sits blocked although there is room and every store is visible |
| `RingCalls.SendReturns` | src/stream/ring.rs:526-545 | in every run from its first step to its last: a `send`, parked or not, has put its own value and nothing else into the ring, visibly; or the consumer handle is dropped and it says so; only a `try_send` comes back otherwise, having found the ring full |
| `RingCalls.BulkReturns` | src/stream/ring.rs:450-489 | a bulk has put in the front of its items, as many as fit the room it saw, visibly; none only if it had none or found the ring full |
| `RingCalls.RecvReturns` | src/stream/ring.rs:744-759 | a `recv` hands out exactly the next value issued and gives its slot up; or the producer is gone, everything it issued was received, and it says so; only a `try_recv` comes back otherwise, having found the ring empty |
| `RingCalls.DrainReturns` | src/stream/ring.rs:684-725 | a drain hands out the next values issued, at least all that was visible when it began, and leaves the cached head at the tail; one that unwinds hands out something and gives up exactly the slots of that |
| `RingCalls.WaitEndsReady` | src/waiter/park.rs:222-268 | whatever token or spurious return wakes it, either thread leaves its wait only in a state with room, or an item, or a closed ring |
| `RingCalls.ReceiveStaysOpen` | src/stream/ring.rs:641-678 | as long as no drain unwinds, an idle consumer may always receive: a cached head unlike the tail proves an item |
| `RingProgress.SendComesBack` | src/stream/ring.rs:526-545 | once there is room or the ring is closed a send comes back within a fixed number of the producer's own steps and one for each item, whatever the consumer does |
| `RingProgress.RecvComesBack` | src/stream/ring.rs:744-759 | once an item shows or the ring is closed a receive or drain comes back within `CAP + 15` of the consumer's own steps |
| `ParkGate.NoLostWake` | src/waiter/park.rs:222-268 | any number of wakers, publishes and episodes, stale tokens and deadlines included: if the waiter is blocked and what it watches for was issued, some waker is still between its publish and the end of its wake |
| `ParkGate.WakeArrives` | src/waiter/park.rs:370-381 | any waker inside `wake()` sets the token within four of its own steps, whatever other wakers do |
| `ParkGate.WakerDelivers` | src/waiter/park.rs:370-381 | and it is never stuck: its own steps and the flushes of its stores lead there |
| `ParkGate.UnfencedGateLosesWake` | src/waiter/park.rs:370-381 | the same gate without the fence and second probe reaches blocked, condition true, nobody left to wake |
| `ParkGate.WaitReturns` | src/waiter/park.rs:222-320 | in every run of one episode: a wait that returns has loaded a condition it watches and found it true, unless its deadline passed; the timed wait says which, and a timed-out one has found none true and each false once more after taking its announcement back |
| `ParkGate.WaitComesBack` | src/waiter/park.rs:222-268 | once a watched condition holds, a wait returns within a fixed number of the waiter's own steps and loads, whatever the wakers do |
| `ParkGate.IssueArrives` | src/waiter/park.rs:47-48 | a condition that a waker stores is true once its stores up to that one are flushed, at once if it was a read-modify-write, and stays so until it is consumed |
| `NotifyGate.NoLostWake` | src/waiter/notify.rs:172-208 | under arbitrary cancellation a suspended task without a permit whose predicate was made true is owed a notification |
| `NotifyGate.ArmedCountsLiveFutures` | src/waiter/notify.rs:218-226 | the counter always equals the number of live guarded futures, is positive while the task is guarded, and is zero when none is left |
| `NotifyGate.SoleTaskDisarms` | src/waiter/notify.rs:280-312 | with no other futures, leaving the wait by return, wake-up or cancellation brings the counter back to zero |
| `NotifyGate.WakeArrives` | src/waiter/notify.rs:186-208 | any waker inside `wake()` sets the permit of a suspended task within three of its own steps |
| `NotifyGate.LoadOnlyGateLosesWake` | src/waiter/notify.rs:186-208 | the same gate trusting its plain load loses a wake |
| `NotifyGate.WaitReturns` | src/waiter/notify.rs:280-312 | a `wait_until` that is left has loaded a condition it watches and found it true if and only if its future was not dropped |
| `NotifyGate.WaitComesBack` | src/waiter/notify.rs:280-312 | once a watched condition holds, it returns within a fixed number of the task's own steps and loads, whatever the wakers and other futures do |
| `NotifyGate.IssueArrives` | src/waiter/notify.rs:40-60 | a condition that a waker stores is true once its stores up to that one are flushed, and stays so until it is consumed |
| `Mpsc.Producer.TrySend` | src/route/mpsc.rs:213-241 | sent, with one fan-in wake, exactly if not shut down and the own ring has room; otherwise the value comes back |
| `Mpsc.Producer.TrySendBulk` | src/route/mpsc.rs:247-263 | what went is what popping yields, one fan-in wake if anything went, nothing exactly if empty, shut down or full |
| `Mpsc.Producer.Drop` | src/route/mpsc.rs:298-306 | closes the ring and counts down; the last one out wakes the consumer |
| `Mpsc.Consumer.TryRecv` | src/route/mpsc.rs:521-533 | the oldest item of the first non-empty ring, whose producer alone is woken; nothing exactly if all rings are drained; no other ring changes; it comes upon an empty slot only in a ring whose own receive would, and never if no batch unwound |
| `Mpsc.Consumer.AnyRingHasWork` | src/route/mpsc.rs:493-500 | true exactly if some ring holds an item |
| `Mpsc.Consumer.IsFinished` | src/route/mpsc.rs:504-507 | true when signalled, whatever the rings hold; otherwise exactly if no producer is left and all rings are drained |
| `Mpsc.Consumer.TryRecvBatch` | src/route/mpsc.rs:539-557 | after anything, an unwound batch included: each ring loses exactly what the callback was given out of it, unwinding or not; without an unwind all rings end drained; one wake for each ring that gave anything and returned |
| `Mpsc.Inner.Signal` | src/route/mpsc.rs:880-886 | raises the flag and wakes the consumer and every producer once |
| `MpscFanIn.NeverSleepsOnWork` | src/route/mpsc.rs:565-581 | with the predicate scanned one load at a time: while the consumer is blocked, every ring with something published, every raised shutdown and the loss of the last producer has its waker still inside `wake()` |
| `MpscFanIn.ShutdownMeansDrained` | src/route/mpsc.rs:504-507 | as long as nobody has signalled: `Err(Shutdown)` only after every producer is gone and everything any of them published was taken |
| `MpscFanIn.SignalMayLeaveAnItem` | src/route/mpsc.rs:504-507 | any number of producers, any capacity, at least one shutdown handle: a run whose `Err(Shutdown)` leaves an item in a ring |
| `MpscFanIn.DrainedIffNobodySignals` | src/route/mpsc.rs:561-563 | for any number of producers and any capacity: every `Err(Shutdown)` of every run comes with all rings drained if and only if the channel has nobody to signal it |
| `MpscFanIn.ConsumerIsWoken` | src/waiter/park.rs:370-381 | a blocked consumer that is owed a wake, by a send, a drop or a signal, has its token within four own steps of whoever owes it, whatever the others do |
| `MpscFanIn.WakerDelivers` | src/waiter/park.rs:370-381 | and whoever owes it is never stuck |
| `MpscFanIn.CursorTests` | src/route/mpsc.rs:493-500 | emptiness and occupancy come out the same on wrapped words |
| `MpscCalls.RecvReturns` | src/route/mpsc.rs:565-600 | in every run from its first step to its last: a `recv` has taken exactly one published item, a `recv_batch` some, and each only what its ring shows; or it returns `Err(Shutdown)` having taken nothing, with the flag raised or every producer gone and everything taken |
| `MpscCalls.ItemInSightIsTaken` | src/route/mpsc.rs:521-557 | a call that begins with an item in sight in a ring returns items, never the end: a `recv` one of that ring or of one before it, a batch all that showed there |
| `MpscCalls.BatchLeavesNothingInSight` | src/route/mpsc.rs:539-557 | a batch comes back only when it has found every ring empty after the last item it took |
| `MpscCalls.WaitEndsReady` | src/route/mpsc.rs:565-581 | whatever token wakes it, the consumer leaves its wait only in a state with an item in sight, the flag raised, or every producer gone and everything taken |
| `MpscCalls.CallComesBack` | src/route/mpsc.rs:565-600 | once an item shows, the flag is up, or every producer is gone and everything taken, a call returns within a fixed number of the consumer's own steps, and one more pass for each take of a batch |
| `MpscCalls.EndIsReported` | src/route/mpsc.rs:504-581 | a `recv` or `recv_batch` that begins with nothing in sight, and every producer gone and everything taken, or the flag visible and nothing shown meanwhile, returns `Err(Shutdown)` within `2 * M + 4` of its own steps |
| `Pool.Pool.Available` | src/route/mpsc.rs:342-359 | the masked popcounts add up to the number of slots not leased |
| `Pool.Pool.FindFree` | src/route/mpsc.rs:370-409 | finds the least free slot, or none exactly if all are leased |
| `Pool.Pool.Acquire` | src/route/mpsc.rs:370-409 | leases the least free slot and no other and hands out its producer; fails exactly if all are leased; bits from `m` on stay clear |
| `Pool.Pool.Release` | src/route/mpsc.rs:437-454 | puts the producer back and frees exactly that slot |
| `Pool.MaskedComplement` | src/route/mpsc.rs:342-359 | the ones of a masked complement are the clear bits below the mask, for every word |
| `PoolRace.OneHolderPerSlot` | src/route/mpsc.rs:370-409 | any number of threads: a slot never has two holders, a clear bit means an occupied cell, and the `unwrap` never fails |
| `PoolRace.LostRaceHasWinner` | src/route/mpsc.rs:370-409 | a `fetch_or` that finds its bit set lost it to another acquire that won the bit since this thread's load |
| `PoolRace.HolderSendsAlone` | src/route/mpsc.rs:437-454 | while a lease lasts its ring grows only by its holder's sends, each written at the head the handle holds |
| `PoolRace.PublishOrder` | src/route/mpsc.rs:437-454 | over any sequence of leases of a slot, what its ring was sent only grows at the end: every later holder sends after everything earlier ones sent |
| `PoolCalls.AcquireReturns` | src/route/mpsc.rs:370-409 | over every race: a refused `acquire` has found each slot leased at a look of its own, and one that returns a lease has found each slot before that one leased |
| `PoolCalls.LeasedIffHeld` | src/route/mpsc.rs:437-454 | in every state of every run a slot's bit is set if and only if some thread is between winning and clearing it, so a dropped lease frees its slot |
| `PoolCalls.AcquireIsLockFree` | src/route/mpsc.rs:370-409 | the steps of an `acquire` or a drop are bounded but for two more for each bit that anybody wins meanwhile: it goes on only as long as others succeed |
| `MpmcRouting.VisitsDistinct` | src/route/mpmc.rs:387-391 | the rotated scan visits no shard twice |
| `MpmcRouting.Turn` | src/route/mpmc.rs:387-391 | the rotated scan visits every shard, and when |
| `MpmcRouting.ScanIsComplete` | src/route/mpmc.rs:391-398 | the scan finds nothing exactly if every shard is full |
| `MpmcRouting.RoutingIsBalanced` | src/route/mpmc.rs:383-407 | from empty without drains the first N * RING_CAP sends succeed, loads never differ by more than one, and the next send fails |
| `MpmcRouting.AvailableIsAPromise` | src/route/mpmc.rs:343-353 | if `available()` returned a, the next a sends of that producer succeed whatever consumers drain in between |
| `Mpmc.UsedExact` | src/route/mpmc.rs:99-101 | the word difference of a ring's cursors is its occupancy; equal words mean empty |
| `Mpmc.Mpmc.TrySend` | src/route/mpmc.rs:383-407 | handed back exactly if the channel is over or every ring of the producer is full; otherwise appended to the first ring with room in rotation, whose consumer alone is woken, and the cursor moves past it |
| `Mpmc.Mpmc.ChoiceIsComplete` | src/route/mpmc.rs:387-407 | the chosen shard exists exactly if not every ring is full |
| `Mpmc.SendIsRouted` | src/route/mpmc.rs:383-407 | a send to the picked shard turns loads and cursor into exactly what one routing step makes of them |
| `Mpmc.FillFresh` | src/route/mpmc.rs:383-407 | on a new channel one producer sends up to N * RING_CAP values without a refusal, its loads never differ by more than one, and after that many every ring is full |
| `Mpmc.Mpmc.TrySendBatch` | src/route/mpmc.rs:410-441 | one contiguous in-order prefix of the batch, as long as fits, goes to one ring; nothing exactly if the batch is empty or every ring is full |
| `Mpmc.Mpmc.Available` | src/route/mpmc.rs:343-353 | the room summed over the shards, zero exactly if every ring is full; that many next sends of the producer find room whatever consumers drain in between |
| `Mpmc.Mpmc.HasIdleShard` | src/route/mpmc.rs:309-319 | true exactly if not every ring of the producer is full |
| `Mpmc.Mpmc.TryRecv` | src/route/mpmc.rs:591-608 | the oldest item of the shard's first non-empty ring, whose producer alone is woken; nothing exactly if the shard is empty |
| `Mpmc.Mpmc.AnyRingHasWork` | src/route/mpmc.rs:138-148 | true exactly if the shard holds an item |
| `Mpmc.Mpmc.DrainAll` | src/route/mpmc.rs:616-659 | with a callback that unwinds at any item: what it was given is what left the shard, in ring and send order; every ring stays valid, so the handle is reusable; without an unwind the shard is empty and each ring that held anything was woken for once |
| `Mpmc.MoveOut` | src/route/mpmc.rs:638-651 | the guarded inner loop moves out exactly the front of one ring, up to and including the unwinding item |
| `Mpmc.History.TakeIsFront` | src/route/mpmc.rs:624-655 | draining the first non-empty ring takes the front of what the shard holds |
| `Mpmc.Mpmc.DropProducer` | src/route/mpmc.rs:497-506 | counts down; the last one out makes the channel over for consumers and wakes each of them once |
| `Mpmc.Mpmc.DropConsumer` | src/route/mpmc.rs:721-730 | counts down; the last one out makes the channel over for producers and wakes each of them once |
| `Mpmc.Mpmc.Signal` | src/route/mpmc.rs:750-758 | over for both sides, and everyone woken once |
| `Mpmc.Mpmc.Drop` | src/route/mpmc.rs:210-226 | teardown destroys, ring by ring and in order, exactly what was sent and not received, and leaves no slot owning a value |
| `MpmcSteps.RunKeepsInv` | src/route/mpmc.rs:383-441 | every state of every run of sends, batches, receives, drains, unwinds, drops and shutdown satisfies the invariant |
| `MpmcSteps.AcceptedIsDeliveredOrHeld` | src/route/mpmc.rs:591-659 | per (producer, shard): what send calls reported accepted is what the consumer was given, in that order, followed by what the ring holds, which is at most its capacity and exactly what its slots own |
| `MpmcSteps.TeardownOwnsTheRest` | src/route/mpmc.rs:210-226 | with the handles gone, teardown finds between the cursors exactly what was accepted and never delivered |
| `MpmcSteps.BatchIsContiguous` | src/route/mpmc.rs:410-441 | each accepted batch occupies one contiguous stretch, in order, of one ring's stream |
| `MpmcSteps.FullWhenScanned` | src/route/mpmc.rs:391-398 | a shard is passed over exactly if its ring, as far as the producer can see, is full |
| `MpmcSteps.RefusalSawEveryShardFull` | src/route/mpmc.rs:383-407 | in every run a send refused for want of room has, for every shard, a step of its own scan at which that ring was full as far as the producer could see |
| `MpmcSteps.CursorTests` | src/route/mpmc.rs:391-398 | occupancy against a stale tail, emptiness and the end of the drain loop come out the same on wrapped words |
| `MpmcSteps.NothingFoundMeansTaken` | src/route/mpmc.rs:616-659 | a call that ends with nothing found has taken everything that was visible when its last pass began, having seen each ring empty in that pass |
| `MpmcSteps.DrainMoves` | src/route/mpmc.rs:616-659 | a drain is never stuck, and each step of its own returns, takes an item or shortens the pass |
| `MpmcSteps.DrainTerminates` | src/route/mpmc.rs:616-659 | whatever the producers do, the steps a drain has made and has left in its pass are paid for by the items it took |
| `MpmcSteps.DrainStepsAreBounded` | src/route/mpmc.rs:616-659 | a drain makes at most a fixed number of steps per item taken, and two passes |
| `MpmcCalls.SendReturns` | src/route/mpmc.rs:383-441 | in every run from its first step to its last: a send or batch has put the non-empty front of its own items at the end of one ring, cut only by the room there, and nothing anywhere else, has found full every shard that the rotation visits before, and leaves the rotation after that shard; or has found every shard full; or asked and was told that the channel is over; what did not go in comes back |
| `MpmcCalls.ReceiveReturns` | src/route/mpmc.rs:591-678 | against any ring of the shard: a receive hands out one item, of no later ring while that one shows what it did; or nothing, having found the ring empty; `Err(Shutdown)` only with the channel over; a drain all that showed there, having found it empty after the last item it took, unless the callback unwound, and then something |
| `MpmcCalls.CountIsLive` | src/route/mpmc.rs:497-506 | in every state of every run the live count is zero if and only if every producer has been dropped, and never negative |
| `MpmcCalls.SendComesBack` | src/route/mpmc.rs:383-441 | a send never waits, and comes back within one look for each shard, one write for each item and two more steps |
| `MpmcCalls.ReceiveComesBack` | src/route/mpmc.rs:591-678 | a `try_recv` always, and a `recv` once a ring shows an item or the channel is over, comes back within `2 * P + 5` of the consumer's own steps |
| `MpmcShutdown.EndMeansDrainedIff` | src/route/mpmc.rs:665-678 | at the start of a `recv` in any reachable state: every run of that call that returns `Err(Shutdown)` leaves the shard drained if and only if a ring of the shard shows an item or nobody can write to it any more and all that was written shows |
| `MpmcShutdown.EndIsDrained` | src/route/mpmc.rs:665-678 | one half, for every run of the call and any number of producers, consumers and steps |
| `MpmcShutdown.MayLeaveAnItem` | src/route/mpmc.rs:665-678 | the other half as a run built from any such state: the scan finds nothing, a producer, wherever it is in its code and its rotation, comes to write to the shard, and the call ends |
| `MpmcSteps.RecvMayLeaveAnItem` | src/route/mpmc.rs:665-678 | a concrete run in which nobody signals: `Err(Shutdown)` with an item in the ring |
| `MpmcWake.RunKeepsInv` | src/route/mpmc.rs:448-461 | every state of every run of sends, receives, drains, unwinds, waits, drops and signals satisfies the invariant of credit, gates and wakes |
| `MpmcWake.WaiterIsOwed` | src/route/mpmc.rs:448-461 | any number of producers and consumers: a blocked one with room or an item from a peer, shown or not, is owed a wake by that peer or has it as the debtor of an unwound drain; one whose wait the end of the channel should finish is owed a wake by whoever ended it |
| `MpmcWake.NoDeadlock` | src/route/mpmc.rs:665-697 | as long as no drain unwinds a producer and a consumer are never blocked at once |
| `MpmcWake.BothBlockedMeansDebt` | src/route/mpmc.rs:638-655 | a producer and a consumer blocked at once: the consumer has drained from it, unwound, and not woken it since |
| `MpmcWake.UnwoundDrainsPutAllToSleep` | src/route/mpmc.rs:638-655 | any numbers and any capacity: a run after which everybody is blocked although every producer can see its rings empty |
| `MpmcWake.NobodyElseMoves` | src/route/mpmc.rs:638-655 | in that state nothing can happen but spurious returns and a shutdown signal |
| `MpmcWake.DeadlockNeedsAnUnwind` | src/route/mpmc.rs:638-655 | a channel can come to that state if and only if drains may unwind |
| `MpmcWaits.WaitReturns` | src/route/mpmc.rs:448-461 | any wait of a producer or consumer that returns has seen, at a load of its own, room or an item with a peer, the flag, or the other side gone |
| `MpmcWaits.WaitComesBack` | src/route/mpmc.rs:448-461 | once there is something to see, a wait returns within `2 * P + 10` of the agent's own steps, whatever the others do |
| `MpmcWaits.CountsAreExact` | src/route/mpmc.rs:497-506 | in every state of every run the two live counts are the numbers of producers and of consumers that have not begun to leave |
| `MpmcWaits.SignalArrives` | src/route/mpmc.rs:750-758 | a signal raises the flag for good as soon as its store is shown |
| `MpmcWaits.DebtIsAnUnwindSince` | src/route/mpmc.rs:638-655 | in every state of every run a consumer is in debt to a producer, as `WaiterIsOwed` and `BothBlockedMeansDebt` say it, if and only if it has taken from it in a drain that unwound and has not woken it since |
| `OneShot.NeverTwice` | src/route/oneshot.rs:254-271 | over every race of send, drops, any number of `try_recv` callers and `recv`: delivered at most once, dropped at most once, never both, and nothing but the sent value |
| `OneShot.ExactlyOnceAtTheEnd` | src/route/oneshot.rs:92-106 | once both references are gone a sent value was delivered or dropped exactly once |
| `OneShot.ReadersFindTheValue` | src/route/oneshot.rs:254-271 | whoever won the FULL to TAKEN exchange reads an initialised slot holding the sent value |
| `OneShot.ReceiveIsSafe` | src/route/oneshot.rs:284-309 | the final `expect` never fails, and a receive sleeps without a token only while the sender has not finished |
| `OneShot.StaleLookIsReclaimed` | src/route/oneshot.rs:142-170 | a concrete run: a send that looked before the receiver dropped overwrites the mark with FULL, and teardown destroys the value once |
| `OneShot.SendReturns` | src/route/oneshot.rs:142-170 | a `send` that has returned has put its value into the slot and published it; unless its look found the receiver gone, and then it left the slot alone and destroyed the value |
| `OneShot.RecvReturns` | src/route/oneshot.rs:284-309 | in every run of a `recv` that is not cancelled: when it is over a sent value has been delivered, exactly once, and is not destroyed; without one the sender was dropped unsent |
| `OneShot.TryRecvReturns` | src/route/oneshot.rs:238-271 | a `try_recv` takes the value if and only if the byte says FULL, and can then read what was sent; one that gets nothing after the send has returned came after another taker |
| `OneShot.DroppedOnlyWithoutReceiver` | src/route/oneshot.rs:92-106 | a sent value is destroyed only once the receiver is gone |
| `OneShot.RecvComesBack` | src/route/oneshot.rs:284-309 | once the sender has sent or gone, a `recv` is over within seven of its own steps |
| `OneShot.SendComesBack` | src/route/oneshot.rs:142-170 | a `send`, or the drop of the sender, is over within eight of its own steps, whatever the receiver does |
| `SignalSet.SignalSet.Create` | src/gate/signal_set.rs:177-190 | the next index, or nothing exactly at capacity or 256 |
| `SignalSet.SignalSet.IdOf` | src/gate/signal_set.rs:202-211 | the first index registered under the name, if any |
| `SignalSet.SignalSet.Release` | src/gate/signal_set.rs:239-249 | opens exactly that gate and wakes exactly if it was shut |
| `SignalSet.SignalSet.LockChunkMask` | src/gate/signal_set.rs:273-275 | shuts exactly the gates of the mask in that chunk |
| `SignalSet.SignalSet.Lock` | src/gate/signal_set.rs:257-261 | shuts exactly that gate |
| `SignalSet.SignalSet.AnyOpen` | src/gate/signal_set.rs:287-289 | true exactly if a gate of the mask is open |
| `SignalSet.SignalSet.AllOpen` | src/gate/signal_set.rs:293-296 | true exactly if every gate of the mask is open |
| `SignalSet.SignalSet.AnyChunkOpen` | src/gate/signal_set.rs:313-320 | true exactly if any gate of any chunk is open |
| `SignalGate.EdgeWakesSuffice` | src/gate/signal_set.rs:239-249 | any number of producers, any/all/any-chunk waits: parked without a token while the wait holds only if a producer that flipped a gate is still inside its wake |
| `SignalGate.LockRaisesNothing` | src/gate/signal_set.rs:257-275 | shutting gates makes no wait true that was false, whatever it waits for, so it needs no wake |
| `SignalGate.ConsumerIsWoken` | src/gate/signal_set.rs:239-249 | a parked consumer has its token within four own steps of any producer inside its wake |
| `SignalGate.AcquireReturns` | src/gate/signal_set.rs:326-355 | in every run from its first step to its last: an `acquire_all` that returns has looked while every gate of its mask was open, an `acquire_any` while one was, an `acquire_any_chunk` while any gate at all was |
| `SignalGate.AcquireComesBack` | src/gate/signal_set.rs:326-355 | once the gates are as it asks and nobody shuts any, it returns within a bounded number of the consumer's own steps |
| `SignalGate.WaitsAreThoseOfTheSet` | src/gate/signal_set.rs:287-320 | what the machine waits for is what `all_open`, `any_open` and `any_chunk_open` ensure about the words |
| `SignalGate.ReleaseIsThatOfTheSet` | src/gate/signal_set.rs:239-249 | a release of the machine opens the gates that the signal set's release opens, and wakes when it does |
| `SignalGate.LockIsThatOfTheSet` | src/gate/signal_set.rs:257-275 | so does shutting the gates of a mask in one chunk |

## Left out

- Full C11 weak memory: the gates are proved on x86-TSO; release, acquire and relaxed accesses are all TSO accesses there.
- Tokio runtime, `Future`, `Pin`, `poll` and the boxed async paths of the fan-in: the awaiting loop appears only as notified, predicate, await, drop of the guard.
- OS threads, real time and spin counts: a spin is an extra predicate evaluation and a deadline an event that may come at any look at the clock.
- In-place heap initialisation, cache-line padding, `repr`, `Send`/`Sync` markers, `Debug`: layout and type-system matters.
- The waker sees a registration or it does not; the mutex around the thread handle is not a separate step.
- The gates, the one-shot cell and the pool race are machines on values, not classes: what matters in them is the order of single accesses by several threads.
- `RingTso`, `MpscFanIn` and `MpmcSteps` use unbounded cursors; the lemmas `RingFifo.ProducerTests`, `RingFifo.ConsumerTests`, `RingFifo.CacheTest`, `MpscFanIn.CursorTests` and `MpmcSteps.CursorTests` carry their tests over to wrapped words.
- `RingTso` begins no receive that would read an empty slot after an unwound drain (`RingFifo.ReceiveIsOpenIff`); `Ring.Consumer.TryRecv` says what such a call finds. Its consumer's tail stores become visible in order and possibly in part, more runs than a store buffer has.
- `MpmcWake` keeps of each ring only its cursors, as credit, shows stores at any time and possibly in part, and does not put probing and use of one ring into separate steps: `MpmcSteps` does.
- `MpscFanIn` keeps of each ring only its cursors, shows a consumer's tail store at once, and does not model the `closed` flag, which no fan-in decision reads.
- The backpressure waits of fan-in producers are not a machine of their own, and nothing is proved of them. They have the shape of `MpmcWake` with one consumer, an unwound batch that wakes nobody included, but test the flag before the ring and are not woken by the drop of the consumer, so blocked senders rely on a live one.
- The asynchronous waits of both channels: `NotifyGate` has the gate for any conditions and any wakers that come to `wake()`; a drain that unwinds does not come to it, there as in `MpmcWake`.
- Items in the shard of a dropped many-to-many consumer stay there until teardown, as in the code; nothing is claimed about their delivery.
- `Mpmc` keeps the routing cursor as a natural number below the shard count; the code stores it in 32 bits.
- Thread registration beyond its flag, `NoopWaiter`, snapshot metrics (`pending`, capacities), `SignalId` helpers and the dead `should_notify_consumer` gate: easy members.
