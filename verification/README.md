# A verified model of the concurrent queue

The repository is an altered copy of a multi-producer, multi-consumer queue in C++. A queue is made
of sub-queues, one per producer. An explicit producer keeps its blocks in a ring of its own; an
implicit producer, found through a hash of the calling thread's id, takes blocks from a shared pool
and gives them back as soon as they are empty. Consumers claim indices of a sub-queue with four
counters, look up the block of each index in a circular block index, take the elements and mark them
as dequeued. A blocking variant pairs the elements with the tokens of a semaphore.

This project models these parts and proves what they promise. The concurrent parts are state
machines: any number of threads take steps in any order, a thread's program counter says which
operation comes next and which local variables it carries, and theorems are about every state of
every run. Atomics are sequentially consistent. Variables called history variables are written but
never read by the program.

The sequential parts keep the source's form: an explicit producer is an object with fields
(`ExplicitProducer.Producer`), the emptiness flags of a block are an array in an object
(`BlockFlags.Flags`), and the destructors, index copies and table lookups are methods with loops.

| file | contents |
|---|---|
| `Circular.dfy` | wrap-around arithmetic: comparison, masks, block counts, slot lookup on w-bit indices |
| `Basics.dfy`, `Blocks.dfy`, `Sequences.dfy`, `Totals.dfy` | shared names; blocks, offsets and circular slots; sequences; sums over threads |
| `BlockPool.dfy`, `BlockPoolSteps.dfy`, `BlockOwnership.dfy`, `BlockPoolCalls.dfy` | the lock-free free list and the initial pool: program and invariant, steps, results, what calls give |
| `OptimisticDequeue.dfy`, `OptimisticRuns.dfy`, `OptimisticCalls.dfy` | the counters by which consumers claim indices; what a call claims |
| `ClaimRefinement.dfy` | these counters as the queue machines see them |
| `ExplicitQueue.dfy` | explicit producer with consumers: program and invariant |
| `ExplicitFrames.dfy`, `ExplicitProducerSteps.dfy`, `ExplicitConsumerSteps.dfy` | the steps keep the invariant |
| `ExplicitFifo.dfy` | results about runs |
| `ExplicitCalls.dfy` | what calls return, and that they end |
| `ExplicitCells.dfy` | constructed elements are destroyed once |
| `ExplicitProducer.dfy` | explicit producer as a sequential object |
| `ExplicitDestructor.dfy` | its destructor |
| `ExplicitFailure.dfy` | its failing bulk enqueue: what decides that a call fails, and what the exit keeps |
| `ExplicitOverwrite.dfy`, `ExplicitMisplaced.dfy`, `ExplicitLostEntries.dfy` | what the three kinds of damage a failing exit can do lead to |
| `ImplicitQueue.dfy`, `ImplicitInvariant.dfy` | implicit producer with consumers: program, invariant |
| `ImplicitIndex.dfy`, `ImplicitFrames.dfy`, `ImplicitProducer.dfy`, `ImplicitEnqueue.dfy`, `ImplicitConsumer.dfy`, `ImplicitOthers.dfy` | the steps keep the invariant |
| `ImplicitRuns.dfy`, `ImplicitDestructor.dfy` | results about runs; the destructor |
| `ImplicitCalls.dfy` | what calls return, and that they end |
| `ImplicitCells.dfy` | constructed elements are destroyed once, and the pool stays clean |
| `Deliveries.dfy` | exactly-once delivery, shared by both kinds of producer |
| `ProducerHash.dfy`, `ProducerHashLoad.dfy`, `ProducerHashSteps.dfy`, `ProducerHashRuns.dfy`, `ProducerHashCalls.dfy`, `ProducerHashTables.dfy` | the table from thread ids to implicit producers: program and invariant, load bound, steps, results, what calls return, when it grows |
| `BlockFlags.dfy` | the emptiness flags and counter of a block |
| `Semaphore.dfy`, `SemaphoreRuns.dfy`, `SemaphoreCalls.dfy` | the lightweight semaphore; what its calls give |
| `BlockingQueue.dfy`, `BlockingRuns.dfy`, `BlockingCalls.dfy` | the blocking queue; what its calls give |

## How the parts fit together

- The queue machines let a consumer claim `count` indices in one step when that many elements are
  published. `ClaimRefinement` proves that every claim the counters of `OptimisticDequeue` lead to is
  such a step of either machine, with the same effect, and that no other step changes them differently.
- The implicit machine has its pool as a set of blocks, which other producers take from and return to
  at any time; `BlockPool` proves that the real pool hands every block to one owner and loses none.
- Indices are unbounded in the machines. What the source computes on w-bit indices by masks, counts
  and lookups is the same (`Circular`, `Blocks.LookupSurvivesWrapping`). A comparison is the same as
  long as the indices are less than 2^(w-1) apart (`Circular.CircularLessThanIsExact`); the test for
  leeway is meant to ensure that. `ExplicitProducer.Producer` makes the comparisons on w-bit indices:
  its queue never holds more than 2^(w-1) elements, and only at exactly 2^(w-1) does a comparison go
  wrong.
- In the machines single operations are bulk operations of one element: the single dequeue makes the
  same tests and updates. The single explicit enqueue resets the block before it enters it in the index, and does
  not set a new block's flags first; nothing reads them in between. It is modelled on its own in
  `ExplicitProducer.Producer`.
- Setting the flags of several elements of a block, and resetting the flags of a block, is one step of
  `ExplicitQueue`; a producer that sees only some of them set gives up on the block, which is a step too.
- Private bookkeeping of a thread is joined to its neighbouring access to shared memory. The loop
  over a block's flags in `is_empty` is one step that sees all flags set, or a step that gives up
  whatever the flags are, which covers any stale reading. Of the explicit producer's constructor the
  machine takes the case where the first index is allocated by the first enqueue; the object has both.
- Memory allocation, size limits, time-outs and spurious failures are choices left open, or
  parameters of the sequential methods.

## Model

| member | source | states |
|---|---|---|
| BlockOwnership.RunsAreSafe | concurrentqueue_alter/concurrentqueue.h:1395-1474 | in every run of any number of threads taking and returning blocks, the ownership invariant holds and no access is undefined; what the calls give is in the rows of `BlockPoolCalls` |
| BlockOwnership.OnePlace | concurrentqueue_alter/concurrentqueue.h:1395-1474 | every block is unissued, listed, carried by exactly the thread whose program counter says so, waiting, or owned, and which one can be read off the program's variables |
| BlockOwnership.ReferenceCount | concurrentqueue_alter/concurrentqueue.h:1415-1442 | the low 31 bits of the reference word are the in-flight references plus one for the list while it owns one |
| BlockOwnership.ListIsTheChain | concurrentqueue_alter/concurrentqueue.h:1454-1473 | following next from the head visits the listed blocks once each and ends |
| BlockOwnership.NoABA | concurrentqueue_alter/concurrentqueue.h:1424-1430 | in every run, when the head swap of `try_get` succeeds, the next pointer read before is still the node's next (no ABA), and the flag assertion holds |
| BlockOwnership.OwnersAreExclusive | concurrentqueue_alter/concurrentqueue.h:1409-1434 | a block stays with its owner until released or handed over, and only an unowned block is given out |
| BlockOwnership.WaitingHasAnHeir | concurrentqueue_alter/concurrentqueue.h:1462-1472 | a flagged block nobody is adding has a live reference holder obliged to list it |
| BlockPoolSteps.DropOneInherits | concurrentqueue_alter/concurrentqueue.h:1439-1442 | the holder that sees the flag and the last reference becomes the block's single adder |
| BlockOwnership.NothingIsLost | concurrentqueue_alter/concurrentqueue.h:1395-1474 | when all threads are idle every block is unissued, owned by a client or on the list |
| BlockPoolCalls.TryGetTakesFirst | concurrentqueue_alter/concurrentqueue.h:1411-1434 | without interference `try_get` takes the first block of a list that is not empty, in six steps |
| BlockPoolCalls.RequisitionGives | concurrentqueue_alter/concurrentqueue.h:3020-3041 | with no other call under way a requisition gives the next block of the initial array, else the first of the list, else a new one, and nothing only if there is none of these and no memory |
| BlockPoolCalls.AddAlone | concurrentqueue_alter/concurrentqueue.h:1395-1409 | without interference `add` makes the block the first of the list, in five steps |
| BlockPoolCalls.ReleasedIsReused | concurrentqueue_alter/concurrentqueue.h:1395-1434 | a block released is the one the next requisition gives, if the initial array is used up |
| BlockPoolCalls.AllocatesOnlyWhenEmpty | concurrentqueue_alter/concurrentqueue.h:1415-1447 | whatever other threads do, a requisition goes on to allocate only if the head it last loaded, at a moment of this call, was null |
| BlockPoolCalls.RequisitionEnds | concurrentqueue_alter/concurrentqueue.h:3020-3041 | in any run a requisition ends with one new block of the caller, or with none after allocation failed, and in no other way |
| BlockPoolCalls.ReleaseEnds | concurrentqueue_alter/concurrentqueue.h:1395-1409 | in any run a release ends with its block on the list or left to a thread that holds a reference to it |
| OptimisticRuns.RunsAreSafe | concurrentqueue_alter/concurrentqueue.h:1908-1997 | for any mix of single and bulk consumers with stale reads, the ticket invariant holds in every state |
| OptimisticRuns.HeadNeverPassesTail | concurrentqueue_alter/concurrentqueue.h:1939-1952 | head plus the claims won and not yet made never exceeds tail |
| OptimisticRuns.ClaimIsBacked | concurrentqueue_alter/concurrentqueue.h:2202-2215 | a consumer about to add to head finds that many elements below tail; `OptimisticCalls.GrantIsExact` says how many it is about to add |
| OptimisticRuns.OvercommitIsCovered | concurrentqueue_alter/concurrentqueue.h:1933-1937 | the assertion `overcommit <= myDequeueCount`, on unbounded counters |
| OptimisticRuns.TicketsAreConserved | concurrentqueue_alter/concurrentqueue.h:1908-1997 | optimistic count = head + overcommit + tickets undecided or unpublished |
| OptimisticRuns.QuietCountIsHead | concurrentqueue_alter/concurrentqueue.h:1990-1997 | with no dequeue in flight the effective count is the head |
| OptimisticRuns.ClaimsAreFinal | concurrentqueue_alter/concurrentqueue.h:2211-2215 | every index below head is claimed by one consumer, for good |
| ClaimRefinement.ExplicitClaims | concurrentqueue_alter/concurrentqueue.h:2202-2220 | whenever a consumer of the counters adds to head, the explicit machine's claim is enabled and moves head and claims alike |
| ClaimRefinement.ImplicitClaims | concurrentqueue_alter/concurrentqueue.h:2716-2741 | the same for the implicit machine |
| ClaimRefinement.ExplicitSteps | concurrentqueue_alter/concurrentqueue.h:2185-2186 | of the other steps of the explicit machine only storing the tail changes what the counters see, as an enqueue |
| ClaimRefinement.ImplicitSteps | concurrentqueue_alter/concurrentqueue.h:2711-2712 | the same for the implicit machine |
| OptimisticRuns.SoloDequeueTakesWhatIsThere | concurrentqueue_alter/concurrentqueue.h:2190-2276 | an undisturbed consumer takes exactly min(max, size) elements |
| OptimisticCalls.TicketsAreDecided | concurrentqueue_alter/concurrentqueue.h:2202-2209 | when the tail is reloaded each ticket of the consumer is won exactly if it is below that tail, less the overcommit read before, and lost otherwise; no other ticket changes |
| OptimisticCalls.GrantIsExact | concurrentqueue_alter/concurrentqueue.h:2202-2212 | the consumer then claims exactly as many as are there, up to those it wanted, also when that is a part |
| OptimisticCalls.CallClaims | concurrentqueue_alter/concurrentqueue.h:2190-2215 | in any run a whole call claims exactly what follows from the four values it read, whatever other threads do in between |
| Circular.CircularLessThanIsExact | concurrentqueue_alter/concurrentqueue.h:405-415 | exactly when the wrapped comparison is the unbounded order |
| Circular.LowMask | concurrentqueue_alter/concurrentqueue.h:1808 | masking with 2^k - 1 is the remainder |
| Circular.HighMask | concurrentqueue_alter/concurrentqueue.h:1965 | masking with the complement clears the low bits |
| Circular.BlockBaseDiffCounts | concurrentqueue_alter/concurrentqueue.h:2018-2019 | `blockBaseDiff` on w-bit indices is the block size times the number of bases in [start, start + count), also for start 0 |
| Circular.SlotOfIsExact | concurrentqueue_alter/concurrentqueue.h:1961-1967 | the masked, unsigned, divided difference selects the slot k before the front |
| Blocks.LookupSurvivesWrapping | concurrentqueue_alter/concurrentqueue.h:2887-2890 | lookup on wrapped indices is the lookup the machines use |
| Blocks.LookupIsSlot | concurrentqueue_alter/concurrentqueue.h:1964-1967 | from the slot and base of any block, lookup finds the slot of any other |
| Blocks.BasesInIsNeed | concurrentqueue_alter/concurrentqueue.h:2018-2023 | the number of bases in range is the number of blocks to acquire |
| ExplicitFifo.ApplyInv | concurrentqueue_alter/concurrentqueue.h:1803-2280 | every step of the producer and the consumers, failing exits included, is in bounds; it keeps ring, index, elements and consumers in agreement if and only if it is not a failing exit that leaves an inserted block, or an index replaced after reusing a block |
| ExplicitFifo.RunsAreSafe | concurrentqueue_alter/concurrentqueue.h:1803-2280 | a run keeps them in agreement as long as, and only as long as, it has no such exit |
| ExplicitFifo.AllOrNothing | concurrentqueue_alter/concurrentqueue.h:2010-2187 | a call that returns true has appended all its items, one that returns false, however it failed, has left queue and tail as they were |
| ExplicitConsumerSteps.ReadBaseMoves | concurrentqueue_alter/concurrentqueue.h:1956-1967 | with any header and any front loaded earlier, the computed slot names the block of the claimed index |
| ExplicitConsumerSteps.TakeIsFifo | concurrentqueue_alter/concurrentqueue.h:1969-1990 | the consumer that claimed index i is in the block where element i was constructed and takes the i-th element |
| ExplicitFrames.IndexGrow | concurrentqueue_alter/concurrentqueue.h:2299-2335 | a doubled index lists the same blocks, oldest first, and leaves the old index usable |
| ExplicitFifo.EnqueueAppends | concurrentqueue_alter/concurrentqueue.h:2105-2187 | the only step that changes the queue appends all items of an operation at once |
| ExplicitFifo.RingMatchesIndex | concurrentqueue_alter/concurrentqueue.h:1807-1890 | the last `slotsUsed` slots list the ring's blocks once each, in ring order, with bases a block apart, save the oldest ones whose entries a failing exit has lost |
| ExplicitFifo.OnlyEmptyBlocksAreReused | concurrentqueue_alter/concurrentqueue.h:2026-2037 | a block is taken again only when all its elements are claimed and no consumer still wants one |
| ExplicitFifo.DeliveredExactlyOnce | concurrentqueue_alter/concurrentqueue.h:1906-2001 | in every run each claimed index is with its owner or was delivered exactly once, as the element enqueued there |
| ExplicitFifo.NothingIsLost | concurrentqueue_alter/concurrentqueue.h:1906-2001 | with no consumer busy everything below head was delivered |
| ExplicitCalls.ResultIs | concurrentqueue_alter/concurrentqueue.h:2010-2187 | in any run an enqueue returns true exactly when it did not leave by a failing exit |
| ExplicitCalls.EnqueueAlone | concurrentqueue_alter/concurrentqueue.h:2010-2187 | an enqueue without interference ends, and succeeds exactly when it gets the blocks it is missing, as counted before the call |
| ExplicitCalls.ProducerEnds | concurrentqueue_alter/concurrentqueue.h:2010-2187 | every step of an enqueue brings its end nearer, whatever it is refused; `OthersDoNotDelay`: no consumer puts it off |
| ExplicitCalls.DequeueIsWaitFree | concurrentqueue_alter/concurrentqueue.h:2217-2276 | a consumer that has claimed count elements is done after at most 4 * count + 6 of its own steps, whatever others do, and has delivered them in order |
| ExplicitCells.NothingIsLeftBehind | concurrentqueue_alter/concurrentqueue.h:1969-1990 | in every run each stored element is that of an index still to be dequeued: what is moved out is destroyed |
| ExplicitCells.ConstructedOnRaw | concurrentqueue_alter/concurrentqueue.h:2105-2183 | no element is constructed over another |
| ExplicitCells.QuietCells | concurrentqueue_alter/concurrentqueue.h:1755-1775 | with nothing under way the elements stored are those from head up to tail, which the destructor destroys |
| ExplicitProducer.Producer.Enqueue | concurrentqueue_alter/concurrentqueue.h:1803-1903 | appends the element, or fails and changes nothing, exactly when a block is needed and leeway, room under the size limit, index memory or the block is lacking |
| ExplicitProducer.Producer.Dequeue | concurrentqueue_alter/concurrentqueue.h:1906-2001 | returns and removes the oldest element, or reports an empty queue; it does the latter also when the queue holds exactly 2^(w-1) elements, and never otherwise |
| ExplicitProducer.CellsAreTheQueue | concurrentqueue_alter/concurrentqueue.h:1893-1990 | a place of any block holds an element exactly if it is that of an index from head up to tail, so that enqueue constructs on free storage and dequeue destroys what it moves out |
| ExplicitProducer.HalfTurnLooksEmpty | concurrentqueue_alter/concurrentqueue.h:1812-1833 | such a queue can be reached for every index width, since reusing a block skips the test for leeway |
| ExplicitProducer.LeewayMeans | concurrentqueue_alter/concurrentqueue.h:1828 | the leeway test on wrapped indices passes exactly when the block after the tail ends less than half a turn after head |
| ExplicitProducer.RingFits | concurrentqueue_alter/concurrentqueue.h:1822-1833 | passing it with a used block ahead means that the ring, with one more block, spans at most half a turn |
| ExplicitProducer.Producer.NewBlockIndex | concurrentqueue_alter/concurrentqueue.h:2299-2335 | the copying loop gives an index of twice the size that agrees with the ring, shows as many entries as asked for and has room; without memory it changes nothing |
| ExplicitProducer.Producer.StartBlock | concurrentqueue_alter/concurrentqueue.h:1808-1888 | reuses the block ahead when it is empty, else inserts one; succeeds exactly when one can be had |
| ExplicitDestructor.FlagsHold | concurrentqueue_alter/concurrentqueue.h:1549-1567 | in every run a claimed index of a ring block is flagged as empty or still wanted by its owner |
| ExplicitDestructor.EmptyMeansDequeued | concurrentqueue_alter/concurrentqueue.h:1501-1521 | on a quiescent producer a block reads as empty exactly when head has passed it |
| ExplicitDestructor.FindHalfDequeued | concurrentqueue_alter/concurrentqueue.h:1741-1753 | the walk over the index finds the block of head, if head is inside one and no entry of the ring is lost |
| ExplicitDestructor.DestroyElements | concurrentqueue_alter/concurrentqueue.h:1755-1775 | exactly the elements from head up to tail are destroyed, each once, in order, if head is between blocks or no entry of the ring is lost |
| ExplicitDestructor.DestroyRing | concurrentqueue_alter/concurrentqueue.h:1777-1790 | every block of the ring is freed exactly once |
| ExplicitProducerSteps.FailMoves | concurrentqueue_alter/concurrentqueue.h:2044-2066 | a failing exit keeps the invariant if and only if no block was inserted and none was reused before the index was replaced |
| ExplicitFailure.FailedCall | concurrentqueue_alter/concurrentqueue.h:2012-2066 | in any run, a call that fails leaves "slots used equals ring length" right if and only if it inserted no block between the call and the exit |
| ExplicitFailure.CallOutcome | concurrentqueue_alter/concurrentqueue.h:2024-2087 | a call without interference reuses the leading empty blocks, wants q more and gets j = min(q, room in the index, blocks, blocks allowed), all known beforehand; it fails exactly when j < q |
| ExplicitFailure.CountAfterCall | concurrentqueue_alter/concurrentqueue.h:2044-2066 | when j < q the count survives exactly when j = 0 |
| ExplicitFailure.InvariantAfterCall | concurrentqueue_alter/concurrentqueue.h:2044-2066 | when j < q the invariant survives exactly when j = 0 and no block was reused before the index was replaced, in terms of what is known before the call |
| ExplicitFailure.SettleIsRun | concurrentqueue_alter/concurrentqueue.h:2024-2087 | what these results say of a call is reached by a run of the machine's steps |
| ExplicitOverwrite.FirstCall | concurrentqueue_alter/concurrentqueue.h:2059-2066 | the first bulk enqueue of more than a block that gets only one block leaves a ring of one and no slot in use |
| ExplicitOverwrite.LiveEntryIsOverwritten | concurrentqueue_alter/concurrentqueue.h:2043-2087 | for every index size, a run from the start in which, after such an exit, the test for a full index passes once too often, the entry of a block with an element is overwritten, and its consumer is about to take an element that was never constructed from another block |
| ExplicitMisplaced.EveryLookupGoesWrong | concurrentqueue_alter/concurrentqueue.h:2053-2066 | after every failing exit that reused a block, replaced the index and inserted none, with an element left, the next call that needs one block and the next consumer lead to the wrong block |
| ExplicitMisplaced.MisplacedAfterCall | concurrentqueue_alter/concurrentqueue.h:2024-2066 | a call ends like that when the index is full and can be replaced, a block can be reused but not enough of them, and the pool gives none |
| ExplicitLostEntries.LosesEntries | concurrentqueue_alter/concurrentqueue.h:2026-2037 | a sound failing exit loses index entries exactly when slots used and blocks reused are more than the index has |
| ExplicitLostEntries.IndexAfterCall | concurrentqueue_alter/concurrentqueue.h:2026-2066 | the same in terms of what is known before the call |
| ExplicitLostEntries.FailureHidesOldest | concurrentqueue_alter/concurrentqueue.h:1744-1749 | then the slot where the destructor starts its walk has a base past the tail, so that its assertion fails |
| ExplicitLostEntries.IndexIsWhole | concurrentqueue_alter/concurrentqueue.h:2026-2066 | in a run without such exits the index lists the whole ring |
| BlockFlags.Flags.IsEmpty | concurrentqueue_alter/concurrentqueue.h:1501-1521 | true exactly when every element is marked |
| BlockFlags.Flags.SetManyEmpty | concurrentqueue_alter/concurrentqueue.h:1549-1570 | marks exactly the given indices in the mirrored array |
| BlockFlags.Flags.SetEmpty | concurrentqueue_alter/concurrentqueue.h:1533-1547 | marks exactly one index |
| BlockFlags.FlagsCount | concurrentqueue_alter/concurrentqueue.h:1563-1569 | marking and counting agree |
| BlockFlags.FullCountMeansEmpty | concurrentqueue_alter/concurrentqueue.h:1513-1521 | the counter is full exactly when all flags are set |
| ImplicitRuns.ApplyInv | concurrentqueue_alter/concurrentqueue.h:2431-2937 | every step, of the producer, its consumers and other producers on the same pool, is in bounds, meets the source's assertions and keeps the invariant |
| ImplicitRuns.RunsAreSafe | concurrentqueue_alter/concurrentqueue.h:2431-2937 | so does every run |
| ImplicitOthers.OthersMove | concurrentqueue_alter/concurrentqueue.h:1395-1474 | whatever other producers do with blocks that they or the pool have keeps the invariant |
| ImplicitConsumer.LookupIsRight | concurrentqueue_alter/concurrentqueue.h:2877-2892 | the assertion of lookup: the entry found has the block's base as key and the block as value, with any header and tail slot, across insertion, rewind and growth |
| ImplicitProducer.UndoFinds | concurrentqueue_alter/concurrentqueue.h:2599-2604 | lookup during a rollback finds the entry of the block being undone while the tail rewinds |
| ImplicitProducer.GrowMakesRoom | concurrentqueue_alter/concurrentqueue.h:2851-2861 | after growing, the next entry is unused, as the source asserts |
| ImplicitIndex.InsertIndex | concurrentqueue_alter/concurrentqueue.h:2837-2849 | inserting a base keeps every header's view, and takes the entry of at most the oldest number |
| ImplicitIndex.GrowIndex | concurrentqueue_alter/concurrentqueue.h:2895-2937 | the enlarged index, which shares entries, lists the same blocks |
| ImplicitIndex.CopyIndex | concurrentqueue_alter/concurrentqueue.h:2911-2925 | the copying loop computes the enlarged index |
| ImplicitProducer.OldestIsDead | concurrentqueue_alter/concurrentqueue.h:2842-2844 | an entry is reused only after its block has left the index |
| ImplicitRuns.AllOrNothing | concurrentqueue_alter/concurrentqueue.h:2566-2717 | an enqueue of any size returns true after appending everything, or false with queue, tail and tail block as they were; afterwards the index tail is restored, no entry holds an unused block and no block is kept; `ImplicitCalls.ResultIs` says when it is true |
| ImplicitRuns.DeliveredExactlyOnce | concurrentqueue_alter/concurrentqueue.h:2496-2563 | as for the explicit producer |
| ImplicitRuns.OnePlace | concurrentqueue_alter/concurrentqueue.h:2540-2552 | each block is in the pool, or with another producer, or holds exactly one block number, and only one of these |
| ImplicitRuns.FreedByOne | concurrentqueue_alter/concurrentqueue.h:2794-2804 | a filled block is freed by one consumer, the one that completed the count, only after all its elements are dequeued, and is not in the pool then |
| ImplicitRuns.QuietPhases | concurrentqueue_alter/concurrentqueue.h:2794-2804 | with nothing under way, exactly the fully dequeued blocks have been given back to the pool |
| ImplicitCalls.ResultIs | concurrentqueue_alter/concurrentqueue.h:2431-2717 | in any run an enqueue of any size returns true exactly when it was not refused room, memory or a block |
| ImplicitCalls.EnqueueAlone | concurrentqueue_alter/concurrentqueue.h:2431-2717 | an enqueue without interference ends, and succeeds exactly when enough blocks can be had and allowed and the index has free entries or can grow, as told before the call |
| ImplicitCalls.PoolServes | concurrentqueue_alter/concurrentqueue.h:2451-2481 | any block in the pool serves an enqueue that wants one, and so does a new one |
| ImplicitCalls.ProducerEnds | concurrentqueue_alter/concurrentqueue.h:2431-2717 | every step of an enqueue, rollback included, brings its end nearer; `OthersDoNotDelay`: no other thread puts it off |
| ImplicitCalls.DequeueIsWaitFree | concurrentqueue_alter/concurrentqueue.h:2743-2804 | a consumer that has claimed count elements is done after at most 7 * count + 6 of its own steps, whatever others do, and has delivered them in order |
| ImplicitCells.NothingIsLeftBehind | concurrentqueue_alter/concurrentqueue.h:2517-2536 | in every run each element stored in a block of this queue or of the pool is that of an index still to be dequeued, if others return blocks without elements |
| ImplicitCells.PoolStaysClean | concurrentqueue_alter/concurrentqueue.h:2794-2804 | then the blocks this queue returns, its failing calls included, hold no elements either |
| ImplicitCells.ConstructedOnRaw | concurrentqueue_alter/concurrentqueue.h:2487-2489 | no element is constructed over another |
| ImplicitConsumer.CountMoves | concurrentqueue_alter/concurrentqueue.h:1563-1569 | the counter is the number of dequeued elements, never over the block size, and full exactly when all are |
| ImplicitDestructor.Destroy | concurrentqueue_alter/concurrentqueue.h:2372-2412 | destroys exactly the elements from head up to tail in order, and returns each block that neither the pool nor another producer has exactly once |
| ProducerHashSteps.ApplyInv | concurrentqueue_alter/concurrentqueue.h:3319-3462 | every step of lookup, copy, insert and resize is in bounds, no probe sequence outruns its table, and the invariant is kept |
| ProducerHashRuns.RunsAreSafe | concurrentqueue_alter/concurrentqueue.h:3319-3462 | so does every run |
| ProducerHashRuns.AlwaysTheSameProducer | concurrentqueue_alter/concurrentqueue.h:3335-3380 | two calls that return a producer return the same one if and only if the same thread made them; `ProducerHashCalls.CallReturns` says which do |
| ProducerHashRuns.CopiesAgree | concurrentqueue_alter/concurrentqueue.h:3356-3379 | a table holds an id once, and lazily copied entries agree with the original |
| ProducerHashRuns.TablesAreNeverFull | concurrentqueue_alter/concurrentqueue.h:3383-3458 | a table with keys holds fewer than (capacity >> 1) + (capacity >> 2), also after failed allocations, and has an empty slot |
| ProducerHashRuns.FindProducer | concurrentqueue_alter/concurrentqueue.h:3335-3380 | the probe loops end and find the thread's producer exactly when it has one |
| ProducerHashRuns.GrowingMakesRoom | concurrentqueue_alter/concurrentqueue.h:3389-3419 | after a resize the condition for inserting always holds |
| ProducerHashCalls.CallReturns | concurrentqueue_alter/concurrentqueue.h:3335-3461 | in any run a call returns one value, the producer of its thread, exactly when no allocation it asked for failed, and else none |
| ProducerHashCalls.CallAlone | concurrentqueue_alter/concurrentqueue.h:3335-3461 | a call without interference and with memory ends, with the producer of its thread |
| ProducerHashCalls.LockIsReleased | concurrentqueue_alter/concurrentqueue.h:3386-3421 | the resize lock is held only by a thread that is about to release it, so that with no call under way it is free |
| ProducerHashTables.CallLeavesKey | concurrentqueue_alter/concurrentqueue.h:3352-3372 | a call that returns a producer leaves the id in the table that was newest when the call began, or in a newer one, so that the next call finds it at once |
| ProducerHashTables.NewTableFits | concurrentqueue_alter/concurrentqueue.h:3386-3410 | a table is added only when the newest is at least half full, and is the smallest of twice, four times, ... its size that the ids counted do not fill to the half |
| ProducerHashTables.RoomIsUsedMeanwhile | concurrentqueue_alter/concurrentqueue.h:3424-3461 | while another thread resizes, a thread goes on to insert as long as less than three quarters are used, and else looks at the newest table again |
| ProducerHashTables.ThreeQuartersAreNeverReached | concurrentqueue_alter/concurrentqueue.h:3424-3427 | a table is always less than three quarters full |
| ProducerHashLoad.LoadBound | concurrentqueue_alter/concurrentqueue.h:3424-3427 | the bound follows from the order in which ids are counted |
| ProducerHashLoad.ProbeMeetsEmpty | concurrentqueue_alter/concurrentqueue.h:3344-3380 | a probe sequence meets an empty slot before it comes round |
| ProducerHashLoad.NotMetIsAbsent | concurrentqueue_alter/concurrentqueue.h:3376-3378 | an empty slot on the probe path means the id is not in the table |
| SemaphoreRuns.TokensAreConserved | concurrentqueue_alter/blockingconcurrentqueue.h:260-405 | tokens taken, counted, in the kernel and pending are those issued; registered waiters are those the count, the kernel and the pending releases account for |
| SemaphoreRuns.WaiterIsNeverStranded | concurrentqueue_alter/blockingconcurrentqueue.h:289-296 | a waiter can undo its registration, or a kernel token exists, or a signaller is about to release one |
| SemaphoreRuns.ResultIsWhatWasTaken | concurrentqueue_alter/blockingconcurrentqueue.h:299-335 | a call returns between 0 and max tokens, exactly those it took |
| SemaphoreRuns.WaitManyAssertion | concurrentqueue_alter/blockingconcurrentqueue.h:387-394 | the assertion of the untimed `waitMany` holds if and only if max is positive |
| SemaphoreRuns.WaitManyForNone | concurrentqueue_alter/blockingconcurrentqueue.h:366-394 | from any start, a call for no tokens returns none in two steps, so that the assertion fails |
| SemaphoreRuns.TakenIsAvailable | concurrentqueue_alter/blockingconcurrentqueue.h:299-377 | a step takes no more tokens than the count and the kernel semaphore have |
| SemaphoreRuns.QuietWaiters | concurrentqueue_alter/blockingconcurrentqueue.h:396-405 | with no release pending nobody sleeps while the count is not negative and the kernel has no token |
| SemaphoreCalls.SwapTakesAll | concurrentqueue_alter/blockingconcurrentqueue.h:366-377 | a swap that succeeds takes as many tokens as there are, up to what is wanted |
| SemaphoreCalls.TryAlone | concurrentqueue_alter/blockingconcurrentqueue.h:343-377 | with n > 0 tokens an undisturbed call for max takes min(max, n) at once; without tokens one that does not wait gets none |
| SemaphoreCalls.WaitAlone | concurrentqueue_alter/blockingconcurrentqueue.h:260-276 | without tokens a call that waits spins 10000 times, then registers and sleeps |
| SemaphoreCalls.SpinTakes | concurrentqueue_alter/blockingconcurrentqueue.h:303-312 | a spinning call takes the tokens it finds |
| SemaphoreCalls.WakeAlone | concurrentqueue_alter/blockingconcurrentqueue.h:313-335 | a sleeper that is woken takes its token, and if it asked for many as many more as the count has |
| SemaphoreCalls.LateWakeAlone | concurrentqueue_alter/blockingconcurrentqueue.h:280-296 | a call that timed out and was signalled meanwhile takes the kernel token left for it |
| SemaphoreCalls.TimeoutAlone | concurrentqueue_alter/blockingconcurrentqueue.h:280-296 | a call that timed out and was not signalled takes its registration back and gets nothing |
| SemaphoreCalls.SignalAlone | concurrentqueue_alter/blockingconcurrentqueue.h:396-405 | a signal adds its tokens to the count and wakes min(waiters, tokens) |
| SemaphoreCalls.NoneOnlyIfNone | concurrentqueue_alter/blockingconcurrentqueue.h:343-377 | in any run a call that does not wait returns none only if the count was not positive at a moment of the call |
| BlockingRuns.TokensAreElements | concurrentqueue_alter/blockingconcurrentqueue.h:519-526 | available tokens + tokens held + elements not yet signalled = unclaimed elements, in every run |
| BlockingRuns.NeverSpinsOnEmpty | concurrentqueue_alter/blockingconcurrentqueue.h:690-731 | a consumer that calls the inner queue again has as many elements there as it still wants; `BlockingCalls.DequeueGets` says how many that is |
| BlockingRuns.EnoughForAll | concurrentqueue_alter/blockingconcurrentqueue.h:723-731 | two spinning consumers have enough for both |
| BlockingRuns.QuietCountIsSize | concurrentqueue_alter/blockingconcurrentqueue.h:575-582 | with nothing under way the semaphore's count is the number of elements |
| BlockingCalls.DequeueGets | concurrentqueue_alter/blockingconcurrentqueue.h:690-910 | in any run a dequeue claims exactly as many elements as its semaphore call took tokens: at most max, at most one if it is not a bulk call, at least one if it waits for any without a timeout |
| BlockingCalls.EnqueueGives | concurrentqueue_alter/blockingconcurrentqueue.h:519-526 | in any run an enqueue adds its elements and as many tokens, or, refused, neither |
| BlockingCalls.EnqueueAlone | concurrentqueue_alter/blockingconcurrentqueue.h:519-526 | with no other call under way an enqueue that is not refused goes through its four steps and adds both |
| BlockingCalls.DequeueAlone | concurrentqueue_alter/blockingconcurrentqueue.h:690-910 | with no other call under way a dequeue that finds elements, or does not wait, ends with min(max, size) of them |

## Left out

- Weak memory orders and fences: atomics are sequentially consistent steps.
- C++ exceptions, moves, placement and alignment: constructors and assignments do not throw.
- The explicit queue after a failing exit that breaks the invariant: runs and consequences are given, not all that may follow.
- ExplicitDestructor.FindHalfDequeued: says nothing of a ring that has lost entries while head is inside a block; `ExplicitLostEntries.FailureHidesOldest` says where the walk then starts.
- ExplicitDestructor.DestroyElements: the same.
- ExplicitFailure.CallOutcome: whether an index can be had is one answer for the whole call, and consumers do not run; `ExplicitFailure.FailedCall` has them run.
- Explicit bulk enqueue as a sequential method: `ExplicitQueue` has its steps, `ExplicitProducer.Producer` has the single operations.
- The implicit producer, the free list, the hash and the semaphore as objects: their operations interleave at every access, which needs the state as a value; lookup, index copying and destruction are methods with loops.
- Blocks as objects with pointers: they are numbers into sequences of the producer, so an object of its own is only `BlockFlags.Flags`.
- The counter form of a block's emptiness in the explicit context, for blocks above the flag threshold: `BlockFlags` relates it to the flags.
- Bulk dequeue with `max` 0, and an implicit producer whose constructor could not allocate its index.
- The steps inside the pool while an implicit producer uses it: taking and returning a block is one step there; `BlockPool` has the steps.
- The comparisons on w-bit indices in the queue machines, which compare unbounded ones: `ExplicitProducer.Producer` has them.
- Thread-exit callbacks and recycled producers, which are compiled out.
- Operating system semaphores and time: the kernel semaphore is a natural number, a time-out may come at any time, and release counts fit an `int`.
- Progress under contention: that a thread is scheduled, and that the retry loops of the free list, the semaphore and the table of producers end while others interfere. They end without interference, and the queue operations always do.
- The list of producers, consumer rotation, tokens, `size_approx`, container moves and swaps, the quality of the hash, debugging and tracking code.
