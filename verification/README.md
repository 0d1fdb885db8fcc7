# Verified model of learnlog

learnlog is a C++ logging library: loggers hand messages to sinks, directly or through an asynchronous
thread pool. This project models the parts of it whose correctness is argued in comments or taken for
granted, and proves what they are relied on for. Run `dafny verify dfyconfig.toml` here (Dafny 4.11).

**How concurrent code is modelled.** Each protocol is a state machine: a datatype `State`, the actions of
any number of threads, and `Next`, where one step is one atomic operation (or one section under a mutex) as
the code performs it. A thread's program counter names the operation that comes next and carries its local
variables, so stale readings stay stale. Each module proves an inductive invariant (`InitInv`, `NextInv`),
lifts it to every state of every run (`Reachable`), and states its theorems there. Beside each machine is a
class with the fields of the C++ object; its methods update them in place and are proved to be steps of the
machine. Fields called history, and `ghost` fields, are read by no step.
The modules named Calls, and PoolFlush, are about whole calls: a trace of steps of all threads from the call to
its return, what it comes to, and that it does return.

**Sequential code** is modelled as classes whose methods carry the loops of the source, proved against a
specification that does not mention the loops: numbers and powers for the big integers, rounding half to
even and the rounding interval for the digits, bounded sequences for the ring, a printer for the pattern
compiler, a packing of the log for the rolling files.

| files | subject |
|---|---|
| FreeLists, FreeListCalls | the reference-counted free list of blocks |
| Tickets, TicketCalls | the optimistic ticket protocol of the dequeuers |
| SubQueues, SubQueueInvariant, SubQueueReaders, SubQueueProducer, SubQueueSafety, SubQueueCalls, DequeueCalls, ExplicitProducers | one producer's sub-queue: blocks, circular block index, flags |
| ThreadHashes, ThreadHashMap, ThreadHashCalls, ThreadHashRoom, ThreadHashBound, ThreadHashSteps, ThreadHashDrift, ThreadHashObjects | the table from thread ids to implicit producers |
| LightweightSemaphores, SemaphoreCalls, BlockingConcurrentQueues | the semaphore, and the queue that blocks on it |
| ThreadPools, PoolSafety, PoolDrain, PoolFlush, PoolOrder, PoolEnd, PoolObjects | the lock and lockfree_concurrent thread pools and the asynchronous logger |
| BlockQueues, BlockQueueCalls, CircularQueues | the monitor queue, the ring under it, the backtracer |
| Bigints, Limbs, LimbDigits, Columns | fmt's `bigint` |
| Dragon, Decimals, Floats | fmt's `format_dragon`, and how `format_float` calls it |
| Patterns | the pattern compiler and `clone` |
| RollingFiles, FileNames | the rolling file sink and its file names |
| Counting, Modular, Words, Options | sums over threads, remainders, machine words |

**Where the code and its comments differ.** The proofs follow the code.

- The comment at base/concurrentqueue/concurrentqueue.h:3412 says that at least one slot is always free, and
  so every probe loop ends; the one at 3417-3421, that the one count of producers reserves room for all older
  tables. A thread that goes on with a superseded table and takes over a tombstone there gives its number
  back, although its id will need a place in the new table. How far tables drift by this depends on the number
  of threads that are inside the search at once. `ThreadHashDrift.LoopsEndExactly` has the exact bound: in all
  runs with at most c such threads, and any number of others, every probe loop ends if and only if 2c <= n + 2,
  for a first table of n slots (n even, from 8 on; the program's sizes are powers of two).
  `MainTableCanFillUp` and `SearchCanGoRound` give the runs beyond, `ThreadHashRoom.TableHasRoom` what holds in
  every run, with the drift counted.
- The ticket protocol relies on no thread sleeping between two of its readings while 2^63 further tickets
  are drawn. Half a turn is exact: `Tickets.GrantedIsRightWithinHalfATurn` for the decision, and
  `Tickets.OversleptThreadWinsTooMuch` gives runs, for every number of elements from a quarter of a turn up, in
  which a thread that sleeps longer wins an element too many.
- base/fmt/format.h:2760 promises subtraction for all aligned operands with `*this >= other`. The borrow
  goes one limb beyond the subtrahend and no further. `Bigint.SubtractAligned` states the result in all
  cases, and `Bigints.BorrowIsCovered` that division never meets the bad one.
- `compare` of equal numbers with different exponents is not 0. `Bigint.Compare` and `Bigint.DivmodAssign`
  state exactly what happens. `Dragon.FormatDragon` is stated for all calls of format_dragon that division
  gets right, and `Floats.FormatFloat` for those that format_float makes with an estimate to be corrected,
  which all of the shortest format are:
  - a value that is a power of ten may be divided wrongly: exactly for the four significands of
    `Dragon.Tied` (`IntegerTie`, `TieIsMisread`), none of which is that of a converted value
    (`Floats.TiesAreNotConverted`);
  - in the shortest digits, a remainder equal to `lower` may be read as larger or smaller. The lower end of
    the interval is then left out though it belongs to it (`Floats.EvenEndIsMissed`, a value of 64 binary
    digits), or taken though it does not (`Floats.OddEndIsTaken`, one of 113). `Dragon.LowEnd` says when, and
    `OddEndsAreOpen` excludes the second for up to 64 digits;
  - a remainder of zero may be overlooked, with a zero as second digit (`Floats.ZeroIsHidden`), but not for a
    converted value (`Floats.ZeroIsSeen`).
- The README of learnlog (lines 29-30) promises order within a thread for the lock pool with one worker
  only; `PoolOrder.OrderIsKeptExactlyWithOneWorker` proves that it is so exactly, and
  `BarrierHoldsExactlyWithOneWorker` that the same goes for `flush`.
- `pattern_formatter::clone` compiles the pattern again. A flag that was added after the pattern was
  compiled is new in the copy: `Patterns.PatternFormatter.Clone` says when the copy is the same.

## Model

| member | source | states |
|---|---|---|
| FreeLists.ListedOnceOrInOnesCharge | base/concurrentqueue/concurrentqueue.h:1459-1538 | In every interleaving the list is the chain from the head without repetition; a node that a thread is adding, pushing or popping is in that one thread's charge and not on the list; the word of a listed node is 1 plus its holders, flag down |
| FreeLists.OffListNodeIsOwnedOrWaiting | base/concurrentqueue/concurrentqueue.h:1466-1470 | A node that is neither listed nor in a thread's charge either belongs to its client or has the flag up and at least one holder, who will re-add it |
| FreeLists.HeldNextIsStable | base/concurrentqueue/concurrentqueue.h:1487-1490 | While a thread holds a reference to a node, no step of any thread changes the node's next pointer |
| FreeLists.PoppedNodeIsNotFlagged | base/concurrentqueue/concurrentqueue.h:1491-1493 | The assertion after a successful pop holds in every reachable state |
| FreeLists.PopTakesTheHead | base/concurrentqueue/concurrentqueue.h:1490-1498 | No ABA: a compare-and-swap that succeeds takes exactly the first node and leaves the rest of the list, though the node may have left and come back since its next pointer was read |
| FreeLists.NothingIsLost | base/concurrentqueue/concurrentqueue.h:1516-1538 | With no operation under way, each node's word is 1 if it is listed and 0 if a client has it, and each node is one or the other |
| FreeLists.NextInv | base/concurrentqueue/concurrentqueue.h:1459-1538 | Every atomic operation of every thread keeps the invariant: word, place, chain and the remembered next pointers |
| FreeLists.FreeList.CreateNode | base/concurrentqueue/concurrentqueue.h:1439-1440 | A new node with word 0 is its client's |
| FreeLists.FreeList.CallAdd | base/concurrentqueue/concurrentqueue.h:1459-1466 | A client that owns the node enters add |
| FreeLists.FreeList.CallTryGet | base/concurrentqueue/concurrentqueue.h:1473-1478 | A thread enters try_get |
| FreeLists.FreeList.RunAdd | base/concurrentqueue/concurrentqueue.h:1466-1470 | fetch_add of the flag in place is the step of the machine: the adder goes on only if the word was 0 |
| FreeLists.FreeList.RunPushPrepare | base/concurrentqueue/concurrentqueue.h:1526-1529 | Head read, next stored, word set to 1, in place, as the machine does |
| FreeLists.FreeList.RunPushCas | base/concurrentqueue/concurrentqueue.h:1530 | The publishing compare-and-swap, as the machine does |
| FreeLists.FreeList.RunPushUndo | base/concurrentqueue/concurrentqueue.h:1532-1536 | After a lost publication: retry if no holder came, else leave the node to the last holder |
| FreeLists.FreeList.RunTryGetAcquire | base/concurrentqueue/concurrentqueue.h:1478-1489 | The loop up to the reading of the next pointer is the step of the machine; it reports empty only after a null head |
| FreeLists.FreeList.RunTryGetPop | base/concurrentqueue/concurrentqueue.h:1490 | The popping compare-and-swap |
| FreeLists.FreeList.RunTryGetDrop | base/concurrentqueue/concurrentqueue.h:1503-1506 | fetch_sub of one reference; whoever drops the last from a flagged node re-adds it |
| FreeLists.FreeList.RunTryGetReturn | base/concurrentqueue/concurrentqueue.h:1493-1498 | The references are taken off and the node returned is the caller's alone |
| FreeLists.FreeList.constructor | base/concurrentqueue/concurrentqueue.h:1452 | An empty list; fewer threads than the 31 bits of the reference count allow |
| FreeListCalls.EmptyOnlyIfItWas | base/concurrentqueue/concurrentqueue.h:1473-1514 | However the other threads' operations fall between, a try_get that returns a node has taken it from the front of the list and left it to its client; one that returns none came upon an empty list |
| FreeListCalls.GetAlone | base/concurrentqueue/concurrentqueue.h:1473-1514 | On a list at rest try_get takes the first node in seven operations, or finds none if there is none |
| FreeListCalls.AddAlone | base/concurrentqueue/concurrentqueue.h:1459-1538 | On a list at rest add puts the node in front in five |
| LightweightSemaphores.PermitsAreConserved | base/concurrentqueue/lightweightsemaphore.h:278-348 | In every reachable state, with timeouts and waitMany: initial + signalled = acquired + max(0, m_count) + kernel tokens + releases in flight, and slow-path waiters = tokens + releases in flight + max(0, -m_count) |
| LightweightSemaphores.NoWakeupIsLost | base/concurrentqueue/lightweightsemaphore.h:289-311 | If a thread is in the slow path while not all permits are handed out, a token is there or some signaller is about to post one |
| LightweightSemaphores.QuietCountIsExact | base/concurrentqueue/lightweightsemaphore.h:357-418 | With no call under way m_count is exactly the permits not handed out, and the kernel semaphore is at zero |
| LightweightSemaphores.ReleaseCountFitsInt | base/concurrentqueue/lightweightsemaphore.h:409-418 | The cast of the number of kernel releases to int loses nothing |
| LightweightSemaphores.StepTakesWhatIsWanted | base/concurrentqueue/lightweightsemaphore.h:314-348 | No call takes more than it asked for: what an operation takes comes off what is still wanted |
| LightweightSemaphores.TimeoutPutsItsPermitBack | base/concurrentqueue/lightweightsemaphore.h:299-311 | A timed-out wait that ends empty-handed restores the count by exactly one, and only when it was negative, taking no token |
| LightweightSemaphores.NextInv | base/concurrentqueue/lightweightsemaphore.h:278-418 | Every operation keeps both balances |
| LightweightSemaphores.LightweightSemaphore.CallTryWaitMany | base/concurrentqueue/lightweightsemaphore.h:379-390 | A call enters tryWaitMany |
| LightweightSemaphores.LightweightSemaphore.CallWaitMany | base/concurrentqueue/lightweightsemaphore.h:393-400 | A call enters waitMany, or wait for one permit |
| LightweightSemaphores.LightweightSemaphore.CallSignal | base/concurrentqueue/lightweightsemaphore.h:409-411 | A call enters signal |
| LightweightSemaphores.LightweightSemaphore.RunTryWaitMany | base/concurrentqueue/lightweightsemaphore.h:382-389 | Load and greedy compare-and-swap in place; what it returns is what the history of acquired permits grows by |
| LightweightSemaphores.LightweightSemaphore.RunSpinning | base/concurrentqueue/lightweightsemaphore.h:318-331 | A round of partial spinning, or the decrement after it |
| LightweightSemaphores.LightweightSemaphore.RunWaiting | base/concurrentqueue/lightweightsemaphore.h:333-343 | Kernel wait, and the settling of a wait that timed out |
| LightweightSemaphores.LightweightSemaphore.RunSignal | base/concurrentqueue/lightweightsemaphore.h:409-418 | The addition, and the kernel posts it owes |
| LightweightSemaphores.LightweightSemaphore.constructor | base/concurrentqueue/lightweightsemaphore.h:351-355 | The initial count |
| SemaphoreCalls.TryFailsOnlyWithoutPermits | base/concurrentqueue/lightweightsemaphore.h:357-390 | A tryWait or tryWaitMany comes back with nothing only if it saw a count of zero or less during the call, and otherwise with as many as it asked for or were there |
| SemaphoreCalls.WaitComesBackWithPermits | base/concurrentqueue/lightweightsemaphore.h:393-407 | A wait or waitMany comes back with one permit at least and no more than it asked for, unless its sleep ended without a token |
| SemaphoreCalls.SignalAddsItsCount | base/concurrentqueue/lightweightsemaphore.h:409-418 | A signal adds just what it was asked to |
| SemaphoreCalls.TakesAlone | base/concurrentqueue/lightweightsemaphore.h:379-400 | A call that finds permits and is not disturbed has them in two operations |
| BlockingConcurrentQueues.ElementsMatchPermits | base/concurrentqueue/blockingconcurrentqueue.h:137-144 | Elements in the inner queue = enqueued but not yet signalled + available permits + permits whose holders are not yet served, always |
| BlockingConcurrentQueues.PermitHolderIsServed | base/concurrentqueue/blockingconcurrentqueue.h:359-367 | A thread spinning after wait has an element left for it even if all other permit holders are served first |
| BlockingConcurrentQueues.QuietSemaphoreCountsElements | base/concurrentqueue/blockingconcurrentqueue.h:137-144 | With no call under way the semaphore counts the elements |
| BlockingConcurrentQueues.NextInv | base/concurrentqueue/blockingconcurrentqueue.h:402-410 | Every step of the composition keeps the balance |
| BlockingConcurrentQueues.BlockingConcurrentQueue.Insert | base/concurrentqueue/blockingconcurrentqueue.h:139 | The elements go in before the permits |
| BlockingConcurrentQueues.BlockingConcurrentQueue.Signal | base/concurrentqueue/blockingconcurrentqueue.h:140 | signal for what was inserted |
| BlockingConcurrentQueues.BlockingConcurrentQueue.TryWait | base/concurrentqueue/blockingconcurrentqueue.h:296 | The call to tryWait, or tryWaitMany |
| BlockingConcurrentQueues.BlockingConcurrentQueue.Wait | base/concurrentqueue/blockingconcurrentqueue.h:361 | The call to wait |
| BlockingConcurrentQueues.BlockingConcurrentQueue.RunWait | base/concurrentqueue/blockingconcurrentqueue.h:296-361 | Any operation inside tryWait or wait, spinning or asleep; permits it hands out are owed to the thread |
| BlockingConcurrentQueues.BlockingConcurrentQueue.RunSignal | base/concurrentqueue/blockingconcurrentqueue.h:140 | Any operation inside signal; once the permits are added nothing is left to signal |
| BlockingConcurrentQueues.BlockingConcurrentQueue.TryDequeueInner | base/concurrentqueue/blockingconcurrentqueue.h:364-366 | A round of the spin: it finds an element unless it misses one that is there |
| Tickets.HeadNeverPassesTail | base/concurrentqueue/concurrentqueue.h:1955-2052 | headIndex plus everything granted and not yet claimed never exceeds tailIndex, for any number of single and bulk dequeuers deciding on stale readings |
| Tickets.ClaimsAreDisjoint | base/concurrentqueue/concurrentqueue.h:2267-2269 | The index ranges being read are below the head and pairwise disjoint |
| Tickets.ClaimTakesTheNextIndices | base/concurrentqueue/concurrentqueue.h:1995-2003 | A claim takes exactly the next indices in order, ending no later than the tail |
| Tickets.QuietCountersAgree | base/concurrentqueue/concurrentqueue.h:1981-1986 | Once all tickets are claimed or given back, dequeueOptimisticCount - dequeueOvercommit = headIndex |
| Tickets.AloneTakesWhatIsThere | base/concurrentqueue/concurrentqueue.h:2250-2269 | A dequeuer that is alone is granted the lesser of what it asked for and what the queue holds |
| Tickets.GrantedIsLeft | base/concurrentqueue/concurrentqueue.h:2260-2262 | The decision on words: within half a turn, never more than is left, and exactly min(left, desired) when it is in range |
| Tickets.GrantedIsRightWithinHalfATurn | base/concurrentqueue/concurrentqueue.h:2259-2262 | For less than a turn either way, the decision on words grants no more than is left exactly when what is left is not below minus half a turn |
| Tickets.OversleptThreadWinsTooMuch | base/concurrentqueue/concurrentqueue.h:2259-2262 | Half a turn is needed: for every number of elements from a quarter of a turn up, in a reachable state a thread that slept through more than half a turn decides on what it read, and the tickets won outnumber the elements |
| Tickets.WinnersUnderTail | base/concurrentqueue/concurrentqueue.h:1991-1992 | Tickets won never outnumber the elements below the tail |
| Tickets.NextInv | base/concurrentqueue/concurrentqueue.h:2248-2338 | Every atomic operation keeps the ticket invariant |
| Tickets.DequeueCounters.PublishTail | base/concurrentqueue/concurrentqueue.h:1950 | The producer moves the tail |
| Tickets.DequeueCounters.CallDequeueBulk | base/concurrentqueue/concurrentqueue.h:2248 | A dequeue starts, for any number of elements, none included |
| Tickets.DequeueCounters.RunLook | base/concurrentqueue/concurrentqueue.h:2250-2254 | The three readings and the decision to draw |
| Tickets.DequeueCounters.RunDraw | base/concurrentqueue/concurrentqueue.h:2257 | fetch_add on the optimistic count |
| Tickets.DequeueCounters.RunDecide | base/concurrentqueue/concurrentqueue.h:2259-2262 | The tail read again; the number granted, whatever was read; the invariant is kept unless the thread slept through half a turn |
| Tickets.DequeueCounters.RunGiveBack | base/concurrentqueue/concurrentqueue.h:2263-2265 | Tickets that found nothing go to the overcommit |
| Tickets.DequeueCounters.RunClaim | base/concurrentqueue/concurrentqueue.h:2269 | fetch_add on the head: the claimed range, which may be empty, ends no later than the tail |
| Tickets.DequeueCounters.RunReturn | base/concurrentqueue/concurrentqueue.h:2329 | The call returns |
| SubQueueSafety.ClaimedIndexResolves | base/concurrentqueue/concurrentqueue.h:2003-2041 | In every reachable state, the slot a dequeuer is about to move from, found through whichever block index it loaded, in word arithmetic, holds the element enqueued at its index; this survives block re-use, index growth and wrap-around |
| SubQueueSafety.DequeueIsFifo | base/concurrentqueue/concurrentqueue.h:2280-2327 | What a dequeue has read so far is the elements of the first indices of its claim, in enqueue order |
| SubQueueSafety.ReturnedDequeueIsWhole | base/concurrentqueue/concurrentqueue.h:2325-2329 | When it returns it has all of them |
| SubQueueSafety.NoSlotIsOverwritten | base/concurrentqueue/concurrentqueue.h:1947-1951 | The producer constructs only in an empty slot, and in none whose element is unread or whose flag its reader has yet to raise |
| SubQueueSafety.NothingIsLost | base/concurrentqueue/concurrentqueue.h:1849-1952 | Every element enqueued and not yet taken is still in its slot |
| SubQueueSafety.NewBlockIsOutOfUse | base/concurrentqueue/concurrentqueue.h:1857-1866 | A block taken for new indices, re-used or new, has no unread element and no flag still to be raised |
| SubQueueSafety.LeewayIsExact | base/concurrentqueue/concurrentqueue.h:1869-1880 | The assertion on head and tail holds, and the leeway test in the circular order passes exactly when tail + 32 - head is below half a turn |
| SubQueueSafety.FlagIsDown | base/concurrentqueue/concurrentqueue.h:1616-1627 | The assertion in set_many_empty holds: no flag is raised twice |
| SubQueueSafety.HeadIsClose | base/concurrentqueue/concurrentqueue.h:1872-1874 | Oldest block in use, head and tail are within half a turn |
| SubQueueSafety.NextInv | base/concurrentqueue/concurrentqueue.h:1849-2052 | Every atomic operation of the producer and of every dequeuer keeps the invariant |
| Words.CircularLessOnWords | base/concurrentqueue/concurrentqueue.h:479-481 | The comparison of the words of two counts is the comparison of the counts: it depends on their difference as a word only |
| Words.CircularLessIsExactWithinHalfATurn | base/concurrentqueue/concurrentqueue.h:477-483 | For counts less than a turn apart, circular_less_than on their words is the order of the counts exactly when they are less than half a turn apart, or half a turn back |
| SubQueueReaders.SlotArithmetic | base/concurrentqueue/concurrentqueue.h:2014-2017 | From any published slot, subtracting bases as words and dividing with sign leads to the slot of an earlier block number |
| SubQueueReaders.SignedOffset | base/concurrentqueue/concurrentqueue.h:2011-2016 | The signed quotient of the base words' difference is the difference of block numbers |
| SubQueueReaders.ReaderKeeps | base/concurrentqueue/concurrentqueue.h:2272-2327 | Every operation of a dequeuer on the blocks keeps the invariant |
| SubQueueReaders.CounterKeeps | base/concurrentqueue/concurrentqueue.h:2250-2269 | Every operation on the counters keeps it |
| SubQueueProducer.GrowKeeps | base/concurrentqueue/concurrentqueue.h:2356-2393 | Growing the block index, with its copy and new front, keeps it: older indices still resolve |
| SubQueueProducer.AheadIsOldest | base/concurrentqueue/concurrentqueue.h:1857-1860 | The block after the tail block in the ring is the oldest in use |
| SubQueueCalls.EnqueueSucceedsUnlessRefused | base/concurrentqueue/concurrentqueue.h:1849-1952 | However the dequeuers' operations fall between, an enqueue that returns has appended its element to the log, unless it was refused: too little leeway, a full index that may not or cannot be replaced, or no block; then it has changed nothing that was enqueued |
| SubQueueCalls.EnqueueAlone | base/concurrentqueue/concurrentqueue.h:1849-1952 | From any reachable state with the producer at rest, its own operations after a call come to an end, and the element is in the log if and only if it need not take a block, or there are leeway, memory, a block, and room in the index or leave to replace it |
| SubQueueCalls.EnqueueIsShort | base/concurrentqueue/concurrentqueue.h:1849-1952 | It is wait-free: no more of the producer's own operations than the flags of a block and seven, whatever the others do |
| SubQueueCalls.ProducerIsNeverStuck | base/concurrentqueue/concurrentqueue.h:1849-1952 | In the middle of an enqueue the producer can always go on |
| TicketCalls.GoesOn | base/concurrentqueue/concurrentqueue.h:2248-2269 | While nobody else is between drawing tickets and claiming, what a dequeuer is due stays the lesser of what it asked for and what is there, until it has claimed just that |
| DequeueCalls.DequeueAlone | base/concurrentqueue/concurrentqueue.h:2248-2329 | Then a dequeue of at most max elements that goes on alone returns within 3n + 10 operations and has taken the next n = min(max, size) elements, in order |
| ExplicitProducers.ExplicitProducer.CallEnqueue | base/concurrentqueue/concurrentqueue.h:1849-1853 | An enqueue starts, in the present block or at the end of one |
| ExplicitProducers.ExplicitProducer.RunCheckEmpty | base/concurrentqueue/concurrentqueue.h:1857 | One flag of the block ahead; when all are up it becomes the tail block |
| ExplicitProducers.ExplicitProducer.ClearFlags | base/concurrentqueue/concurrentqueue.h:1652-1657 | reset_empty takes all flags of the block down |
| ExplicitProducers.ExplicitProducer.RunReadHead | base/concurrentqueue/concurrentqueue.h:1872-1880 | The leeway test in word arithmetic |
| ExplicitProducers.ExplicitProducer.CopyEntries | base/concurrentqueue/concurrentqueue.h:2371-2378 | The copying loop yields the old entries oldest first at the start of an array twice the size |
| ExplicitProducers.ExplicitProducer.RunMakeRoom | base/concurrentqueue/concurrentqueue.h:1882-1893 | A larger index if the present one is full, or the enqueue gives up |
| ExplicitProducers.ExplicitProducer.RunRequisition | base/concurrentqueue/concurrentqueue.h:1896-1912 | The new block is linked into the ring behind the tail |
| ExplicitProducers.ExplicitProducer.RunAddToIndex | base/concurrentqueue/concurrentqueue.h:1935-1939 | Entry, then front, then the next slot |
| ExplicitProducers.ExplicitProducer.RunConstruct | base/concurrentqueue/concurrentqueue.h:1948 | The element goes into an empty slot |
| ExplicitProducers.ExplicitProducer.RunStoreTail | base/concurrentqueue/concurrentqueue.h:1950 | The tail moves and the element is appended to the log |
| ExplicitProducers.ExplicitProducer.CallDequeueBulk | base/concurrentqueue/concurrentqueue.h:2248 | A dequeue starts |
| ExplicitProducers.ExplicitProducer.RunCounters | base/concurrentqueue/concurrentqueue.h:2250-2265 | Operations on the counters; the invariant is kept unless the thread slept through half a turn |
| ExplicitProducers.ExplicitProducer.RunClaim | base/concurrentqueue/concurrentqueue.h:2269 | A thread becomes the reader of what it claimed |
| ExplicitProducers.ExplicitProducer.RunLocate | base/concurrentqueue/concurrentqueue.h:2272-2286 | From index, front, base and block to a slot |
| ExplicitProducers.ExplicitProducer.RunTake | base/concurrentqueue/concurrentqueue.h:2288-2293 | The element moved out is the one the log has at that index |
| ExplicitProducers.ExplicitProducer.RunSetEmpty | base/concurrentqueue/concurrentqueue.h:2325-2327 | One flag; after the last, the next block or the caller |
| ThreadHashMap.SearchFindsTheFirstBinding | base/concurrentqueue/concurrentqueue.h:3407-3449 | A call returns the producer the thread was first bound to, through growth, lazy copying and tombstones, and a bound thread is never bound again |
| ThreadHashMap.BindingLasts | base/concurrentqueue/concurrentqueue.h:3388-3533 | No step of any thread changes a binding, except the thread's own exit |
| ThreadHashMap.ProducersAreNotShared | base/concurrentqueue/concurrentqueue.h:3227-3244 | No two threads have the same producer, and none has one that may be recycled |
| ThreadHashMap.ExitLeavesNoTrace | base/concurrentqueue/concurrentqueue.h:3536-3564 | Once a thread has exited no table holds its id |
| ThreadHashMap.SearchIsComplete | base/concurrentqueue/concurrentqueue.h:3444-3446 | An empty slot ends the search rightly: the id is not in the table |
| ThreadHashMap.NextInv | base/concurrentqueue/concurrentqueue.h:3388-3564 | Every atomic operation keeps the map |
| ThreadHashCalls.CallReturnsTheBinding | base/concurrentqueue/concurrentqueue.h:3388-3533 | However the other threads' operations fall between, a call of a thread that was bound returns its producer again; a call of one that was not returns the producer it is bound to from now on, or nothing, and nothing exactly if an allocation failed for it |
| ThreadHashCalls.ExitFreesTheProducer | base/concurrentqueue/concurrentqueue.h:3227-3244 | A thread that is gone has left its producer inactive, and nobody owns it |
| ThreadHashCalls.StepGetsOn | base/concurrentqueue/concurrentqueue.h:3407-3533 | With no more threads inside at once than half the first table's slots and one, every operation of a call or of an exit lowers a measure of what is left, or finds the number drawn too high for the table it saw |
| ThreadHashCalls.OthersDoNotDelay | base/concurrentqueue/concurrentqueue.h:3407-3533 | What other threads do does not raise that measure |
| ThreadHashCalls.WaitsOnlyForALargerTable | base/concurrentqueue/concurrentqueue.h:3455-3494 | A number is found too high only by a thread that found another one, exactly one, at work on a larger table |
| ThreadHashRoom.TableHasRoom | base/concurrentqueue/concurrentqueue.h:3491-3494 | Slots in use of a table plus live ids only in older tables stay below three quarters of it, but for its drift: tombstones re-used in tables it had superseded |
| ThreadHashRoom.CountCoversTheTable | base/concurrentqueue/concurrentqueue.h:3417-3421 | In the main table they are at most implicitProducerHashCount plus the drift |
| ThreadHashRoom.EveryTableHasAnEmptySlot | base/concurrentqueue/concurrentqueue.h:3412 | While the drift is at most a quarter of the table, an empty slot is there |
| ThreadHashRoom.ProbingEnds | base/concurrentqueue/concurrentqueue.h:3412-3448 | And then no thread makes as many probes of a table as it has slots |
| ThreadHashRoom.NextHist | base/concurrentqueue/concurrentqueue.h:3452-3532 | Every step keeps the accounts of numbers drawn, slots claimed and ids still to be copied |
| ThreadHashBound.DriftIsBounded | base/concurrentqueue/concurrentqueue.h:3455-3488 | If at most c threads besides one are inside the search at once, a table drifts by at most c for each table before it, and each table is at least twice the one before |
| ThreadHashBound.ProbeLoopsEnd | base/concurrentqueue/concurrentqueue.h:3412 | With 2c at most the first table's size and two, c threads inside at once, every probe loop, searching, copying, inserting or erasing, ends before it goes round its table, whatever the number of threads |
| ThreadHashDrift.LoopsEndExactly | base/concurrentqueue/concurrentqueue.h:3412-3526 | In all runs with at most c threads inside at once, every probe loop, searching, copying, inserting or erasing, ends before it goes round its table if and only if 2c is at most the first table's size and two |
| ThreadHashDrift.MainTableCanFillUp | base/concurrentqueue/concurrentqueue.h:3412 | With one caller more than that, for every even size n of the first table from 8 on: a run of at most n / 2 + 2 callers at a time after which the main table has no free slot |
| ThreadHashDrift.SearchCanGoRound | base/concurrentqueue/concurrentqueue.h:3412 | And then the search does not end: for every number of probes such a run in which a thread whose id is not there has made as many |
| ThreadHashDrift.CountAloneDoesNotCover | base/concurrentqueue/concurrentqueue.h:3417-3421 | Nor does the one count reserve room for older tables without the drift: with a count of two n / 2 + 3 slots of the main table are in use |
| ThreadHashObjects.ImplicitProducerHashes.Begin | base/concurrentqueue/concurrentqueue.h:3404-3408 | A call, an exit, or a new thread with an old id begins |
| ThreadHashObjects.ImplicitProducerHashes.RunProbe | base/concurrentqueue/concurrentqueue.h:3412-3448 | One probe of the search |
| ThreadHashObjects.ImplicitProducerHashes.RunCopy | base/concurrentqueue/concurrentqueue.h:3425-3439 | A compare-and-swap in the main table for an id found in an older one |
| ThreadHashObjects.ImplicitProducerHashes.RunReserve | base/concurrentqueue/concurrentqueue.h:3452-3494 | The number drawn and the tests on it |
| ThreadHashObjects.ImplicitProducerHashes.RunGrow | base/concurrentqueue/concurrentqueue.h:3460-3488 | Under the lock: a table at least twice the size, or none needed |
| ThreadHashObjects.ImplicitProducerHashes.RunBind | base/concurrentqueue/concurrentqueue.h:3495-3524 | A producer, and a tombstone or an empty slot for the id |
| ThreadHashObjects.ImplicitProducerHashes.RunBackOut | base/concurrentqueue/concurrentqueue.h:3497-3514 | The count is given back |
| ThreadHashObjects.ImplicitProducerHashes.RunExit | base/concurrentqueue/concurrentqueue.h:3550-3563 | The id becomes a tombstone table by table, then the producer is free |
| PoolDrain.SinksKeepThreadOrder | README.md:29-30 | With a worker per queue, what has been handed to the sinks of a thread's messages is always a prefix of its calls |
| PoolDrain.TokenHasAWorker | base/lockfree_concurrent_thread_pool.h:52-74 | Every token in use has a worker bound to it, a worker on its way to the next token, or an unclaimed start permit |
| PoolDrain.TokenIsTaken | base/lockfree_concurrent_thread_pool.h:57-69 | Each token below the number of workers that fetched an index has a worker of its own |
| PoolDrain.OneThreadPerToken | base/lockfree_concurrent_thread_pool.h:203-209 | The spin lock works: no two threads enqueue with one token at once |
| PoolDrain.NothingIsLostOrDoubled | base/thread_pool.cpp:26-64 | Each issued message is in exactly one place, entering, in a queue, in a worker's hands or at the sinks, and no other message is anywhere |
| PoolDrain.FulfilledFlushIsABarrier | base/thread_pool.cpp:45-54 | When the promise of a flush is set, everything the thread logged before has been handed to the sinks, and the sinks have been flushed after that |
| PoolFlush.FlushWaits | include/async_logger.h:59-70 | A flush that has returned, in any pool, had its promise set, and so the sinks were flushed for it |
| PoolFlush.FlushIsABarrier | include/async_logger.h:59-70 | With a worker per queue: of every flush that has returned, all that its thread called before it has been handed over, in order, and the sinks flushed after that; if it was the last call, nothing is left to hand over |
| PoolFlush.RestingPoolIsDrained | base/thread_pool.cpp:26-68 | A pool in use in which no thread and no worker can go on has all calls returned, all queues empty, and every message ever issued at the sinks exactly once: no flush is left waiting, and no message lying, unless the shared queue has no room at all |
| PoolDrain.ShutdownDrains | base/lockfree_concurrent_thread_pool.h:149-158 | Once all workers have exited every message ever issued has been handed over exactly once and the queues are empty |
| PoolDrain.QueueIsDone | base/lock_thread_pool.h:56-63 | Then each worker has taken exactly one order to stop, and the destructor had begun |
| PoolDrain.ShutdownKeepsOrder | base/lock_thread_pool.h:56-69 | And, with one worker per queue, the sinks have each thread's calls, all of them and in order |
| PoolOrder.OrderIsKeptExactlyWithOneWorker | README.md:29-30 | From any initial state, all runs keep every thread's order if and only if no queue has two workers, or no message can enter: there is no thread to log, or no room in the shared queue |
| PoolOrder.BarrierHoldsExactlyWithOneWorker | include/async_logger.h:59-70 | From any initial state, in all runs every flush that has returned has had all earlier calls of its thread handed over in order, and the sinks flushed after them, if and only if no queue has two workers, or no message can enter |
| PoolOrder.FlushCanOvertake | include/async_logger.h:59-70 | Every lock pool with two workers or more, a thread and room has a run in which flush returns before what was logged ahead of it has reached the sinks |
| PoolEnd.ShutdownNeverSticksExactlyWithRoom | base/lock_thread_pool.h:56-63 | From any initial state, the pool can go on in all states in which it is shutting down, if and only if it is the concurrent one or its queue has room |
| PoolEnd.ShutdownIsShort | base/lockfree_concurrent_thread_pool.h:149-158 | Every step of a shutdown brings its end nearer: a run takes no more of them than a bound on what the workers, the queues and the destructor have left |
| PoolEnd.ShutdownEnds | base/lock_thread_pool.h:56-69 | A run that has begun to shut down and cannot go on has all workers joined, and every message ever issued at the sinks exactly once |
| PoolOrder.TwoWorkersCanReorder | README.md:30 | Every lock pool with two workers or more, a thread and room for a message has a run in which a second message reaches the sinks before the first |
| PoolSafety.EnqueueKeeps | base/lockfree_concurrent_thread_pool.h:203-209 | A message put in its thread's queue goes to the end of the line from that thread to the sinks |
| PoolSafety.TakeKeeps | base/lockfree_concurrent_thread_pool.h:212-225 | A worker takes the front of its own queue: the line is unbroken |
| PoolSafety.ProcessKeeps | base/thread_pool.cpp:45-54 | Handing a message to the sinks moves it within the line |
| PoolDrain.NextInv | base/thread_pool.cpp:41-68 | And keeps the accounts of messages, locks and orders to stop |
| PoolObjects.ThreadPool.EnqueueLog | base/thread_pool.cpp:26-30 | A log call starts |
| PoolObjects.ThreadPool.EnqueueFlush | base/thread_pool.cpp:32-39 | A flush call starts |
| PoolObjects.ThreadPool.RunFindToken | base/lockfree_concurrent_thread_pool.h:187-201 | The thread's token, or the next one and a start permit |
| PoolObjects.ThreadPool.RunLock | base/lockfree_concurrent_thread_pool.h:19-29 | The spin lock, taken and given back |
| PoolObjects.ThreadPool.RunEnqueue | base/lockfree_concurrent_thread_pool.h:204-208 | The message goes to the end of the queue |
| PoolObjects.ThreadPool.RunAwaitFlush | include/async_logger.h:66-67 | future.get |
| PoolObjects.ThreadPool.RunStart | base/lockfree_concurrent_thread_pool.h:55-69 | A worker's permit, index and binding |
| PoolObjects.ThreadPool.RunDequeue | base/lockfree_concurrent_thread_pool.h:222-224 | The front of the worker's own queue |
| PoolObjects.ThreadPool.RunProcess | base/thread_pool.cpp:45-57 | The switch over the kinds of message; false on terminate |
| PoolObjects.ThreadPool.RunFulfil | base/thread_pool.cpp:52 | set_value |
| PoolObjects.ThreadPool.Destroy | base/lockfree_concurrent_thread_pool.h:149 | The destructor begins |
| PoolObjects.ThreadPool.RunDestructor | base/lockfree_concurrent_thread_pool.h:150-158 | Permits and orders to stop, then the joins |
| BlockQueues.NoWakeUpIsLost | base/block_queue.h:32-87 | While consumers wait, notifications on their way plus consumers already woken are at least the items; and so for producers and free places; for every mix of the five operations, timeouts and spurious wake-ups |
| BlockQueues.RestingQueueIsSettled | base/block_queue.h:49-74 | When nothing moves, consumers wait only for an empty queue and producers only for a full one, not both unless there is no place at all |
| BlockQueues.EveryItemIsAccountedFor | base/block_queue.h:32-87 | Items leave in the order they came; accepted = dequeued + present + overridden |
| BlockQueues.NextInv | base/block_queue.h:32-87 | Every section under the mutex, notification and wake-up keeps the invariant |
| BlockQueues.BlockQueue.Call | base/block_queue.h:28-29 | A call begins |
| BlockQueues.BlockQueue.Push | base/block_queue.h:37 | push_back on the ring is the push of the specification |
| BlockQueues.BlockQueue.RunEnqueue | base/block_queue.h:34-63 | The section of the three ways in |
| BlockQueues.BlockQueue.RunDequeue | base/block_queue.h:67-84 | The section of the two ways out: the oldest item, or none |
| BlockQueues.BlockQueue.RunNotify | base/block_queue.h:43-85 | notify_one wakes a waiting thread if there is one |
| BlockQueues.BlockQueue.RunDiscard | base/block_queue.h:45 | The discard is counted |
| BlockQueues.BlockQueue.WakeUp | base/block_queue.h:79 | Timeouts and spurious wake-ups |
| BlockQueueCalls.EachCallDoesItsPart | base/block_queue.h:32-87 | Over whole calls, however those of other threads fall between: enqueue puts its item in and drives none out; enqueue_if_have_room puts it in if it finds room and counts it as discarded if not; enqueue_nowait always puts it in and drives one out exactly if there is no room; dequeue takes one item, and dequeue_for returns without only if there is none |
| BlockQueueCalls.EnqueuePutsExactlyIfRoom | base/block_queue.h:49-55 | While its item is not in, each section of an enqueue puts it in exactly if the queue is not full |
| BlockQueueCalls.WhatLeftWasTakenOrForcedOut | base/block_queue.h:58-63 | The override count is exactly the number of pushes of enqueue_nowait into a full queue; all else that left was taken by dequeue or dequeue_for |
| BlockQueueCalls.NothingIsLostUnlessForced | base/block_queue.h:49-74 | In a run without enqueue_nowait nothing is overridden: what the dequeues took, and what is there, are what came in, in order |
| CircularQueues.RunKeepsTheLatest | base/circular_queue.h:57-72 | After any run of pushes and pops the elements are the latest pushes, and pushes = pops that found one + dropped + present |
| CircularQueues.PushesKeepTheLast | base/circular_queue.h:57-66 | Pushes alone keep exactly the last n and drop the rest |
| CircularQueues.CircularQueue.GetSize | base/circular_queue.h:38 | Modular size is the number of elements |
| CircularQueues.CircularQueue.Empty | base/circular_queue.h:42 | head = tail exactly when there is none |
| CircularQueues.CircularQueue.Full | base/circular_queue.h:44-49 | Exactly when as many are present as there is room for, and never for an unused queue |
| CircularQueues.CircularQueue.At | base/circular_queue.h:51-54 | The i-th oldest element |
| CircularQueues.CircularQueue.PushBack | base/circular_queue.h:57-66 | The ring with its override counter refines the bounded sequence |
| CircularQueues.CircularQueue.PopFront | base/circular_queue.h:68-72 | The oldest goes |
| CircularQueues.CircularQueue.Front | base/circular_queue.h:82-85 | The oldest element |
| CircularQueues.CircularQueue.Clear | base/circular_queue.h:74-80 | Back to the unused state |
| CircularQueues.Backtracer.ForeachDo | base/backtracer.h:61-68 | A dump hands over exactly the last min(n, logged) messages, oldest first, and leaves none |
| CircularQueues.Backtracer.PushBack | base/backtracer.h:56-59 | A message is logged; what is kept are the last n, or nothing while disabled |
| CircularQueues.Backtracer.EnableWithSize | base/backtracer.h:44-48 | Enabled with room for n, empty |
| CircularQueues.Backtracer.Disable | base/backtracer.h:50-54 | Disabled, nothing kept |
| Bigints.Bigint.Assign | base/fmt/format.h:2806-2814 | The limbs of n, at least one, no leading zero unless n is zero |
| Bigints.Bigint.AssignFrom | base/fmt/format.h:2823-2829 | A copy |
| Bigints.Bigint.MultiplyBigit | base/fmt/format.h:2772-2781 | The exact product |
| Bigints.Bigint.MultiplyWide | base/fmt/format.h:2785-2802 | The exact product by a 64-bit or 128-bit factor, with every intermediate cut to its word |
| Bigints.Bigint.RemoveLeadingZeros | base/fmt/format.h:2754-2758 | Same number, top limb not zero or a single zero limb |
| Bigints.Bigint.ShiftLeft | base/fmt/format.h:2840-2853 | Multiplied by exactly 2^shift |
| Bigints.Bigint.ShiftLimbs | base/fmt/format.h:2843-2851 | The limb loop for shifts below 32 |
| Bigints.Bigint.Align | base/fmt/format.h:2956-2965 | Same number with the exponent lowered to the other's |
| Bigints.Bigint.Compare | base/fmt/format.h:2862-2877 | The sign of the difference, except that equal numbers are ordered by exponent, smaller exponent above; and what a zero compares as |
| Bigints.Bigint.AddCompare | base/fmt/format.h:2880-2904 | The exact sign of a + b - c for all operands without leading zeros, despite the early exits, except that a zero whose exponent makes it longer is taken for larger |
| Bigints.Bigint.SubtractBigits | base/fmt/format.h:2748-2752 | One limb with borrow in and out |
| Bigints.Bigint.TakeBorrow | base/fmt/format.h:2768 | What the last loop does to the limbs: one limb is changed, and a zero limb becomes 2^32 - 2 |
| Bigints.Bigint.SubtractAligned | base/fmt/format.h:2761-2770 | The exact difference, plus what a lost borrow leaves, exactly when the limb above the subtrahend is zero and a borrow reaches it |
| Bigints.Bigint.DivmodAssign | base/fmt/format.h:2969-2980 | For a dividend below ten divisors: exact quotient and remainder, except exactly when the two are equal and the dividend has the larger exponent |
| Bigints.Bigint.Square | base/fmt/format.h:2926-2952 | The exact square; the 128-bit column sum never overflows |
| Bigints.Bigint.AddColumn | base/fmt/format.h:2935-2946 | One column of the square, lower or upper half |
| Bigints.Bigint.AssignPow10 | base/fmt/format.h:2907-2924 | Exactly 10^power for every power below 2^30 |
| Bigints.Bigint.TopBit | base/fmt/format.h:2911-2913 | The greatest power of two not above the exponent |
| Bigints.Bigint.AssignPow5 | base/fmt/format.h:2916-2922 | 5^power by squarings |
| Bigints.CarryOutIsTight | base/fmt/format.h:2791-2801 | The carry of a multiplication by v stays below v, and the bound is reached: limbs of all ones carry v - 1 |
| Bigints.WideStep | base/fmt/format.h:2793-2796 | One step of the wide multiplication: nothing overflows and digit plus carry are exact |
| Bigints.BorrowIsCovered | base/fmt/format.h:2974-2978 | A dividend below ten divisors never loses a borrow |
| Bigints.EqualNumbersCompareUnequal | base/fmt/format.h:2875 | One number held in two ways compares greater than itself |
| Bigints.BorrowStopsShort | base/fmt/format.h:2768 | 2^64 less one comes out wrong when asked of subtract_aligned |
| Columns.ColumnsAreSquare | base/fmt/format.h:2932-2949 | All columns with their weights make up the square |
| Dragon.FormatDragon | base/fmt/format.h:2993-3125 | For every significand below 2^128 but four. A count of digits, or of places after the point: the digits are f * 2^e in units of the last place, rounded half to even, carry chain included. Shortest: the digits lie in the rounding interval, no shorter ones do, and none of that length are nearer; for the ends of the interval, and a zero that is overlooked, exactly what the code does |
| Dragon.CountedDigits | base/fmt/format.h:3086-3124 | A count of digits in terms of f * 2^e in units of the last place, one or more digits or none, and what a carry makes of them |
| Dragon.FixedDigits | base/fmt/format.h:3096-3124 | numDigits digits of numerator / denominator, rounded half to even; length and exponent in both formats |
| Dragon.PropagateCarry | base/fmt/format.h:3105-3121 | The carry up through the nines keeps the value; out at the top it becomes a one |
| Dragon.LeadingDigits | base/fmt/format.h:3097-3101 | All digits but the last are exact: the remainder is what they leave out |
| Dragon.NoDigits | base/fmt/format.h:3087-3095 | A zero, or the one that rounding gives, also for negative counts |
| Dragon.ShortestDigits | base/fmt/format.h:3057-3084 | The loop ends with digits 0 to 9 that are between the bounds; no shorter number is, and no other of that length is nearer |
| Dragon.OneMoreDigit | base/fmt/format.h:3062-3083 | A round of the loop: the last digit, or one more with all numbers times ten and still no shorter number between the bounds |
| Dragon.Digits | base/fmt/format.h:3056-3085 | The same in terms of f * 2^e and the next values of its format |
| Dragon.ShortestStep | base/fmt/format.h:3062-3078 | A digit of at most 9. It stops if and only if some number of that length is between the bounds, and then with the nearest; a remainder of zero apart while lower is too small |
| Dragon.NextDigit | base/fmt/format.h:3098-3100 | Exact quotient digit and remainder; no tie arises |
| Dragon.SetUpInteger | base/fmt/format.h:3007-3018 | value = numerator / denominator * 10^exp10, half gaps over the denominator, for e >= 0 |
| Dragon.SetUpSmall | base/fmt/format.h:3019-3030 | The same for negative exp10 |
| Dragon.SetUpFraction | base/fmt/format.h:3031-3041 | The same for fractions with exp10 >= 0 |
| Dragon.Start | base/fmt/format.h:3001-3043 | The three set-ups together, ready for the first digit |
| Dragon.Fixup | base/fmt/format.h:3045-3053 | exp10 is lowered exactly when value plus upper is below, or for odd significands at, 10^exp10; numbers scaled by ten then |
| Dragon.IntegerTie | base/fmt/format.h:2971 | Dividend and divisor of an integer value meet the one case division gets wrong if and only if the significand is one of four, of 70 to 73 bits |
| Dragon.TieIsMisread | base/fmt/format.h:2971 | For each of the four division returns 0 and leaves a remainder as large as the divisor |
| Dragon.OddEndsAreOpen | base/fmt/format.h:3064 | For significands of up to 64 bits, and an estimate at most one too high, the lower end of the interval is left out for odd significands and no zero is overlooked |
| Dragon.LowEndIsRight | base/fmt/format.h:3064 | The lower end is in or out as it should be, for even and odd significands, exactly unless the exponents in limbs differ and lead the wrong way |
| Floats.FormatFloat | base/fmt/format.h:3247-3259 | With the estimate of format_float and its correction, for every value of a format of up to 64 or of 113 binary digits. Fixed: the exponent returned is minus the precision, and the digits are f * 2^e in units of that place, rounded half to even. Other formats: just as many digits as asked for from the leading place, rounded half to even, a carry to the next power of ten included. Shortest: no zero in front; the digits lie in the rounding interval, nothing that ends at a higher place does, and nothing that ends at the same place is nearer; for odd significands of up to 64 digits the lower end is left out |
| Floats.LeadingIsUnique | base/fmt/format.h:3045-3053 | The leading place is that of the largest power of ten not above all numbers nearer to the value than to the next one; there is only one |
| Floats.ZeroIsSeen | base/fmt/format.h:3510-3522 | For those values no zero is overlooked: where it could be, the estimate is corrected first |
| Floats.TiesAreNotConverted | base/fmt/format.h:1604-1640 | No value of those formats has a significand that division misreads |
| Floats.EstimateFits | base/fmt/format.h:3252-3258 | The estimate of format_float is at most one too high and never too low |
| Floats.OddEndIsTaken | base/fmt/format.h:3064 | As format_float calls it: a significand of 113 binary digits, odd, whose digits are the excluded end; read back they are the value before |
| Floats.EvenEndIsMissed | base/fmt/format.h:3064 | As format_float calls it: a significand of 64 binary digits, even, whose 19-digit end is in the interval and not found |
| Floats.ZeroIsHidden | base/fmt/format.h:3064 | Only with a significand that no format has: 10^43, for which the digits would be 10 |
| Dragon.PowerOfTenIsWide | base/fmt/format.h:3007-3018 | A significand and a power of two that make a power of ten need at least that power of five in the significand |
| Decimals.RoundHalfEvenIsNearest | base/fmt/format.h:3103-3104 | The rounding used as reference: the only integer within half, and even on a tie |
| Patterns.PrintThenCompile | sinks/formatters/pattern_formatter.cpp:48-118 | Printing any normal-form list of literals and padded or truncated flags and compiling the text gives the list back |
| Patterns.CompiledIsNormal | sinks/formatters/pattern_formatter.cpp:48-76 | Whatever is compiled is in normal form: literals not empty and not adjacent, padding at most 64, flags that can follow their padding |
| Patterns.CompilePrintCompile | sinks/formatters/pattern_formatter.cpp:48-118 | The print of any compiled pattern compiles to the same list |
| Patterns.SameCompiled | sinks/formatters/pattern_formatter.cpp:120-128 | A pattern compiles alike under two tables of user flags if and only if they agree on the flags in it |
| Patterns.PatternFormatter.Clone | sinks/formatters/pattern_formatter.cpp:35-41 | The copy has the same formatters if and only if no flag of the pattern was added or replaced since it was compiled |
| Patterns.LateFlagChangesTheCopy | sinks/formatters/pattern_formatter.cpp:35-41 | A pattern and a late flag for which original and copy differ |
| Patterns.FlagMeans | sinks/formatters/pattern_formatter.cpp:120-291 | What each flag on its own stands for: the user's formatter, or the built-in one for each of the 29 documented flags, or a percent sign, or the two characters themselves |
| Patterns.PatternFormatter.Default | sinks/formatters/pattern_formatter.cpp:20-25 | The default pattern |
| Patterns.PatternFormatter.constructor | sinks/formatters/pattern_formatter.cpp:10-18 | Compiles the pattern it is given |
| Patterns.PatternFormatter.AnalysePattern | sinks/formatters/pattern_formatter.cpp:48-76 | The walk over the pattern yields its compiled list |
| Patterns.PatternFormatter.AnalyseSpacesInfo | sinks/formatters/pattern_formatter.cpp:79-118 | Side, length in a wrapping word cut to 64, and truncation mark, and where they end |
| Patterns.PatternFormatter.AppendFlagFormatter | sinks/formatters/pattern_formatter.cpp:120-291 | User flags first, then the built-in ones, then the percent sign, else the two characters |
| Patterns.PatternFormatter.SetPattern | sinks/formatters/pattern_formatter.cpp:43-46 | Compiles with the present flags |
| RollingFiles.NothingIsLost | sinks/rolling_file_sink.h:90-120 | Until the last index is used twice, the files read in the order of their names are the whole log, in order |
| RollingFiles.PackKeepsMessages | sinks/rolling_file_sink.h:90-102 | The files hold all messages in order, each in one piece |
| RollingFiles.PackIsTight | sinks/rolling_file_sink.h:93-98 | A file is within the size limit or holds exactly one message that is not empty, and a file is closed only when the next message did not fit |
| RollingFiles.SegmentIsKept | sinks/rolling_file_sink.h:110-120 | A file closed at an index before the last is never written again; at the last index each file replaces the one before |
| RollingFiles.OtherFilesStay | sinks/rolling_file_sink.h:34-39 | Of files that were there before, at most the one at the last index changes |
| RollingFiles.SlotsIncrease | sinks/rolling_file_sink.h:114-117 | Indices increase until the last, and stay there |
| RollingFiles.RollFindsTheNextSlot | sinks/rolling_file_sink.h:114-117 | Searching on from the current index on the present disk finds the next free index of the original one |
| RollingFiles.RollingFileSink.Create | sinks/rolling_file_sink.h:27-41 | Fails exactly for a size limit of zero or more than 10000 files |
| RollingFiles.RollingFileSink.constructor | sinks/rolling_file_sink.h:35-40 | The first free index, its file empty |
| RollingFiles.RollingFileSink.RollingFilename | sinks/rolling_file_sink.h:69-82 | The name, built piece by piece |
| RollingFiles.RollingFileSink.Output | sinks/rolling_file_sink.h:90-102 | After every message the disk with the stream flushed is the log as packed, the index is its last place, and cur_file_size_ is the length of the current file |
| RollingFiles.RollingFileSink.FlushStream | sinks/rolling_file_sink.h:104-106 | What was buffered reaches the disk |
| RollingFiles.RollingFileSink.SizeOnDisk | sinks/rolling_file_sink.h:95 | Buffered text is not counted |
| RollingFiles.RollingFileSink.Write | sinks/rolling_file_sink.h:100 | The text is appended, on the disk or in the buffer |
| RollingFiles.RollingFileSink.RollFile | sinks/rolling_file_sink.h:110-120 | The next file, empty |
| RollingFiles.RollingFileSink.Flush | sinks/rolling_file_sink.h:104-106 | The disk itself is then the log as packed |
| FileNames.NamesSortByIndex | sinks/rolling_file_sink.h:69-82 | File names sort as their indices do, and differ |
| FileNames.SuffixIsTheExtension | base/file_base.h:116-123 | The suffix starts at the last dot, if that is in the last part of the path and not its first character, and is empty otherwise |
| FileNames.IndexGoesBeforeTheExtension | sinks/rolling_file_sink.h:69-82 | The index goes between the name and its extension, at the end of a name without one |
| FileNames.FillUint | base/fmt_base.h:32-69 | Zero padding to the length, in the two special cases and in general |
| FileNames.PaddedIsFixed | base/fmt_base.h:31-37 | Padding with zeros is writing the number with a fixed count of digits |

## Left out

Assumptions of the models:

- Memory orderings and fences: atomic operations are taken as sequentially consistent, one at a time.
- Counters that wrap (`tailIndex`, `headIndex`, `dequeueOptimisticCount`, `dequeueOvercommit`) are modelled as unbounded counts whose words the code sees; tests are made on the words. `m_count`, sizes of files and messages, and the number of nodes, blocks and tables are assumed not to reach their words' limits.
- `x & (n - 1)` for a power of two n is written as the remainder.
- The free list and the semaphore are for fewer threads than 2^31 - 1 and 2^31.
- Thread ids are indices; their hashes are arbitrary. The id of a thread that has exited may come back.
- Files are changed by nobody but the sink; one disk holds them, as a map from names to texts.

Members stated with less than the code might be used for:

- Tickets.DequeueCounters.RunDecide: the step is stated for every reading, but the invariant is kept only if the thread did not sleep through 2^63 tickets, without which the decision is wrong, as shown.
- ExplicitProducers.ExplicitProducer.RunCounters: likewise.
- Dragon.FormatDragon: the four significands that division misreads are excluded, also where one digit is asked for and comes out right all the same; TieIsMisread has the division, and FormatFloat, for the values that are converted, excludes none. `int` is assumed wide enough for exp10 and the number of limbs.
- Floats.FormatFloat: the estimate of the exponent is taken as the ceiling of the logarithm, which the code computes in doubles less 1e-10.
- Bigints.Bigint.AssignPow10: for powers below 2^30, beyond which the code's `int` counts of limbs overflow.
- ThreadHashDrift.LoopsEndExactly: for first tables of 1, 2 or 4 slots only the sufficient half is proved, in ThreadHashBound.ProbeLoopsEnd.
- ThreadHashRoom.EveryTableHasAnEmptySlot: requires the drift to be at most a quarter of the table; ThreadHashBound gives a bound on it in terms of the callers, and ThreadHashDrift runs that exceed it.
- Patterns.PatternFormatter.AnalysePattern: patterns whose last percent sign has its flag; on others the loop at sinks/formatters/pattern_formatter.cpp:54-62 runs past the end.
- RollingFiles.RollingFileSink.Output: `cur_file_size_ + buf.size()` is assumed not to overflow.

Not modelled:

- `enqueue_bulk`, elements whose constructors or moves throw, and the rollback for them; `MAX_SUBQUEUE_SIZE` other than its default; implicit producers' own blocks; producer lists; move and swap of queues. Block pool and allocator are one action that provides a block.
- Failing allocations, except where the code has a branch for them (`new_block_index`, `requisition_block`, the tables' growth, `recycle_or_create_producer`).
- `lockfree_thread_pool`, whose terminate messages may overtake messages of other producers; thread-local tokens; a worker that flushes at `flush_level_` (it would wait on its own pool); sinks that throw.
- In the pools, the queues appear as sequences: that the lock-free sub-queue and the block queue are such sequences is the subject of SubQueueSafety and BlockQueues.
- The block queue as compiled under MinGW, which notifies before it gives the mutex back.
- Platform semaphores, condition variables, clocks and thread ids beyond the steps they allow.
- Dragonbox, the tables of powers, format specifications, locales and UTF conversion in fmt; the exception in `adjust_precision`.
- What the flag formatters write, and how padding is applied; `custom_flag_formatter` objects are numbers.
- I/O errors, Windows file names, creating directories, console and colour sinks, the registry.
