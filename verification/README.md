# A verified model of the OFlux runtime

OFlux runs events. An event belongs to a node of a flow graph, acquires the keyed
guards that its node names, runs, creates its successors, and hands its guards over to
the events that wait for them. In the classic runtime one manager lock makes all of
this atomic. The lock-free runtime replaces the lock by structures that use
compare-and-swap. This project models both in Dafny and proves what they are for.
`dafny verify dfyconfig.toml` checks it.

## How it is organised

Protocols that run concurrently are state machines: a datatype for the shared words and
a program counter for each thread, and steps that make at most one shared access each.
`Do` is one step, `Exec` a whole schedule, and a schedule may interleave the threads in
any way. Theorems about them hold for every schedule.

| module | models |
|---|---|
| WorkStealingDeque | the work-stealing deque with its growing array, one owner and any number of thieves |
| CircularBuffer | the executor that runs submitted items in ticket order, whichever thread does it |
| HazardPointers | hazard pointers, with a scan that reads the slots one by one |
| MemoryPool, PoolTraffic | the memory pool of every thread, and the mailboxes through which blocks go home; what each put and get achieves |

Structures that work by updating objects are classes with loops. Each method is proved
against a function of the old state, and the properties of a structure are proved of
these functions, over whole histories of calls.

| module | models |
|---|---|
| SmrScan | the sequential part of a scan: collecting, sorting, searching, compacting in place |
| ClassicAtomics | the classic exclusive and read/write guards |
| LockFreeExclusive, LockFreeReadWrite | the lock-free waiter lists and the guards on top of them, one call at a time |
| Upgradeables | when the two read/write guards agree on upgradeable requests, and when one of these reads null data |
| GrowableArray, Pools | the growable circular array, its queue, the two pools and the free list |
| HashTable | the hash table that is copied entry by entry into its successor, one call at a time |
| MagicSorter, Cycles | the numbering of guards, and cycles of a relation |
| RemovableList | the list with pointers back to the pointers, and the runtime's list of threads |

The guard kernel is the classic runtime as a whole: events, atomics, wait lists, the run
queue and the threads.

| module | models |
|---|---|
| GuardKernel | the state machine (create, take, handle) and its invariant |
| GuardTheorems | one place for each event, guards held, no deadlock without a cycle, draining |
| GuardDeadlock | the runs that do deadlock, and when there is one |
| GuardKeys | the keys by which events hold their guards, and the guards and order of successors |
| GuardAtoms | the data of guards, collection without leaks, the order of releases |
| GuardCollection | collecting unused atomics cannot be observed |
| GuardModes | what exclusive and read/write guards exclude, system-wide |
| GuardRuntime | the same steps as loops that update events and atomics in place; sorting the guards of a node |

## What came out false, and when it holds

* **Hazard pointers.** A scan reads the slots of threads whose index is below
  `num_threads`. Thread 0 is counted first, by the runtime's constructor
  (src/runtime/lockfree/OFluxLockfreeRunTime.cpp:58); the others are given an index and
  count themselves in when they start, so a thread can start ahead of one with a lower
  index, and then its slots are not read. `SafeExactlyIfCovered` says when a load is worth
  something: for every load of a pointer in every reachable state, the slot protects the
  node in every continuation if and only if its owner's index is below `num_threads` at
  the load. `EarlyThreadIsNotProtected` is a start that fails, and
  `IndexOrderCovers` says that starting in the order of the indices never does.
* **Deadlock.** `DeadlockFree` holds when the references of the nodes contain no cycle of
  atomics. With one reference per guard they do not (`SortedNeverDeadlocks`), nor with
  several to one guard if they have known keys and one mode (`OneModeAscends`). For nodes with
  two exclusive references each the condition is exact (`PairsDeadlockExactlyOnCycles`);
  sorted, these have a cycle only through references to one guard that are late or
  collectable, which are sorted without their keys. A node that uses one guard in two modes
  can break it although it is sorted, since the comparison looks at the mode before the key
  (src/runtime/atomic/OFluxAtomicHolder.h:91-97): `TwoModesCross` is a run of two such nodes
  that ends with all events stuck.
* **Upgradeable.** The lock-free read/write guard decides what an upgradeable request is
  when it is made, the classic guard when it is granted, and the classic one lets
  nobody join an upgradeable holder: its mode is then `Upgradeable`, although a comment says
  that it is only ever `Read` or `Write` (src/runtime/atomic/OFluxAtomic.h:287). So the two
  can answer differently, as on the history in `LockFreeReadWrite.UpgradeableDiffers`.
  `Upgradeables.AgreeExactly` says when they do: over every history all answers are the
  same if and only if no call splits the guards. A call splits them if it is a request that
  may read while the only holder is an upgradeable that reads in the lock-free guard and nobody
  waits, or a last release at which the runs of waiters that may read together differ;
  `Splits` tells from the fields of the two guards before the call. While the data stays
  null no call does (`AgreeOnNullData`).
* **Reading null data.** A comment promises of the lock-free guard that null data is not
  grabbed for reading (src/runtime/lockfree/atomic/OFluxLFAtomicReadWrite.h:252-255). It
  is if a writer clears the data while an upgradeable waits (`UpgradeableReadsNull`):
  `ReadsNullExactly` says that an upgradeable request gets null data to read if and only if
  there was data when it was made and is none when it is granted. The classic guard keeps
  the promise in another way (`ClassicAtomics.UpgradeableOnNullIsAlone`).
* **A full executor.** The test for room counts all reserved tickets, so when as many are
  out as there are slots and the holder of the next one has not passed the test, `_out`
  never moves again: `StuckExactlyWhenJammed`, `JamIsReachable`.
* **Queueing.** A comment says that released events are put on the queue as a priority
  (src/runtime/OFluxRunTime.cpp:600); they are queued behind the successors of the event that
  let them go (`SuccessorsQueueInOrder`).
* **Documentation.** The comment of the hash table leaves open what expecting
  `Whatever` does; in the code it matches everything. `Does_Not_Exist`, the null
  value, is the same word as `Whatever`, so it matches everything too; the expectation
  that a key is absent is the different word `Cas_Expect::Does_Not_Exist`.

## Model

| member | source | states |
|---|---|---|
| WorkStealingDeque.StepRefines | src/runtime/lockfree/OFluxWorkStealingDeque.h:113-182 | Every shared access of owner or thief keeps the invariant and is, on the abstraction, no step or one step of an atomic double-ended queue |
| WorkStealingDeque.RunConserves | src/runtime/lockfree/OFluxWorkStealingDeque.h:64-182 | For every interleaving and any number of grows: what pushBottom was called with is what was returned, what is in the window, and what the owner carries (the element of a push that goes on, or the one a pop has secured), as multisets |
| WorkStealingDeque.EveryCallAnswered | src/runtime/lockfree/OFluxWorkStealingDeque.h:113-182 | For every interleaving: the owner's calls, in order and with their arguments, are those that ended, by what they returned, and the one in progress; each steal has ended once or goes on |
| WorkStealingDeque.EachElementOnce | src/runtime/lockfree/OFluxWorkStealingDeque.h:113-182 | An element that pushBottom was called with once is in exactly one of: carried by the push, in the live window, pending with the owner, returned by one call |
| WorkStealingDeque.DequeConserves | src/runtime/lockfree/OFluxWorkStealingDeque.h:113-182 | The atomic deque that the protocol refines loses and duplicates nothing |
| WorkStealingDeque.PopCasStep | src/runtime/lockfree/OFluxWorkStealingDeque.h:174-176 | The race for the last element: the owner gets it exactly if `_top` has not moved |
| WorkStealingDeque.PopGetStep | src/runtime/lockfree/OFluxWorkStealingDeque.h:167-173 | With more than one element left the owner returns the bottom one without a race |
| WorkStealingDeque.StealWins | src/runtime/lockfree/OFluxWorkStealingDeque.h:134-149 | A thief whose CAS succeeds returns the element on top, though it read it, perhaps from an old array, before |
| WorkStealingDeque.StealLoses | src/runtime/lockfree/OFluxWorkStealingDeque.h:143-145 | A thief aborts only if some element was taken since its call began |
| WorkStealingDeque.OwnerAdvances | src/runtime/lockfree/OFluxWorkStealingDeque.h:113-182 | Each step of pushBottom or popBottom is nearer to its end, whatever thieves do, and the call ends with one outcome of its kind |
| WorkStealingDeque.ThiefAdvances | src/runtime/lockfree/OFluxWorkStealingDeque.h:132-150 | A steal ends within five of its own steps, with one outcome, and changes no other thread |
| WorkStealingDeque.NeverStuck | src/runtime/lockfree/OFluxWorkStealingDeque.h:113-182 | In every state of the invariant a thread within a call can take its next step, all indices being in range |
| WorkStealingDeque.GetAfterPut | src/runtime/lockfree/OFluxWorkStealingDeque.h:60-63 | Indices closer than the array's size do not share a slot |
| WorkStealingDeque.ArrayObject.Grow | src/runtime/lockfree/OFluxWorkStealingDeque.h:64-73 | The bigger array has twice the size and agrees with the old one on the live window |
| CircularBuffer.MutualExclusion | src/util/CircularBuffer.h:76-106 | For every interleaving at most one run2 is in progress |
| CircularBuffer.TicketOrder | src/util/CircularBuffer.h:76-106 | run2 calls are those of tickets 0, 1, 2 and so on, each once and on that ticket's item, each after its run1 |
| CircularBuffer.NothingStranded | src/util/CircularBuffer.h:79-105 | When no submit is in progress `_out` equals `_in`, each item has been run as often as it was submitted, in ticket order, and the buffer is empty |
| CircularBuffer.EverySubmitHasATicket | src/util/CircularBuffer.h:79-87 | For every interleaving each item has as many tickets as it was submitted, not counting submits that have not fetched theirs |
| CircularBuffer.HoldsItsItem | src/util/CircularBuffer.h:84-92 | The item on which a thread calls run1, and which it plants, is that of its own ticket |
| CircularBuffer.StepKeepsInv | src/util/CircularBuffer.h:79-106 | Every shared access keeps the invariant: tickets and the right to drain have one owner each, and a planted ticket at the out end has someone trying for it |
| CircularBuffer.SlotHoldsOutTicket | src/util/CircularBuffer.h:94-101 | What is in the slot of the ticket at the out end is that ticket's item |
| CircularBuffer.PreviousSlotFree | src/util/CircularBuffer.h:96 | The test of the slot before never turns a drainer away |
| CircularBuffer.DrainSlotReadsTrue | src/util/CircularBuffer.h:95 | The item that a drainer reads is that of its ticket as long as the ticket is next, and if it is next and planted the drainer goes on trying |
| CircularBuffer.DrainPrevReadsTrue | src/util/CircularBuffer.h:96 | So it does after looking at the slot before |
| CircularBuffer.OwnSlotFree | src/util/CircularBuffer.h:88-90 | No other ticket sits in the slot of a ticket for which there is room |
| CircularBuffer.PlantsWhenThereIsRoom | src/util/CircularBuffer.h:88-90 | With room for its ticket a planter that runs alone plants its own item in four accesses, and nothing else changes |
| CircularBuffer.StuckExactlyWhenJammed | src/util/CircularBuffer.h:88-105 | While the ticket at the out end is not planted, no continuation at all moves `_out` if and only if as many tickets are out as there are slots and its holder has not passed the test for room |
| CircularBuffer.JamStays | src/util/CircularBuffer.h:88-90 | No step of any thread, a new submit included, ends such a jam |
| CircularBuffer.JamIsReachable | src/util/CircularBuffer.h:83-90 | It comes to a jam if as many threads as there are slots reserve before the first plants |
| HazardPointers.HazardSafety | src/runtime/lockfree/allocator/OFluxSMR.h:104-118 | In every run, whatever other threads do, a slot each of whose loads was made by an owner with an index below num_threads protects its node: the node is neither with its allocator nor handed out again |
| HazardPointers.RetiredExactlyOnce | src/runtime/lockfree/allocator/OFluxSMR.h:71-80 | In every run a retired node is in its retirer's list, once and nowhere else, and outside a scan every list is shorter than the batch size |
| HazardPointers.StepKeepsInv | src/runtime/lockfree/allocator/OFluxSMR.cpp:54-86 | Every access, by users and by a scan that reads slots one by one, keeps the lists, the links and the progress of the scans consistent |
| HazardPointers.StepKeepsSlot | src/runtime/lockfree/allocator/OFluxSMR.cpp:62-83 | Every access by anyone keeps what a covered slot is worth: the node it protects is out of reach of every scan that has passed the slot |
| HazardPointers.SweepReclaims | src/runtime/lockfree/allocator/OFluxSMR.cpp:78-83 | Handing back a node takes just that node out of the list and keeps the invariant |
| HazardPointers.SweepEnds | src/runtime/lockfree/allocator/OFluxSMR.cpp:73-86 | A scan leaves at most SMR_N entries, fewer than SMR_R |
| HazardPointers.IndexOrderCovers | src/runtime/lockfree/OFluxThreadNumber.cpp:26-34 | If threads are counted in the order of their indices then every load of every slot is covered |
| HazardPointers.SafeExactlyIfCovered | src/runtime/lockfree/allocator/OFluxSMR.cpp:62-68 | For every load of a pointer in every reachable state: however the run goes on, the slot protects the node until it is loaded again, if and only if the index of its owner is below num_threads at the load |
| HazardPointers.CoveredIsSafe | src/runtime/lockfree/allocator/OFluxSMR.h:104-118 | The one half: a covered load is safe in every continuation |
| HazardPointers.UncoveredIsNotSafe | src/runtime/lockfree/allocator/OFluxSMR.cpp:54-86 | The other half: after any load that is not covered there is a continuation that hands the node back while the slot protects it |
| HazardPointers.UncoveredIsReclaimed | src/runtime/lockfree/allocator/OFluxSMR.cpp:57-86 | A scan of thread 0 hands back such a node wherever it is in the list |
| HazardPointers.EarlyThreadIsNotProtected | src/runtime/lockfree/OFluxLockfreeRunTimeThread.cpp:84-93 | Threads 0 and 2 counted before thread 1, a node linked by thread 0: the load by thread 2 is possible and not safe |
| SmrScan.PerThread.Scan | src/runtime/lockfree/allocator/OFluxSMR.cpp:54-86 | A scan keeps the hazardous entries in their order and hands back the others, each once, in order |
| SmrScan.PerThread.Compact | src/runtime/lockfree/allocator/OFluxSMR.cpp:72-85 | The same, done in place within the list |
| SmrScan.PerThread.DeferPut | src/runtime/lockfree/allocator/OFluxSMR.h:71-80 | The list gets the entry, is scanned when it is full, and is never full afterwards if the pointers are distinct |
| SmrScan.CollectHazards | src/runtime/lockfree/allocator/OFluxSMR.cpp:57-68 | The collected pointers are exactly those in the slots |
| SmrScan.BinarySearch | src/runtime/lockfree/allocator/OFluxSMR.cpp:32-52 | True exactly if the pointer is in the sorted list |
| SmrScan.NothingLostOrDoubled | src/runtime/lockfree/allocator/OFluxSMR.cpp:72-85 | Kept and reclaimed entries together are the entries there were, and each is kept exactly if it is hazardous |
| SmrScan.KeptFits | src/runtime/lockfree/allocator/OFluxSMR.h:49-53 | Of distinct pointers no more are kept than there are hazards |
| SmrScan.SetOfFits | src/runtime/lockfree/allocator/OFluxSMR.h:49-53 | There are no more hazards than slots |
| MemoryPool.EachBlockInOnePlace | src/runtime/lockfree/allocator/OFluxLFMemoryPool.h:52-288 | For every interleaving each issued block is in exactly one of its owner's free list, one mailbox, a chain being collected and a client's hands, and the pointers of lists and mailboxes lead through exactly those blocks |
| MemoryPool.GetIsExclusive | src/runtime/lockfree/allocator/OFluxLFMemoryPool.h:220-235 | get never returns a block in use, returns only blocks of its own thread or from the heap, and the block is then in no list |
| MemoryPool.ReturnedIsFree | src/runtime/lockfree/allocator/OFluxLFMemoryPool.h:121-138 | The block that a get returns was in nobody's hands and is in the caller's hands afterwards |
| MemoryPool.StepKeepsInv | src/runtime/lockfree/allocator/OFluxLFMemoryPool.h:52-288 | Every shared access of get, put, push, pull and collect keeps the invariant |
| MemoryPool.PushLinkStep | src/runtime/lockfree/allocator/OFluxLFMemoryPool.h:67 | Linking a block to the head of a mailbox disturbs no reader |
| MemoryPool.PushHeadStep | src/runtime/lockfree/allocator/OFluxLFMemoryPool.h:68 | A block is delivered, once, while its owner may be pulling |
| MemoryPool.PullCutStep | src/runtime/lockfree/allocator/OFluxLFMemoryPool.h:78-82 | The owner cuts the chain off behind the head block, while a sender may be pushing |
| MemoryPool.PullTailStep | src/runtime/lockfree/allocator/OFluxLFMemoryPool.h:83-85 | The head block becomes the tail of the mailbox, and the old tail ends the chain that was cut off |
| MemoryPool.SpliceStep | src/runtime/lockfree/allocator/OFluxLFMemoryPool.h:151-162 | The collected chain, whole, is put before the owner's free list |
| MemoryPool.GetFreeStep | src/runtime/lockfree/allocator/OFluxLFMemoryPool.h:125-129 | The head of the free list is nobody's block and leaves the list |
| MemoryPool.PutMailStep | src/runtime/lockfree/allocator/OFluxLFMemoryPool.h:251-254 | A put of another thread's block takes it from the client and puts it into no list until it is mailed; the invariant is kept |
| MemoryPool.PutOwnStep | src/runtime/lockfree/allocator/OFluxLFMemoryPool.h:247-249 | A put of the caller's own block takes it from the client and makes it the first of the caller's free list; the invariant is kept |
| MemoryPool.WalkIsList | src/runtime/lockfree/allocator/OFluxLFMemoryPool.h:52-90 | Following next pointers gives exactly the blocks of the list, so the chain has no cycle |
| MemoryPool.SendersLeaveTheTail | src/runtime/lockfree/allocator/OFluxLFMemoryPool.h:63-75 | In every run no mailbox is empty, so a sender never writes a tail |
| MemoryPool.WaitFree | src/runtime/lockfree/allocator/OFluxLFMemoryPool.h:220-288 | A thread within a call can always step, its steps use up a bound that depends on the number of threads only, and nobody else slows it down |
| PoolTraffic.HeldExactly | src/runtime/lockfree/allocator/OFluxLFMemoryPool.h:221-262 | Clients gain just what a get returns and lose just what they put |
| PoolTraffic.EveryGetReturnsOnce | src/runtime/lockfree/allocator/OFluxLFMemoryPool.h:221-236 | For every interleaving each get of each thread has returned one block or goes on |
| PoolTraffic.PutHeap | src/runtime/lockfree/allocator/OFluxLFMemoryPool.h:257-260 | A put of a heap block takes it from the client and changes nothing else |
| PoolTraffic.PutOwnIsFirst | src/runtime/lockfree/allocator/OFluxLFMemoryPool.h:247-249 | A block put by its owner is with no client and the first of the owner's free list |
| PoolTraffic.PutThenGet | src/runtime/lockfree/allocator/OFluxLFMemoryPool.h:240-249 | The next get of the owner returns that block, whatever other threads do meanwhile |
| PoolTraffic.PutBegins | src/runtime/lockfree/allocator/OFluxLFMemoryPool.h:250-254 | While a block is being mailed the putter is as far as its own steps say, whatever others do, and until it is delivered no list and no client has the block |
| PoolTraffic.PutDelivers | src/runtime/lockfree/allocator/OFluxLFMemoryPool.h:250-252 | The putter's third own step, whatever others do before it, brings the block to the front of the mailbox to its owner |
| PoolTraffic.PutNotifies | src/runtime/lockfree/allocator/OFluxLFMemoryPool.h:253-254 | Its fifth ends the call and takes down the flag that keeps the owner from collecting |
| PoolTraffic.GetFindsMail | src/runtime/lockfree/allocator/OFluxLFMemoryPool.h:221-288 | In every reachable state: a get that begins while a thread that counts has left mail and the flag is down ends with a block of the caller's own, never with heap memory, whatever all threads do |
| PoolTraffic.MailComesHome | src/runtime/lockfree/allocator/OFluxLFMemoryPool.h:221-288 | A put to another thread that ends before the owner looks makes the owner's next get do so |
| PoolTraffic.CollectsArePaidFor | src/runtime/lockfree/allocator/OFluxLFMemoryPool.h:253-288 | For every interleaving a thread goes through its mailboxes at most once more than puts have told it of mail |
| PoolTraffic.CountGrowsAlong | src/runtime/lockfree/allocator/OFluxLFMemoryPool.h:278 | The mailboxes that a collect visits are those of the threads that have counted themselves in |
| ClassicAtomics.ReadWriteGuarantees | src/runtime/atomic/OFluxAtomic.h:205-288 | For every history: granted followed by waiting is requested, a free atomic has no waiters, a writer is alone, and with several holders the mode is Read and all hold it to read or as upgradeables |
| ClassicAtomics.ExclusiveGuarantees | src/runtime/atomic/OFluxAtomic.h:174-203 | For every history: granted followed by waiting is requested, there is at most one holder, and waiters only while there is one |
| ClassicAtomics.HistoryIsRecorded | src/runtime/atomic/OFluxAtomic.h:174-288 | Requests, releases and changes of the data keep the record of grants in step with the atomic |
| ClassicAtomics.RecordedIsCalled | src/runtime/atomic/OFluxAtomic.h:213-283 | For every history the requests on record are those made, in order, and whoever was granted the atomic holds it or has released it, once for each grant |
| ClassicAtomics.UpgradeableOnNullIsAlone | src/runtime/atomic/OFluxAtomic.h:256-262 | An upgradeable that is granted while the data is null is the only holder |
| ClassicAtomics.AloneUntilDone | src/runtime/atomic/OFluxAtomic.h:263-268 | Nobody joins a holder that is not in Read mode, until it releases |
| ClassicAtomics.HandoffIsMaximal | src/runtime/atomic/OFluxAtomic.h:220-242 | The last release lets the longest prefix of waiters go that may share, in order, and the first one left may not |
| ClassicAtomics.ReleaseCounts | src/runtime/atomic/OFluxAtomic.h:213-247 | A release frees one place and fills one for each waiter that it lets go |
| ClassicAtomics.AtomicExclusive.AcquireOrWait | src/runtime/atomic/OFluxAtomic.h:191-200 | The method does what the function of the histories does |
| ClassicAtomics.AtomicExclusive.ReleaseTo | src/runtime/atomic/OFluxAtomic.h:181-190 | The same, and the released events are appended in order |
| ClassicAtomics.AtomicReadWrite.AcquireOrWait | src/runtime/atomic/OFluxAtomic.h:248-283 | The method does what the function of the histories does |
| ClassicAtomics.AtomicReadWrite.ReleaseTo | src/runtime/atomic/OFluxAtomic.h:213-247 | The same, and the released events are appended in order |
| ClassicAtomics.AtomicReadWrite.ReleaseReaders | src/runtime/atomic/OFluxAtomic.h:233-240 | The batch loop lets go exactly the leading waiters that may share |
| ClassicAtomics.RunExclusive | src/runtime/atomic/OFluxAtomic.h:174-203 | Run over any history, the class answers and counts as the histories say |
| ClassicAtomics.RunReadWrite | src/runtime/atomic/OFluxAtomic.h:205-288 | Run over any history, the class answers and counts as the histories say |
| GuardKernel.StepKeepsGood | src/runtime/OFluxRunTime.cpp:559-613 | Creating, taking and handling an event keep the invariant of the whole system |
| GuardKernel.RunKeepsGood | src/runtime/OFluxRunTime.cpp:559-613 | So does every run |
| GuardKernel.HandleStep | src/runtime/OFluxRunTime.cpp:587-612 | handle ends exactly the event that ran, adds one event for each successor, and leaves the other threads alone |
| GuardKernel.AcquireKeepsInv | src/runtime/atomic/OFluxAtomicHolder.cpp:197-288 | acquire_all_or_wait takes the event out of the hand, to be queued or to wait, and touches no other event |
| GuardKernel.ReleaseKeepsInv | src/runtime/atomic/OFluxAtomicHolder.cpp:292-452 | After release the event points to nothing, and only events it let go have changed |
| GuardKernel.FindSlot | src/runtime/atomic/OFluxAtomicHolder.cpp:385-420 | The slot found is the first, from the one worked on, that points to the released atomic |
| GuardKernel.HandOffFinds | src/runtime/atomic/OFluxAtomicHolder.cpp:385-423 | The search always finds the slot that the waiter is blocked on, so its assertion holds |
| GuardKernel.PointerIsInUse | src/runtime/atomic/OFluxAtomicHolder.h:142-154 | A pointer to an atomic of a collectable guard is held or waited through |
| GuardKernel.CollectKeepsInv | src/runtime/atomic/OFluxAtomicHolder.cpp:426-430 | Collecting an atomic that nobody holds or waits for keeps the invariant |
| GuardKernel.ReacquireKeepsInv | src/runtime/OFluxRunTime.cpp:603-608 | Every event that a release let go is queued or waits for its next guard; none stays in hand |
| GuardKernel.CreateKeepsInv | src/runtime/event/OFluxEventOperations.cpp:87-101 | A new event acquires at once and is queued or waits |
| GuardTheorems.EachEventInOnePlace | src/runtime/OFluxRunTime.cpp:559-613 | Between steps every live event is in exactly one of the run queue, one wait list and one thread's hands, once, and nothing else is there |
| GuardTheorems.EventsEndOnlyByRunning | src/runtime/OFluxRunTime.cpp:559-613 | An event ends only by being handled by the thread that runs it |
| GuardTheorems.RunQueueIsFifo | src/runtime/OFluxRunTime.cpp:610 | Threads take the front of the run queue, and events are queued only behind it |
| GuardTheorems.RunnableHoldsItsGuards | src/runtime/atomic/OFluxAtomicHolder.cpp:197-288 | A queued or running event holds every guard that it did not skip, and skipped only those whose guard function said so |
| GuardTheorems.GuardsCountTheirHolders | src/runtime/atomic/OFluxAtomicHolder.cpp:365-430 | An atomic's count is the number of slots that hold it, across all handoffs; an exclusive one has at most one |
| GuardTheorems.HeldBeforeAwaited | src/runtime/atomic/OFluxAtomicHolder.cpp:156-290 | Whatever a waiting event holds, its node refers to before what it waits for |
| GuardTheorems.DeadlockFree | src/runtime/atomic/OFluxAtomicHolder.cpp:156-290 | If the references of the nodes that occur contain no cycle, no reachable state has events but none that is queued or running |
| GuardTheorems.SortedNeverDeadlocks | src/runtime/flow/OFluxFlowNode.cpp:248-266 | If the nodes refer to their guards in the order of distinct magic numbers, whatever the keys, no reachable state has events but none that is queued or running |
| GuardTheorems.Drains | src/runtime/OFluxRunTime.cpp:559-613 | From every good state the events can be run to the end, each of them |
| GuardTheorems.AllEventsCanFinish | src/runtime/OFluxRunTime.cpp:559-613 | From every reachable state there is a continuation after which no event is left, no guard is held and nobody waits |
| GuardTheorems.DistinctMagicAscends | src/runtime/flow/OFluxFlowNode.cpp:248-266 | References to guards with ascending distinct numbers ascend whatever the keys are |
| GuardTheorems.OneModeAscends | src/runtime/atomic/OFluxAtomicHolder.h:81-98 | So do sorted references with known, different keys if a node uses one mode for each guard |
| GuardTheorems.CompareOrders | src/runtime/atomic/OFluxAtomicHolder.h:81-98 | The comparison of references, with late ones or ignoring them, is an order to sort by |
| GuardTheorems.LatesComeLast | src/runtime/atomic/OFluxAtomicHolder.h:89-97 | Once sorted, the late and collectable references to one guard in one mode are behind the others, and these are in the order of their keys |
| GuardKeys.RunnableHasItsKeys | src/runtime/atomic/OFluxAtomicHolder.h:142-154 | A queued or running event has each guard by the key that was due: a late or collectable one by the answer of its turn, any other by the first answer, and none exactly where there was no answer |
| GuardKeys.WaiterWaitsForItsKey | src/runtime/atomic/OFluxAtomicHolder.cpp:197-288 | An event that waits does so for the due key of its next guard, and has all those before |
| GuardKeys.SuccessorsAreFor | src/runtime/event/OFluxEventOperations.cpp:61-131 | The i-th event that handle makes refers to the guards of the i-th successor in its node's order; all other events keep their references, atoms and holds |
| GuardKeys.InjectedIsFor | src/runtime/event/OFluxEventOperations.cpp:133-140 | A source or initial event refers to the guards of its node, and other events keep what they have |
| GuardKeys.EarlierSuccessorWins | src/runtime/OFluxRunTime.cpp:587-598 | Of the successors that need one free exclusive guard first, the earliest holds it afterwards and the later ones wait for it |
| GuardKeys.SuccessorsQueueInOrder | src/runtime/OFluxRunTime.cpp:587-612 | Successors that have all their guards are queued in the order of their creation, and the events that the release let go on behind them, in the order they were let go |
| GuardAtoms.ReleasesInReverse | src/runtime/atomic/OFluxAtomicHolder.cpp:292-452 | A release lets the waiters of the last guard go first, then those of the one before, and so on |
| GuardAtoms.ResumedInReverse | src/runtime/OFluxRunTime.cpp:600-612 | So the events that handle lets go on are queued in that order, behind the successors |
| GuardAtoms.DataIsWhatWasAssigned | src/runtime/atomic/OFluxAtomicHolder.cpp:292-452 | In every run the data of a guard is what a holder assigned last, and null if nobody did, with collection or without |
| GuardAtoms.NothingLeaks | src/runtime/atomic/OFluxAtomicHolder.cpp:426-430 | In every run an atom of a collectable guard that has no data is in its map only while some event holds it |
| GuardTheorems.AscendingIsAcyclic | src/runtime/flow/OFluxFlowNode.cpp:248-266 | If the references of every node ascend, by guard number and then by key, they contain no cycle |
| GuardTheorems.AllWaitIsCycle | src/runtime/atomic/OFluxAtomicHolder.cpp:156-290 | If all events wait, the references of their nodes contain a cycle of atomics |
| GuardDeadlock.PairsDeadlockExactlyOnCycles | src/runtime/atomic/OFluxAtomicHolder.cpp:156-290 | For nodes with two exclusive references each: no run from any initial state ends with all events stuck if and only if the references contain no cycle |
| GuardDeadlock.CircleDeadlocks | src/runtime/atomic/OFluxAtomicHolder.cpp:292-452 | For a circle of any length there is, from every initial state, a run of these nodes after which every event waits for ever |
| GuardDeadlock.OppositeOrdersDeadlock | src/runtime/atomic/OFluxAtomicHolder.cpp:156-452 | Two nodes that take any two exclusive atomics in opposite orders have such a run |
| GuardDeadlock.TwoModesCross | src/runtime/atomic/OFluxAtomicHolder.h:91-97 | Two nodes that use one read/write guard in two modes, both sorted by the source's comparison, have such a run from every initial state |
| GuardDeadlock.InjectPair | src/runtime/event/OFluxEventOperations.cpp:87-101 | A new event with two references gets the first if it can, then the second if it can, and otherwise waits for what it did not get; nothing else changes |
| GuardDeadlock.CloseCircle | src/runtime/OFluxRunTime.cpp:599-612 | The two events that a release hands one atomic each, and that want each other's, both wait, and nothing is left that can move |
| GuardDeadlock.SameAtomicTwiceDeadlocks | src/runtime/atomic/OFluxAtomicHolder.cpp:197-265 | An event that refers to one exclusive atomic twice waits for itself |
| GuardTheorems.BuildEarlyBuilds | src/runtime/atomic/OFluxAtomicHolder.cpp:135-154 | Building the early guards of an event changes no atomic and only that event |
| GuardCollection.CollectionUnobservable | src/runtime/atomic/OFluxAtomicHolder.cpp:426-430 | With and without collection the same schedules are possible and lead to the same events, places, holders, waiters and data for every key |
| GuardCollection.NoDanglingPointer | src/runtime/flow/OFluxFlowGuard.h:201 | What an event points to is in the map, and if it may be collected the event holds it or waits for it |
| GuardCollection.CollectedView | src/runtime/atomic/OFluxAtomic.h:588-630 | An atomic that is looked up again after collection is as it was |
| GuardModes.WriterIsAlone | src/runtime/atomic/OFluxAtomic.h:205-288 | In every reachable state two holders of a read/write atomic both hold it to read or as upgradeables |
| GuardModes.ExclusiveIsAlone | src/runtime/atomic/OFluxAtomic.h:174-203 | In every reachable state an exclusive atomic has one holder |
| GuardModes.RunKeepsModes | src/runtime/atomic/OFluxAtomicHolder.cpp:292-452 | Every run keeps each atomic's mode in step with the requests of its holders and waiters |
| GuardRuntime.RunTime.GetAtom | src/runtime/atomic/OFluxAtomic.h:588-603 | Afterwards the name is in the map, with the atomic that was there or an unused one, and no other name is added or changed |
| GuardRuntime.RunTime.Build | src/runtime/atomic/OFluxAtomicHolder.h:142-154 | Only a slot without an atomic is built: at its turn with the answer of its turn, before that with the first answer and only if it is neither late nor collectable |
| GuardRuntime.RunTime.GetKeysSort | src/runtime/atomic/OFluxAtomicHolder.cpp:135-154 | The loop builds what the kernel's function builds |
| GuardRuntime.RunTime.AcquireTurn | src/runtime/atomic/OFluxAtomicHolder.cpp:197-266 | One turn of the loop is one step of the kernel's function, and says whether the loop goes on |
| GuardRuntime.RunTime.AcquireAllOrWait | src/runtime/atomic/OFluxAtomicHolder.cpp:156-290 | The loop, resumed where it stopped, is the kernel's acquisition; it returns true exactly if the event is ready |
| GuardRuntime.RunTime.HandOffAll | src/runtime/atomic/OFluxAtomicHolder.cpp:366-424 | Every waiter that was let go has the guard, through the slot it waited in |
| GuardRuntime.RunTime.ReleaseTurn | src/runtime/atomic/OFluxAtomicHolder.cpp:327-447 | One turn of the release loop, with handoff and collection, is one step of the kernel's function |
| GuardRuntime.RunTime.ReleaseAll | src/runtime/atomic/OFluxAtomicHolder.cpp:292-452 | Releasing in reverse order is the kernel's release |
| GuardRuntime.RunTime.CreateEvent | src/runtime/event/OFluxEventOperations.cpp:87-101 | Creating an event is the kernel's creation |
| GuardRuntime.RunTime.CreateSuccessors | src/runtime/event/OFluxEventOperations.cpp:61-131 | The successors are created one after the other, and the new events are for them in that order |
| GuardRuntime.RunTime.ReacquireReleased | src/runtime/OFluxRunTime.cpp:603-608 | The released events acquire the rest of what they need, in order |
| GuardRuntime.RunTime.HandleEvent | src/runtime/OFluxRunTime.cpp:559-613 | The imperative handle is the kernel's step and keeps its invariant |
| GuardRuntime.RunTime.Enqueue | src/runtime/OFluxRunTime.cpp:610 | The ready events, in order, are the new end of the run queue and are marked as queued; no other event changes |
| GuardRuntime.RunTime.InjectEvent | src/runtime/event/OFluxEventOperations.cpp:133-140 | Queueing a source or initial event is a step of the kernel |
| GuardRuntime.RunTime.TakeEvent | src/runtime/OFluxRunTime.cpp:497-499 | Taking an event is a step of the kernel |
| GuardRuntime.SortGuards | src/runtime/flow/OFluxFlowNode.cpp:248-266 | The references are permuted into the order of their guards' numbers; the flag is set exactly if no two numbers are equal, and then they ascend |
| GuardRuntime.PlacedByMagic | src/runtime/flow/OFluxFlowNode.cpp:240-254 | Putting a reference behind those with no greater number keeps the order and the references |
| LockFreeExclusive.ExclusiveWaiterList.Push | src/runtime/lockfree/atomic/OFluxLFAtomic.cpp:111-207 | On a free list the guard is acquired, otherwise the event becomes the last waiter; the list stays well formed |
| LockFreeExclusive.ExclusiveWaiterList.Pop | src/runtime/lockfree/atomic/OFluxLFAtomic.cpp:209-294 | The first waiter's holder comes off with its event, and without waiters the guard is free |
| LockFreeExclusive.ExclusiveWaiterList.Count | src/runtime/lockfree/atomic/OFluxLFAtomic.h:216-225 | Walking the list counts the waiters |
| LockFreeExclusive.AtomicExclusive.AcquireOrWait | src/runtime/lockfree/atomic/OFluxLFAtomic.h:306-317 | As the classic guard |
| LockFreeExclusive.AtomicExclusive.ReleaseTo | src/runtime/lockfree/atomic/OFluxLFAtomic.h:295-305 | As the classic guard |
| LockFreeExclusive.AtomicExclusive.Held | src/runtime/lockfree/atomic/OFluxLFAtomic.h:289 | True exactly if the classic guard is held |
| LockFreeExclusive.RunLockFree | src/runtime/lockfree/atomic/OFluxLFAtomic.h:283-325 | Over every history the lock-free guard gives the answers of the classic histories |
| LockFreeExclusive.Lockstep | src/runtime/lockfree/atomic/OFluxLFAtomic.cpp:111-294 | Both guards give the answers and the released events in order that the histories say, and agree on being held |
| LockFreeReadWrite.ReadWriteWaiterList.Push | src/runtime/lockfree/atomic/OFluxLFAtomicReadWrite.cpp:65-220 | The list acquires or waits exactly as the classic guard does; called alone it never has to try again |
| LockFreeReadWrite.ReadWriteWaiterList.Pop | src/runtime/lockfree/atomic/OFluxLFAtomicReadWrite.cpp:239-410 | The list releases as the classic guard does, and what comes off is the chain of the holders let go |
| LockFreeReadWrite.ReadWriteWaiterList.PopEvents | src/runtime/lockfree/atomic/OFluxLFAtomicReadWrite.h:285-320 | The events let go are those of the classic guard, in order, and the mode stays in step with the list |
| LockFreeReadWrite.ReadWriteWaiterList.PopWaiters | src/runtime/lockfree/atomic/OFluxLFAtomicReadWrite.cpp:319-388 | The first waiter goes on, and with a reader all the readers right behind it; the count in the tail is theirs |
| LockFreeReadWrite.ReadWriteWaiterList.LastReader | src/runtime/lockfree/atomic/OFluxLFAtomicReadWrite.cpp:330-341 | The loop finds the last of the readers in front, and how many there are |
| LockFreeReadWrite.ReadWriteWaiterList.CutBehind | src/runtime/lockfree/atomic/OFluxLFAtomicReadWrite.cpp:358-388 | The list is cut in two, the front being a chain that ends in the sentinel and the rest a well-formed list |
| LockFreeReadWrite.ReadWriteWaiterList.Commit | src/runtime/lockfree/atomic/OFluxLFAtomicReadWrite.cpp:362-377 | The retry loop ends with the new count in the tail even if the word was read before it changed |
| LockFreeReadWrite.ReadWriteWaiterList.CountWaiters | src/runtime/lockfree/atomic/OFluxLFAtomicReadWrite.cpp:434-444 | Walking the list counts the waiters |
| LockFreeReadWrite.AtomicReadWrite.AcquireOrWait | src/runtime/lockfree/atomic/OFluxLFAtomicReadWrite.h:246-284 | As the classic guard, for the mode that the request is resolved to |
| LockFreeReadWrite.AtomicReadWrite.ReleaseTo | src/runtime/lockfree/atomic/OFluxLFAtomicReadWrite.h:285-320 | As the classic guard |
| LockFreeReadWrite.AtomicReadWrite.Held | src/runtime/lockfree/atomic/OFluxLFAtomicReadWrite.h:232-236 | The held count is the classic one |
| LockFreeReadWrite.ReleaseIgnoresData | src/runtime/atomic/OFluxAtomic.h:213-247 | Without upgradeable waiters the classic release does not depend on the data |
| LockFreeReadWrite.RunLockFree | src/runtime/lockfree/atomic/OFluxLFAtomicReadWrite.h:225-326 | Over every history, upgradeable requests included, the lock-free guard answers and counts as the classic histories say for the requests resolved from the data at the time they are made |
| LockFreeReadWrite.Lockstep | src/runtime/lockfree/atomic/OFluxLFAtomicReadWrite.cpp:65-410 | On Read and Write requests both guards give the answers, the released events in order and the held count that the histories say |
| LockFreeReadWrite.UpgradeableDiffers | src/runtime/lockfree/atomic/OFluxLFAtomicReadWrite.h:251-262 | A history with an upgradeable whose classic answers and whose answers after resolution at the request differ |
| LockFreeReadWrite.OwnResolution | src/runtime/lockfree/atomic/OFluxLFAtomicReadWrite.h:256-261 | A history without upgradeables is what its requests resolve to |
| Upgradeables.AgreeExactly | src/runtime/lockfree/atomic/OFluxLFAtomicReadWrite.h:246-326 | Over every history the lock-free guard gives the answers of the classic one if and only if no call splits the two, told from their fields before each call; then they end with the same holders, data and waiting events |
| Upgradeables.CallSplitsExactly | src/runtime/atomic/OFluxAtomic.h:213-283 | Of two guards that agree so far: the next call is answered alike if and only if it does not split them, and then they still agree |
| Upgradeables.LetGoSplitsExactly | src/runtime/atomic/OFluxAtomic.h:220-242 | A release lets as many go in both guards if and only if it is not a last release that meets an upgradeable that reads here and may not read there |
| Upgradeables.LockstepExactly | src/runtime/lockfree/atomic/OFluxLFAtomicReadWrite.h:246-326 | Both classes, run over the same history with upgradeables, answer alike if and only if no call splits them, and then hold alike |
| Upgradeables.AgreeOnNullData | src/runtime/lockfree/atomic/OFluxLFAtomicReadWrite.h:256-261 | Over every history in which the data stays null both guards give the same answers |
| Upgradeables.ReadsNullExactly | src/runtime/lockfree/atomic/OFluxLFAtomicReadWrite.h:252-261 | The request that call i makes and call k grants leaves the guard in Read mode on null data if and only if there was data before call i and is none before call k |
| Upgradeables.UpgradeableReadsNull | src/runtime/lockfree/atomic/OFluxLFAtomicReadWrite.h:255-261 | A run in which an upgradeable holds the guard to read null data |
| GrowableArray.FoundElsewhere | src/runtime/lockfree/atomic/OFluxGrowableCircularArray.h:98-132 | Writing one entry, in whatever array, changes only what is found there |
| GrowableArray.GrownHolds | src/runtime/lockfree/atomic/OFluxGrowableCircularArray.h:79-90 | Growing changes no item found, and makes room |
| GrowableArray.TouchedHolds | src/runtime/lockfree/atomic/OFluxGrowableCircularArray.h:107-126 | Replacing a sentinel changes no item found, and leaves an empty entry for the next push |
| GrowableArray.FilledHolds | src/runtime/lockfree/atomic/OFluxGrowableCircularArray.h:183-201 | A push appends one item to what is found |
| GrowableArray.ClearedHolds | src/runtime/lockfree/atomic/OFluxGrowableCircularArray.h:202-220 | A pop finds the oldest item, in whatever array it is, and removes just that |
| GrowableArray.Implementation.Find | src/runtime/lockfree/atomic/OFluxGrowableCircularArray.h:98-132 | The recursion through the older arrays finds the entry behind the sentinels |
| GrowableArray.Implementation.Get | src/runtime/lockfree/atomic/OFluxGrowableCircularArray.h:98-132 | With update the sentinel gives way to the item of that index, or to an empty entry if the older array has none |
| GrowableArray.CircularArray.Locate | src/runtime/lockfree/atomic/OFluxGrowableCircularArray.h:189-194 | The walk stops at the first array without a sentinel at the index |
| GrowableArray.CircularArray.CasFromNull | src/runtime/lockfree/atomic/OFluxGrowableCircularArray.h:183-201 | True exactly if the entry was empty, which is then filled |
| GrowableArray.CircularArray.CasToNull | src/runtime/lockfree/atomic/OFluxGrowableCircularArray.h:202-220 | True exactly if the entry held the item, which is then empty |
| GrowableArray.CircularArray.Grow | src/runtime/lockfree/atomic/OFluxGrowableCircularArray.h:227-239 | A new array of sentinels, twice as long, before the others |
| GrowableArray.LFArrayQueue.Push | src/runtime/lockfree/atomic/OFluxGrowableCircularArray.h:299-321 | The item goes to the end of the queue, whether the array grows or not, and the assertion holds |
| GrowableArray.LFArrayQueue.Pop | src/runtime/lockfree/atomic/OFluxGrowableCircularArray.h:267-294 | The oldest item is returned and removed, or none if the queue is empty, and the assertion holds |
| GrowableArray.LFArrayQueue.Size | src/runtime/lockfree/atomic/OFluxGrowableCircularArray.h:322-325 | The size is the number of items |
| Pools.PoolGuarantees | src/runtime/atomic/OFluxAtomic.cpp:118-223 | Over every history of a pool that starts with given resources these are neither lost nor doubled, go out in the order of the requests, and are never free while somebody waits |
| Pools.ResourcesInTurn | src/runtime/atomic/OFluxAtomic.cpp:118-223 | For every history the requests on record are those made, in order, and free resources are taken in the order in which they were put in and came back |
| Pools.RunClassicPool | src/runtime/atomic/OFluxAtomic.cpp:118-223 | Run over any history, the classic pool answers as the histories say: who gets which resource, who is woken, how many wait |
| Pools.RunLockFreePool | src/runtime/lockfree/atomic/OFluxLFAtomicPooled.h:59-186 | So does the lock-free pool |
| Pools.Lockstep | src/runtime/lockfree/atomic/OFluxLFAtomicPooled.h:59-186 | The same resources and calls give both pools the same answers, those of the histories |
| Pools.AcquireGood | src/runtime/atomic/OFluxAtomic.h:407-416 | A request keeps these guarantees |
| Pools.ReleaseGood | src/runtime/atomic/OFluxAtomic.cpp:202-223 | A release keeps these guarantees |
| Pools.ClassicPool.AcquireOrWait | src/runtime/atomic/OFluxAtomic.h:407-416 | The event gets the oldest free resource, or is the last to wait |
| Pools.ClassicPool.ReleaseFrom | src/runtime/atomic/OFluxAtomic.cpp:202-223 | The resource goes to the first waiter, or is free; no other event's data changes |
| Pools.PoolEventList.AcquireOrWait | src/runtime/lockfree/atomic/OFluxLFAtomicPooled.h:59-121 | The lock-free pool does the same, through its growing arrays |
| Pools.PoolEventList.ReleaseFrom | src/runtime/lockfree/atomic/OFluxLFAtomicPooled.h:122-184 | The lock-free pool does the same, through its growing arrays |
| Pools.PoolEventList.WaiterCount | src/runtime/lockfree/atomic/OFluxLFAtomicPooled.h:185-186 | The difference of the indices is the number of waiters |
| Pools.FreeList.Get | src/runtime/atomic/OFluxAtomic.cpp:153-173 | A node comes off the front of the list, or is new |
| Pools.FreeList.Put | src/runtime/atomic/OFluxAtomic.cpp:175-189 | A node goes to the front unless it is in the list already, which the test tells exactly |
| HashTable.HashTable.Get | src/runtime/lockfree/atomic/OFluxLFHashTable.h:247-278 | The answer is the map's, however far the copies have got |
| HashTable.HashTable.CompareAndSwap | src/runtime/lockfree/atomic/OFluxLFHashTable.h:804-841 | The map's datum of the key is returned, and replaced exactly if it meets the expectation; no other key changes |
| HashTable.HashTable.Remove | src/runtime/lockfree/atomic/OFluxLFHashTable.h:777-796 | The key's datum is returned and gone; no other key changes |
| HashTable.HashTable.SwapLoop | src/runtime/lockfree/atomic/OFluxLFHashTable.h:828-840 | Going from table to table ends, in a table that answers for the whole map |
| HashTable.HashTable.CasIn | src/runtime/lockfree/atomic/OFluxLFHashTable.h:324-414 | One table either answers for the map and swaps, or says Copied, keeps the map, and has a next table; a new table is made only where there was no room |
| HashTable.HashTable.StartCopy | src/runtime/lockfree/atomic/OFluxLFHashTable.h:484-507 | A new, empty last table leaves the map as it was |
| HashTable.HashTable.CopyEntry | src/runtime/lockfree/atomic/OFluxLFHashTable.h:511-582 | Moving one entry leaves the map as it was, and the entry is moved for good; the answer says whether this call did it |
| HashTable.HashTable.MoveInto | src/runtime/lockfree/atomic/OFluxLFHashTable.h:542-573 | The datum arrives in the tables behind, in the first that has room for its key, and nothing else changes there |
| HashTable.HashTable.HelpCopy | src/runtime/lockfree/atomic/OFluxLFHashTable.h:586-613 | Helping leaves the map as it was, and answers true exactly if all entries have moved |
| HashTable.HashTable.CompleteCopy | src/runtime/lockfree/atomic/OFluxLFHashTable.h:659-660 | Helping again and again ends, with all entries moved |
| HashTable.HashTable.Unlink | src/runtime/lockfree/atomic/OFluxLFHashTable.h:811-825 | A table all of whose entries have moved is unlinked, and the map stays as it was |
| HashTable.HashTable.LookUp | src/runtime/lockfree/atomic/OFluxLFHashTable.h:422-453 | The probe loop stops at the first entry of the key's path that is the key's or empty, and fails only if there is none |
| HashTable.HashTable.LookInBucket | src/runtime/lockfree/atomic/OFluxLFHashTable.h:427-445 | The inner loop does so within one bucket, starting in its middle |
| HashTable.UnlinkKeepsVals | src/runtime/lockfree/atomic/OFluxLFHashTable.h:811-825 | A table without entries that are still to move contributes nothing to the map |
| HashTable.CountedAllDone | src/runtime/lockfree/atomic/OFluxLFHashTable.h:608-612 | All entries have moved exactly if as many as the table has are counted as moved |
| HashTable.SwapMeans | src/runtime/lockfree/atomic/OFluxLFHashTable.h:381-400 | The comparison of words, with its three special expectations and tombstones, is the comparison of what the key is mapped to |
| HashTable.HeadMoved | src/runtime/lockfree/atomic/OFluxLFHashTable.h:567-579 | Marking an entry as copied, once its datum is behind, leaves the map as it was |
| HashTable.PutHere | src/runtime/lockfree/atomic/OFluxLFHashTable.h:395-400 | Writing a value where the search has ended changes this key only |
| HashTable.SkipPassed | src/runtime/lockfree/atomic/OFluxLFHashTable.h:828-837 | Tables that answered Copied do not matter for the key |
| HashTable.StopsHere | src/runtime/lockfree/atomic/OFluxLFHashTable.h:257-277 | Where a search ends with an answer, no later table has the key |
| HashTable.CallOne | src/runtime/lockfree/atomic/OFluxLFHashTable.h:760-841 | Each call answers as the finite map does and leaves the table standing for the changed map |
| HashTable.RunCalls | src/runtime/lockfree/atomic/OFluxLFHashTable.h:729-841 | For every sequence of calls and every hash function the table answers as a finite map |
| MagicSorter.MagicSorter.NumberAll | src/runtime/OFluxOrderable.cpp:42-90 | It ends; the assertion holds exactly if the inequalities are acyclic, and then every name has its own positive number with before less than after |
| MagicSorter.NumberGuards | src/runtime/OFluxOrderable.cpp:25-29 | So for the numbers of any inequalities and names that are declared one after the other |
| MagicSorter.MagicSorter.Pass | src/runtime/OFluxOrderable.cpp:66-80 | A pass, in any order of the names, numbers a name or leaves all numbers; then every name left waits for one without a number |
| MagicSorter.MagicSorter.Gather | src/runtime/OFluxOrderable.cpp:47-62 | Each name is mapped to exactly the names that come before it |
| MagicSorter.MagicSorter.AllAssigned | src/runtime/OFluxOrderable.cpp:31-40 | True exactly if all names of the set have numbers |
| MagicSorter.MagicSorter.NumberPoints | src/runtime/OFluxOrderable.cpp:82-89 | The names without inequalities get new numbers, and no number changes |
| Cycles.StuckHasCycle | src/runtime/OFluxOrderable.cpp:66-81 | If every name left waits for a name left, the inequalities have a cycle |
| Cycles.BackwardWalk | src/runtime/OFluxOrderable.cpp:66-81 | Then there is a walk of any length among the names left |
| MagicSorter.NobodyLeftIsCycle | src/runtime/OFluxOrderable.cpp:66-81 | A pass without change that leaves names means a cycle |
| MagicSorter.NumberedIsAcyclic | src/runtime/OFluxOrderable.cpp:42-81 | Numbers that respect the inequalities rule out a cycle |
| RemovableList.LinkedListRemovable.InsertFront | src/runtime/OFluxLinkedList.h:241-255 | The list is the node followed by the old list, with all links, back links and the tail location right |
| RemovableList.LinkedListRemovable.InsertBack | src/runtime/OFluxLinkedList.h:269-279 | The list is the old list followed by the node |
| RemovableList.LinkedListRemovable.Unlink | src/runtime/OFluxLinkedList.h:124-137 | What pointed to the node points past it, and every other link stays right |
| RemovableList.LinkedListRemovable.Remove | src/runtime/OFluxLinkedList.h:293-306 | True exactly for members; the node is gone and loose, the order of the others stays, and a list that becomes empty is as new |
| RemovableList.Threads.Add | src/runtime/OFluxRunTime.cpp:350-352 | The count stays the length of the list |
| RemovableList.Threads.Remove | src/runtime/OFluxRunTime.cpp:250-256 | The count stays the length of the list, even when a thread is removed twice |

## Left out

- HazardPointers.HazardSafety: speaks of slots whose loads were covered; SafeExactlyIfCovered says that this is exact for each load.
- GuardTheorems.DeadlockFree: requires that the references contain no cycle. That is exact for nodes with two exclusive references (GuardDeadlock); for other nodes a cycle is not claimed to lead to a deadlock.
- LockFreeReadWrite.Lockstep: leaves out upgradeable requests, on which the two guards can differ; Upgradeables.LockstepExactly has them, with the exact condition.
- LockFreeReadWrite.ReadWriteWaiterList.Pop: requires what the source asserts, that the mode of the releasing holder is the mode in the tail; AtomicReadWrite establishes it.
- PoolTraffic.GetFindsMail: requires that the flag is down. The end of a collection puts it up even if mail has come meanwhile; that mail waits for the next put to the same owner.
- Weak memory and barriers: every state machine assumes sequential consistency.
- Machine words: indices, epochs and counters are unbounded, so wrap-around, the packing of two 32-bit fields into one word, and shifts by more than the width are not modelled.
- The waiter lists, the growable array, the pools and the hash table are modelled one call at a time; interleaved calls are not claimed. A popped holder's next is null until it is marked, so a stale tail might still accept a compare-and-swap.
- The retry loops and busy waits of these structures: called alone they do not repeat, and the proofs say so.
- Hash table: count (it does not advance in the source), enumerators apart from their copy loop, destructors, remove_key (it cannot be reached), reference counts, density statistics, and entries left half moved by another thread. The chain of tables is a sequence, not linked objects.
- Allocation: holders of waiter lists are new objects instead of coming from a pool; running out of memory is not modelled.
- Decisions of user code (successors, keys, skipped guards, data, return codes) are parameters of the steps, and so is the rule that an event has at most one source among its successors.
- Guard kernel: pools, free guards, relinquishing, and passing guards from predecessor to successor, which the source disables.
- GuardRuntime.RunTime.GetKeysSort: the references are given in their final order, so the sort by compare within a node is the predicate SortedByCompare of GuardTheorems instead of a call of qsort.
- Threads, condition variables, detached execution, the I/O shim, doors, signals, XML reading, plugins, logging, profiling and shutdown.
