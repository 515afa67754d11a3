# Concurrent components and pointer structures, verified

This project models the repository's timer thread, resource pool, lock-free stack and queue, LRU
cache, skip list, doubly buffered data, flag spin lock, ring queue, reference counts and in-place
sorting, and proves what they promise.

## How the code is modelled

Code that several threads run is a step machine over values. A state holds the shared memory and
each thread's place in the code; a step is one atomic access, one critical section, or a piece of
work on memory that no other thread can reach at the time. Steps of different threads interleave
freely, so that a theorem about every run is a theorem about every interleaving. Each machine comes
as `Enabled` and `Do` (or a `Can…` predicate and a function per step), `Reaches` for its runs, an
invariant `Inv` whose parts each speak of a few fields, and `RunKeeps`, which proves the invariant of
every reachable state.

What a whole call does is stated over its `Path`: the steps from its first to its return, with any steps
of the other threads in between. That calls return is stated for a thread that runs alone, from wherever
it is when the others stop, or, for the worker of the timer, for every history without end in which it
keeps taking steps.

Code that one thread runs at a time is imperative: classes over linked objects and arrays, with the
loops of the source, proved against specification functions whose own properties are lemmas.

| files | source | form |
|---|---|---|
| `TaskIds`, `TimerThread`, `TimerInvariant`, `TimerFrames`, `TimerSafety`, `TimerTheorems`, `TimerPasses`, `TimerSlots`, `TimerCalls`, `TimerLiveness`, `TimerStop` | `idea/timer_thread.cpp` | step machine |
| `PoolSpec`, `BlockIds`, `ResourcePool`, `PoolSafety`, `PoolTheorems`, `PoolProgress` | `idea/resource_pool_inl.h` | step machine |
| `LocalPool` | `idea/resource_pool_inl.h` | class over an array |
| `TagPtrs`, `TaggedStack`, `StackCalls` | `idea/lockfree/stack-atomic-version.hpp` | step machine |
| `LockFreeQueue`, `QueueCalls` | `idea/lockfree/queue-lockfree-has-aba.hpp` | step machine |
| `LruSpec`, `LruCache` | `idea/lru_cache.cpp` | specification; classes over linked handles |
| `SkipList` | `idea/skiplist.h` | classes over linked towers |
| `DoublyBuffered` | `idea/doubly_buffered_data.h` | step machine with release and acquire views |
| `SpinLock` | `atomic/cpu_order.cpp` | step machine with store buffers |
| `CircularQueue`, `SpscRing` | `idea/circular_queue.h` | class over an array; step machine with stale views |
| `RefCount`, `RefCountCalls` | `idea/smart_pointer/shared_count.hpp`, `idea/smart_pointer/sp_counted_impl.hpp` | step machine |
| `QuickSort` | `algo/quicksort.c`, `algo/quickselect.c` | methods over an array |

`Bits` and `Prelude` hold the bit operations as arithmetic and a few shared definitions. The machine
words of ids, versions, tags and masks are explicit; counts and positions are unbounded.

### Where the model departs from the text

- Timer: the id returned at `idea/timer_thread.cpp:123` is the value built at line 109. The wait at
  line 262 is a condition wait that gives up the mutex atomically and may end at any time. The timer
  uses the resource pool through `PoolSpec`, which `PoolTheorems.PoolRefinesSpec` shows the pool to
  refine. The worker may schedule, unschedule and stop from inside a task.
- Pool: `add_block` (line 244) is `fetch_block`; the number of groups is an atomic counter; each
  thread keeps one local pool, although lines 91-96 never store it. The address functions, which are
  comments at lines 278-308, say what an id means.
- Queue: `pop` reads `next` before the tail (lines 42-45), and can then install a null head at line 54.
  There are two machines: the text as written, and the text with a retry in that case. The theorems
  hold for both: `LockFreeQueue.QueueIsLostExactly` says which runs of the text as written lose the
  queue, and the others speak of all states whose head is not null, which with the retry are all.
  Removed nodes stay readable and are not used again.
- LRU cache: `Insert` keeps the raw handle that lines 89-90 use after `e.release()`. The handle's list
  head objects are objects of their own. Deleting a handle takes it out of the set of live handles, to
  which every list, the index and every use are proved to be confined.
- Skip list: the comparison at line 63 walks over equal keys, so that the search returns the first
  node above the key and `Contains` never finds anything. `Insert` is proved with it. `Contains` is
  proved with it, always false, and with the comparison that lines 23-24 ask for, where it is
  membership. A tower is a sequence of as many pointers as the node is high; the allocation size of
  lines 135-136 is not modelled. The array `prev` starts out null instead of uninitialised.
- Ring: `Init` accepts the capacity 0, for which `Push` has no slot to write to; the ring's contracts
  start from a positive capacity.
- Shared counts: the constructor at `idea/smart_pointer/shared_count.hpp:30` reads the other handle's
  pointer, which the text omits. Two operations may run on a handle at the same time only if both
  just read it.
- Spin lock: the text uses the release store of line 12; the theorems hold for the sequentially
  consistent store of line 13, and for line 12 without store buffers. `SpinLock.ReleaseStoreIsNotEnough`
  shows line 12 failing with store buffers.
- Doubly buffered data: one writer at a time, since `Modify` takes no lock against another; fn is
  deterministic and leaves the data unchanged when it fails, though it may write anything in between.
- Quickselect, quicksort: the loop that both functions contain is one method, and its two inner
  loops are methods of their own.

## Model

| member | source | states |
|---|---|---|
| TaskIds.RoundTrip | idea/timer_thread.cpp:282-295 | packing a slot and a version into a task id and unpacking gives both back exactly when the slot number is below 2^32 |
| TaskIds.PackedHalves | idea/timer_thread.cpp:282-295 | for every 64-bit slot number: the low half is the slot modulo 2^32, and the rest of the slot leaks into the version half |
| TaskIds.VersionSteps | idea/timer_thread.cpp:106-107 | the additions the code performs on the 32-bit version word are exactly the moves free to pending, pending to running, pending to removed, with wrap-around |
| TaskIds.VersionShape | idea/timer_thread.cpp:9-14 | the low two bits of the version are 0, 1 or 2 for pending, running and removed, whatever the number of uses |
| TaskIds.StaleIds | idea/timer_thread.cpp:156-165 | an old id matches a slot's version exactly when the slot is pending (running, for +1) and the number of uses in between is a multiple of 2^30; below 2^30 that means the same use |
| TimerSafety.RunKeeps | idea/timer_thread.cpp:82-279 | the eighteen parts of the timer's invariant hold in every state that any interleaving of scheduling, unscheduling, stopping, thread exits and the worker reaches |
| TimerTheorems.NoLostWakeup | idea/timer_thread.cpp:208-262 | while the worker sleeps until d, every task in a bucket or the heap is due at d or later, or the worker is signalled or about to be, or a schedule call with an equal or earlier time is still before its check of the global nearest time; a stop in between may only cut the sleep short |
| TimerTheorems.QuietSleepIsShort | idea/timer_thread.cpp:112-147 | with no call under way, a worker that is not stopping sleeps no longer than until the earliest task that is scheduled and has neither started nor been revoked |
| TimerTheorems.RunsAtMostOnce | idea/timer_thread.cpp:168-187 | each job starts at most once, with its function, not before its time, and never after unschedule returned 0 for it; the next row says which job a call makes |
| TimerCalls.ScheduleDoes | idea/timer_thread.cpp:95-149 | whatever the others do during a call of schedule: the job it records is a new one for exactly the function and time that the caller passed, its slot is linked in the bucket that the caller chose, and the call returns after at most eight steps of its own with a new ticket for that job |
| TimerSlots.StepMoves | idea/timer_thread.cpp:82-279 | a slot keeps its use until its next one, leaves the hands of a scheduling thread only by being linked, and a pending task only moves on: thread, bucket, walk, heap, worker |
| TimerTheorems.HistoryOnlyGrows | idea/timer_thread.cpp:82-279 | no step forgets a job, changes what it asked for, or takes back a start, a return or a revocation, so that the previous row speaks about whole runs |
| TimerTheorems.UnscheduleIsTruthful | idea/timer_thread.cpp:152-166 | unschedule returns 0, 1 or -1 exactly when the task the id was issued for has not started, is running, or is over, and changes that task only, within 2^30 uses of the slot |
| TimerTheorems.StaleIdRevokesAnother | idea/timer_thread.cpp:152-166 | outside that window: an old id revokes a later pending task exactly when the uses in between are a multiple of 2^30 |
| TimerTheorems.PendingIsHeld | idea/timer_thread.cpp:95-124 | a task that has neither started nor been revoked still has its slot, its version and its time, in some thread's hands, a bucket, the walk, the heap or the worker |
| TimerTheorems.SlotIsInOnePlace | idea/timer_thread.cpp:204-263 | every slot is in exactly one place: the pool, one scheduling thread, one bucket's list, the walk, the heap once, or the worker |
| TimerTheorems.ChecksHold | idea/timer_thread.cpp:168-202 | the CHECK_EQ of try_delete always holds, the branch marked impossible is never taken, and what is recycled is in use and returned under its own id |
| TimerTheorems.WalkVisitsTheList | idea/timer_thread.cpp:217-222 | reading p->next after p may have been recycled still visits exactly the consumed list in order, while other threads allocate |
| TimerTheorems.VersionTellsPhase | idea/timer_thread.cpp:9-12 | in every reachable state the version of every slot is 0, 1 or 2 modulo 4 according to what happened to its task |
| TimerTheorems.WorkerIsNeverStuck | idea/timer_thread.cpp:204-264 | the worker always has a next step until it exits or while a call made by the running task is under way |
| TimerTheorems.ThreadsAreNeverStuck | idea/timer_thread.cpp:126-150 | a schedule or stop call can always go on once it has a slot |
| TimerLiveness.PassEndsInTime | idea/timer_thread.cpp:224-262 | the worker's pass ends only with an empty heap or with a clock reading before the time of every task in it, and what it settles down for is the earliest of those times |
| TimerLiveness.DueTasksAreServed | idea/timer_thread.cpp:204-264 | every scheduled job is started or revoked, or the worker exits, in every unending history of all threads in which the worker keeps taking steps, calls end, and the clock comes to the job's time for good |
| TimerLiveness.WorkerComesToRest | idea/timer_thread.cpp:208-262 | left alone with its clock at any time, the worker does go to sleep, until the earliest task that is not due at that time |
| TimerStop.StopIsHeard | idea/timer_thread.cpp:266-279 | after a stop's notification, and before the worker resets the nearest time, the worker exits at its next test, and does not sleep for a positive time unsignalled |
| TimerStop.StopStaysHeard | idea/timer_thread.cpp:208-279 | a stop that notifies the worker anywhere but between its test of the flag and its reset stays heard in every continuation, whatever any thread does: the worker never resets again and never sleeps for a positive time unsignalled |
| TimerPasses.WorkerStepsNearer | idea/timer_thread.cpp:208-262 | every step of the worker but the reset brings it nearer to the end of its pass: fewer buckets to scan, then fewer tasks on the walk, in the heap, or less of the code; there the stop flag decides between the exit and the reset |
| TimerPasses.ClientStepsAside | idea/timer_thread.cpp:95-166 | no step of another thread puts the end of the pass off, nor touches a third thread's place |
| TimerStop.StopEndsTheWorker | idea/timer_thread.cpp:208-279 | such a stop ends the worker in every unending history of all threads in which the worker keeps taking steps, that is, its waits end and the running task returns |
| TimerStop.WorkerCanExit | idea/timer_thread.cpp:208-279 | and it can be the worker alone that gets there, from wherever it is, unless the running task is in the middle of a call |
| TimerStop.StopIsLostExactlyBeforeTheReset | idea/timer_thread.cpp:208-262 | from every reachable state, a stop's notification can be followed by an endless wait without a signal exactly if it finds the worker between its test of the flag (line 208) and its reset (line 212) |
| TimerStop.StopCanBeLost | idea/timer_thread.cpp:208-262 | from every initial state, with any number of buckets, a run in which that happens: all calls are over and the worker waits for ever |
| PoolSpec.GetKeepsValid | idea/resource_pool_inl.h:219-252 | an allocation hands out an id that nobody uses and keeps every id in one place; other threads' chunks are untouched |
| PoolSpec.ReturnKeepsValid | idea/resource_pool_inl.h:254-268 | the returned id ends up in the returning thread's own chunk or is lost, and no other thread's chunk changes |
| PoolSpec.LeaveKeepsValid | idea/resource_pool_inl.h:211-217 | a thread's exit moves its free ids to the global list or loses them, and touches nobody else's |
| BlockIds.DecodeEncode | idea/resource_pool_inl.h:278-286 | the division, shift and mask of the address functions recover group, block and offset, and ids stay below 2^39 |
| BlockIds.EncodeDecode | idea/resource_pool_inl.h:278-286 | every id below 2^39 decodes to one item and encodes back to itself |
| BlockIds.IdsAreInjective | idea/resource_pool_inl.h:236-250 | different (group, block, offset) triples have different ids |
| PoolSafety.RunKeeps | idea/resource_pool_inl.h:99-268 | the pool's invariant holds under every interleaving of get, fetch_block, create_block_group, return_resource and thread exits |
| PoolTheorems.NoBlockTwice | idea/resource_pool_inl.h:142-157 | concurrent fetch_block callers never claim the same index, never one past the group and never one already stored, in spite of the overshooting fetch_add |
| PoolTheorems.CounterMeaning | idea/resource_pool_inl.h:148-156 | nblock is always the number of indices stored or claimed plus the callers that have overshot, and overshooting happens only with the group full |
| PoolTheorems.EveryIdInOnePlace | idea/resource_pool_inl.h:219-268 | every id ever issued is in use, once in one local chunk, once in one global chunk, or lost, and in one of these only |
| PoolTheorems.ChunkSizes | idea/resource_pool_inl.h:99-134 | global chunks have 1 to 128 ids, so that taking the last id of a popped chunk does not underflow, and local chunks fit their array |
| PoolTheorems.AddressFindsTheItem | idea/resource_pool_inl.h:288-307 | address_resource finds an item exactly for the ids handed out so far, and it is the item that the id encodes |
| PoolTheorems.AddressesDiffer | idea/resource_pool_inl.h:279-286 | two issued ids never share an address |
| PoolTheorems.PoolRefinesSpec | idea/resource_pool_inl.h:219-268 | every step of the pool machine is an allocation, a return or an exit of PoolSpec, or invisible to users: what the timer relies on |
| PoolTheorems.GetIsNeverStuck | idea/resource_pool_inl.h:136-186 | a thread in the middle of get always has a next step |
| PoolProgress.GetHandsOneOut | idea/resource_pool_inl.h:136-252 | a get that runs alone and does not run out of memory returns within twelve steps, from wherever it is, with one id that nobody uses |
| PoolProgress.LostExactly | idea/resource_pool_inl.h:211-268 | an id is lost exactly if the push to the global list fails for a returned id with the local chunk full, or for the chunk of an exiting thread; otherwise a returned id is the next that the thread gets |
| LocalPools.LocalPool.constructor | idea/resource_pool_inl.h:204-209 | a new local pool has no free id |
| LocalPools.LocalPool.PopFreeChunk | idea/resource_pool_inl.h:99-118 | the copying loop leaves exactly the ids of the last global chunk in the array, or nothing changes |
| LocalPools.LocalPool.PushFreeChunk | idea/resource_pool_inl.h:120-134 | exactly the free ids become the last global chunk, unless memory runs out |
| LocalPools.LocalPool.GetFree | idea/resource_pool_inl.h:219-233 | which id is handed out, and what is left, in each of the three cases of free ids |
| LocalPools.LocalPool.ReturnResource | idea/resource_pool_inl.h:254-268 | where the id goes and what the array and the global list hold, with room, with a spill and with a failed spill |
| TagPtrs.Unpack | idea/lockfree/stack-atomic-version.hpp:15-45 | unpacking gives the tag modulo 2^16 back, and the pointer exactly if it fits in 48 bits |
| TaggedStack.StepRefines | idea/lockfree/stack-atomic-version.hpp:59-85 | each step of each thread, with node reuse, is a push, a pop, a true empty answer or nothing on an atomic stack, if fewer than 65536 pops fall into each pop's window |
| TaggedStack.RunRefinesStack | idea/lockfree/stack-atomic-version.hpp:59-85 | every such run is a history of the locked stack, and the memory spells out that stack |
| TaggedStack.PopIsRightExactly | idea/lockfree/stack-atomic-version.hpp:71-85 | window or not, a pop's swap takes the top off the stack exactly if the link it has read is still the link of the head |
| TaggedStack.CallsAreNeverStuck | idea/lockfree/stack-atomic-version.hpp:59-85 | a thread in the middle of a call always has a next step |
| StackCalls.PushPushes | idea/lockfree/stack-atomic-version.hpp:60-69 | a whole call of Push, whatever the others do, pushes its own node, once |
| StackCalls.PopPops | idea/lockfree/stack-atomic-version.hpp:71-85 | a whole call of Pop answers empty, or takes out one node, which is then the caller's |
| StackCalls.CallsEndAlone | idea/lockfree/stack-atomic-version.hpp:59-85 | a call that runs alone returns within four steps, from wherever it is |
| TaggedStack.WindowIsTight | idea/lockfree/stack-atomic-version.hpp:71-85 | a run with exactly 65536 pops in a window, which leaves a node in the stack that a thread owns: the bound cannot be raised |
| LockFreeQueue.RunKeeps | idea/lockfree/queue-lockfree-has-aba.hpp:12-62 | the queue's invariant holds in exactly those reachable states whose head is not null, and with the retry in all |
| LockFreeQueue.QueueIsLostExactly | idea/lockfree/queue-lockfree-has-aba.hpp:41-59 | a run of the text as written keeps the queue exactly if no pop in it swings the head to a null it read before a push: then and only then is every step a step of a queue, does the invariant hold at the end, and is the head not null |
| LockFreeQueue.StepRefinesQueue | idea/lockfree/queue-lockfree-has-aba.hpp:23-62 | linking appends to a first-in first-out queue of nodes, moving the head takes its oldest node, nothing else changes it, and the list is append-only, for every step but that one |
| LockFreeQueue.ListIsWellFormed | idea/lockfree/queue-lockfree-has-aba.hpp:23-62 | following next from the head spells out the queue, and the tail is its last or next-to-last node, never behind the head |
| LockFreeQueue.EmptyWasTrue | idea/lockfree/queue-lockfree-has-aba.hpp:42-49 | when a pop that answers empty read next, there was no node in the queue |
| LockFreeQueue.ValuesLagByOne | idea/lockfree/queue-lockfree-has-aba.hpp:53-58 | the values returned are those of the removed dummies: the initial one's, then the pushed values in order, one behind |
| LockFreeQueue.FifoOnlyIfConstant | idea/lockfree/queue-lockfree-has-aba.hpp:53-58 | values come out first in first out exactly if all values popped so far equal the initial dummy's |
| LockFreeQueue.FirstPopReturnsTheDummysValue | idea/lockfree/queue-lockfree-has-aba.hpp:23-58 | values do come out wrong: a run that pushes any value onto a new queue and pops the dummy's |
| LockFreeQueue.SoloPushFinishes | idea/lockfree/queue-lockfree-has-aba.hpp:23-37 | a push that starts an iteration and runs alone finishes within two iterations |
| QueueCalls.PushLinksOnce | idea/lockfree/queue-lockfree-has-aba.hpp:23-37 | a whole call of push, whatever the others do, links its own node once, holding its value |
| QueueCalls.PopAnswersOnce | idea/lockfree/queue-lockfree-has-aba.hpp:39-62 | a whole call of pop takes out one node or answers empty, once |
| QueueCalls.CallsEndAlone | idea/lockfree/queue-lockfree-has-aba.hpp:23-62 | a call that runs alone returns within eleven steps, from wherever it is |
| LockFreeQueue.UnguardedPopLosesTheQueue | idea/lockfree/queue-lockfree-has-aba.hpp:41-59 | for any two threads, node and value, a run of the text as written that installs a null head and loses the queue |
| LruSpec.ApplyKeeps | idea/lru_cache.cpp:72-136 | every operation keeps the index, the recency list, the list of handles in use and the uses consistent and within the capacity |
| LruSpec.FreedExactly | idea/lru_cache.cpp:108-118 | a handle is freed exactly at its last release once it is not indexed, or when it leaves the index unused: erased, replaced, or evicted as the longest unused |
| LruSpec.UsedIsNotFreed | idea/lru_cache.cpp:98-136 | a handle with outstanding lookups survives erasing, replacement, eviction and everything but its own releases |
| LruSpec.UsersChange | idea/lru_cache.cpp:98-136 | a lookup that finds a handle gives it exactly one user more, a release one less, and no operation changes the users of any other handle |
| LruSpec.IndexChanges | idea/lru_cache.cpp:120-136 | lookups and releases change nothing in the index, an erase takes out its key only, and a lookup neither frees nor creates a handle |
| LruSpec.UsersAreLookupsLessReleases | idea/lru_cache.cpp:72-136 | after any run from an empty cache, the users of a handle are the lookups that found it less its releases, and one found more often than released has not been freed |
| LruSpec.InsertIndexes | idea/lru_cache.cpp:72-96 | what can be looked up after an insertion: the new handle, and everything else but the one evicted; nothing changes if all are in use |
| LruSpec.RunKeeps | idea/lru_cache.cpp:72-136 | after any sequence of operations the cache is consistent and its unused handles are ordered by when they were last used |
| LruSpec.EvictionTakesTheLongestUnused | idea/lru_cache.cpp:77-80 | after any sequence of operations from an empty cache at most capacity handles are live, and an eviction takes the handle unused longest |
| LruCaches.LinkRemove | idea/lru_cache.cpp:138-141 | unlinking one node of a circle leaves the circle of the others, forwards and backwards |
| LruCaches.LinkAppend | idea/lru_cache.cpp:143-148 | linking a node before the list head makes it the last of the circle |
| LruCaches.LRUCacheIndex.Lookup | idea/lru_cache.cpp:160-166 | the handle of a key, or null |
| LruCaches.LRUCacheIndex.Insert | idea/lru_cache.cpp:168-176 | the key gets the new handle, and the old one is returned |
| LruCaches.LRUCacheIndex.Erase | idea/lru_cache.cpp:178-182 | the key is gone, and its handle is returned |
| LruCaches.LRUCache.constructor | idea/lru_cache.cpp:54-60 | a new cache represents the empty one, with both circles closed |
| LruCaches.LRUCache.Ref | idea/lru_cache.cpp:98-106 | one use more; the first one moves the handle between the circles, and both stay circles |
| LruCaches.LRUCache.Unref | idea/lru_cache.cpp:108-118 | one count less: deleted at none, moved to the end of the unused ones at the index's own, and both circles and all counts stay right |
| LruCaches.LRUCache.RemoveFromLRU | idea/lru_cache.cpp:150-158 | a handle that the index has dropped leaves its circle, its mark and its count, and is deleted unless used |
| LruCaches.LRUCache.Lookup | idea/lru_cache.cpp:120-127 | the pointer structure does what the specification's lookup does, one user more for the handle found (LruSpec.UsersChange), and returns the indexed handle |
| LruCaches.LRUCache.Release | idea/lru_cache.cpp:129-131 | the pointer structure does what the specification's release does |
| LruCaches.LRUCache.Erase | idea/lru_cache.cpp:133-136 | the pointer structure does what the specification's erase does |
| LruCaches.LRUCache.MakeRoom | idea/lru_cache.cpp:77-80 | the loop ends, and drops the longest unused handle exactly if the cache is full and there is one |
| LruCaches.LRUCache.Insert | idea/lru_cache.cpp:72-96 | the pointer structure does what the specification's insertion does with a new handle of the given key and value; it fails exactly if every handle of a full cache is in use |
| LruCaches.LRUCache.Representation | idea/lru_cache.cpp:98-158 | lru_ holds exactly the valid handles with count 1, in_use_ exactly those with a higher one, the index maps exactly the valid ones by key, counts are uses plus one if indexed, usage_ counts the live handles and is at most capacity_ |
| SkipLists.SkipList.constructor | idea/skiplist.h:97-103 | all levels of a new list are empty |
| SkipLists.SkipList.FindGreaterOrEqual | idea/skiplist.h:57-76 | the multi-level search ends, returns what a linear scan of the lowest level returns, and fills prev with the last node that it passed on each level, for either comparison |
| SkipLists.SkipList.Insert | idea/skiplist.h:105-123 | for every height from 1 to 12 the pointers of all levels again link the sorted lists that the towers spell out, with the new node after its equals |
| SkipLists.InsertAddsOneKey | idea/skiplist.h:105-123 | insertion adds exactly one key to the multiset, keeps the order, and the old list is a subsequence of the new one |
| SkipLists.SkipList.LevelsAreSortedSubsequences | idea/skiplist.h:57-76 | in every valid list following the i-th pointers visits a sorted list, the lowest one holds all nodes, and each level is a subsequence of the one below |
| SkipLists.SkipList.Contains | idea/skiplist.h:125-132 | as written it is always false, and right exactly for the keys that are not there |
| SkipLists.SkipList.ContainsDocumented | idea/skiplist.h:125-132 | with the comparison of lines 23-24 it is membership |
| DoublyBuffered.RunKeeps | idea/doubly_buffered_data.h:76-134 | the invariant holds under every interleaving of reads, joins and Modify calls, with every load of the index that release and acquire allow |
| DoublyBuffered.HeldSnapshotsAreStable | idea/doubly_buffered_data.h:76-96 | what a reader holds is a version that some prefix of the successful Modify calls made, at most one behind, and fn is not running on its buffer |
| DoublyBuffered.VersionsReplay | idea/doubly_buffered_data.h:98-109 | the versions are what the functions of the successful calls make of the initial data, one after the other |
| DoublyBuffered.VersionsStay | idea/doubly_buffered_data.h:98-122 | no step changes the versions and functions recorded before |
| DoublyBuffered.ReadersNeverGoBack | idea/doubly_buffered_data.h:76-96 | a reader never finds an older version than before, which is the coherence of the index carried to what the reader holds |
| DoublyBuffered.ReadsAreFresh | idea/doubly_buffered_data.h:111-117 | a read that locks its mutex while no Modify is between its store and the end of its waiting finds the last version: finished calls are seen |
| DoublyBuffered.BuffersAgree | idea/doubly_buffered_data.h:98-122 | between calls both buffers hold the last version; fn succeeds the second time if it did the first; a failed call leaves both as they were |
| DoublyBuffered.ModifyDoes | idea/doubly_buffered_data.h:98-122 | a whole call of Modify, whatever the readers do: if fn succeeds on the current version, its result becomes the one new version, in both buffers, and the answer is true; if it fails, nothing has changed and the answer is false |
| DoublyBuffered.ModifyReturns | idea/doubly_buffered_data.h:98-122 | a call of Modify returns, once the reads that hold it up end |
| DoublyBuffered.ModifyIsNeverStuck | idea/doubly_buffered_data.h:113-116 | a Modify call can always go on, or waits for one reader that can |
| SpinLock.MutualExclusion | atomic/cpu_order.cpp:10-25 | with store buffers and line 13, or line 12 without buffers, at most one thread is between a successful Lock and its Unlock in every run |
| SpinLock.NoIncrementIsLost | atomic/cpu_order.cpp:31-37 | once the buffers are empty, counter is the number of increments |
| SpinLock.IncrementsAreSerial | atomic/cpu_order.cpp:31-37 | what a holder loads is the number of earlier increments, and its flag keeps the others out until its own has left the buffer, even after Unlock |
| SpinLock.ReleaseStoreIsNotEnough | atomic/cpu_order.cpp:12-21 | with line 12 and store buffers: a run with two holders, and one that ends with two increments counted as one |
| SpinLock.LockAlone | atomic/cpu_order.cpp:10-21 | the lock can be taken: with line 13, no flag set and the buffers empty, a thread that runs alone gets through Lock |
| SpinLock.RoundAlone | atomic/cpu_order.cpp:10-37 | a lone thread's round of Lock, count and Unlock makes the counter one greater and leaves everything else as it was, with nothing in a buffer |
| CircularQueues.AcceptsExactly | idea/circular_queue.h:11-16 | the test of Init accepts exactly the powers of two, and zero |
| CircularQueues.MaskWraps | idea/circular_queue.h:33 | the mask is the remainder modulo the capacity |
| CircularQueues.CircularQueue.Init | idea/circular_queue.h:11-27 | when it succeeds, that the queue is then empty, and that it is ready for use exactly if its capacity is positive |
| CircularQueues.CircularQueue.Push | idea/circular_queue.h:31-42 | appends the item exactly if fewer than capacity - 1 are queued, and changes nothing otherwise |
| CircularQueues.CircularQueue.Pop | idea/circular_queue.h:46-55 | removes and returns the oldest item exactly if there is one |
| CircularQueues.CircularQueue.MayEmpty | idea/circular_queue.h:57-60 | exact when nobody else uses the queue |
| CircularQueues.CircularQueue.MayFull | idea/circular_queue.h:62-66 | exact when nobody else uses the queue: full means capacity - 1 items |
| SpscRing.RunKeeps | idea/circular_queue.h:31-55 | the ring's invariant holds for every interleaving of one producer and one consumer with stale views of each other's index |
| SpscRing.PoppedIsAPrefix | idea/circular_queue.h:31-55 | what has been popped is a prefix of what has been pushed, and at most capacity - 1 items are in between |
| SpscRing.PushedIsAsked | idea/circular_queue.h:31-42 | what has been pushed is what Push was called with and has not refused, in that order, up to the call under way |
| SpscRing.PoppedIsGranted | idea/circular_queue.h:46-55 | each call of Pop that is not refused takes out one item |
| SpscRing.CallsAreWaitFree | idea/circular_queue.h:31-55 | Push and Pop return within four steps of their own, whatever the other thread does |
| SpscRing.NoSlotIsWrittenWhileRead | idea/circular_queue.h:35-53 | a slot is not written while it is read |
| SpscRing.AccessesAreOrdered | idea/circular_queue.h:35-53 | the index store that a thread has found is later than the other's access to the slot that it is about to touch |
| SpscRing.PushRefusesWhenFull | idea/circular_queue.h:32-41 | Push refuses exactly if no room was left at the store of the head that it has found |
| SpscRing.PopRefusesWhenEmpty | idea/circular_queue.h:47-50 | Pop refuses exactly if everything that it has found pushed has been popped |
| SpscRing.NoThreadIsStuck | idea/circular_queue.h:31-55 | each thread always has a next step of its own: neither waits for the other |
| RefCounts.RunKeeps | idea/smart_pointer/shared_count.hpp:18-92 | the invariant holds under every interleaving of copies, moves, assignments, weak locks and destructions of any handles by any threads |
| RefCounts.UseCountIsStrongOwners | idea/smart_pointer/sp_counted_impl.hpp:49-62 | the use count is the number of strong owners, who are exactly the handles pointing to the block and the threads in the middle of an operation with it |
| RefCounts.WeakCountIsWeakOwners | idea/smart_pointer/sp_counted_impl.hpp:57-72 | the weak count is the number of weak owners, and one more while the use count is positive; then that one is the releasing thread's |
| RefCounts.CountsStayZero | idea/smart_pointer/sp_counted_impl.hpp:10-27 | no step raises a count from zero |
| RefCounts.EndsOnceAndInOrder | idea/smart_pointer/sp_counted_impl.hpp:57-72 | dispose runs at most once and destroy at most once and after it; at zero counts they have run or a thread is about to run them |
| RefCounts.TouchedBlocksExist | idea/smart_pointer/sp_counted_impl.hpp:49-72 | no step touches a block after destroy, and none but destroy once it is due |
| RefCounts.NothingLeaks | idea/smart_pointer/shared_count.hpp:18-92 | while no operation runs, the object lives exactly while a shared_count points to it, and the block exactly while any handle does |
| RefCounts.LockIsTruthful | idea/smart_pointer/sp_counted_impl.hpp:10-27 | locking a weak_count succeeds only while the object lives, and fails only when the use count is zero for good |
| RefCountCalls.OperationEnds | idea/smart_pointer/shared_count.hpp:18-92 | what a whole operation leaves, whatever the others do: a copied, moved or assigned handle points where the source pointed, a moved one is null, a destructed one is gone, and a locked one points to the block, or is null and the use count was zero at some moment of the operation |
| RefCountCalls.OperationsEndAlone | idea/smart_pointer/sp_counted_impl.hpp:10-72 | a thread that runs alone is done with its operation within six steps, from wherever it is |
| RefCountCalls.LockAlone | idea/smart_pointer/sp_counted_impl.hpp:10-27 | locking alone succeeds if the use count is above zero: the handle points to the block, and the count is one higher |
| QuickSorts.Partition | algo/quicksort.c:24-47 | the loop with sentinels stays in range, ends, rearranges the range only, and parts it around the returned index |
| QuickSorts.Qsort | algo/quicksort.c:17-51 | the range is sorted and a permutation of what it was, and nothing outside changes |
| QuickSorts.Select | algo/quickselect.c:16-60 | k is returned exactly if it is in the range, with its element in its sorted place, and -1 otherwise |
| QuickSorts.Qselect | algo/quickselect.c:62-70 | k is returned exactly if it is an index, negative and large ones give -1, and the array is rearranged around k |
| QuickSorts.SelectedIsKthSmallest | algo/quickselect.c:62-70 | the element left at k is the one that any sorted permutation has there |

## Left out

- Update in place and aliasing of the concurrent components: they are step machines over values, in which one step is one access; the local free list of the pool is modelled both ways.
- TimerTheorems.UnscheduleIsTruthful: unscheduling with an id that is 2^30 or more uses old is not a step of the machine; TimerTheorems.StaleIdRevokesAnother says what it would do.
- Slot numbers of 2^32 and more: the timer's allocation step asks for a smaller one, since beyond that a task id does not name its slot (TaskIds.PackedHalves).
- Allocation failure in schedule: the text dereferences the null result of get_resource.
- Restarting a stopped timer, the number of buckets, hashing of thread ids and the clock: a step takes the bucket and the time as parameters.
- The heap vector of the worker is a multiset from which a least element is taken; the order of equal times is free.
- Memory orders weaker than sequential consistency in the timer, the pool, the stack, the queue and the reference counts; the doubly buffered data and the ring have release and acquire views, and the spin lock has store buffers.
- The destructors of the pool, the queue, the LRU cache, the doubly buffered data and the ring, and the nodes of the skip list, which are never freed.
- Progress of calls that others keep disturbing: lock freedom of the stack, the queue and the reference counts is not modelled.
- Re-entrance of dispose: the object's destructor is one step that uses no handle.
- Overflow of the 32-bit counts, of `k + 1` in qselect, and of the ring's `int` indices.
- `idea/lockfree/queue-version.hpp` and `idea/lockfree/queue-version-next.hpp`: their push can link onto a recycled node, so that they are not first in first out as written. `idea/lockfree/queue-nolockfree.hpp` only shows a queue without helping.
- `atomic/circular_queue.h`, `idea/lockfree/tag_ptr.h`, `idea/lockfree/stack-normal.hpp`, `idea/lockfree/stack-atomic.hpp`: the same as or simpler than what is modelled.
- `idea/single_threaded_pool.h`, `idea/socket_pool.cpp`, `FindLessThan` in `idea/skiplist.h`, `algo/partition.c`, `algo/lower_bound.c`: no sound property as written.
- `idea/thread_pool.cpp`, `algo/binsearch.c`, `algo/merge_sort.c` and the pointer wrappers over the counts: would add easy members only.
- Servers, generated code, build files and compiler demonstrations.
