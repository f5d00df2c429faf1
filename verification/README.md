# A verified model of conts

conts is a header-only C++ library of concurrent containers, locks, thread pools and
two parallel algorithms. This project models its protocols in Dafny and proves what
they are for, over all runs of any number of threads.

Every protocol has two parts.

* The step model (`HlStack.dfy`, `ParallelSort.dfy`, `McsLock.dfy`, `HlQueue.dfy`,
  `NormalQueue.dfy`, `RwLock.dfy`, `CtrPool.dfy`, `ForEach.dfy`, the larger ones with
  what holds of all their runs in a file `...Runs.dfy`, the wake-ups of the normal queue
  in `NormalQueueWakes.dfy`) is a state machine: a state holds the shared memory, a
  program counter with local variables for each thread, and history variables that no
  step reads back. One atomic load, store,
  exchange, CAS or fetch, or one operation under a mutex, is one step. A run is any
  sequence of steps by any threads. Touching memory that is not allocated is a fault,
  so memory safety is a theorem. The invariants, the refinement of an abstract stack
  or queue, and the results over all runs are lemmas here.
* The object (`HlStackObject.dfy` and so on) is a class with the source's fields. Its
  methods have the source's loops, branches and recursion and change the fields in
  place; between the accesses the other threads run bursts of arbitrary steps. When
  the bursts are used up, a loop that waits for another thread lets that thread go
  on: the helper of the lock, the holder of a mutex, a holder that leaves, the thread
  with the latest call, a worker that is awake, an operation that will notify. So a
  method returns unless there is nobody left to wait for. Each method is proved against
  the step model, so what is proved of the runs holds of the code's form.

Every object records the states it has been in, and its `Valid()` says that they are a
run of the step model from its first state. A method may only add to that record, so
each call is a run of the model's steps, the moments its contract speaks of are states of
that run, and what is proved of all runs holds of every recorded state (the lemmas
`RunReaches`). Where a contract says "alone", the other threads take no more steps.

`Prelude.dfy` has what they share. `dafny verify dfyconfig.toml` checks everything.

| protocol | what is hard about it |
|---|---|
| high-load stack | counts beside the head pointer and in the node are merged on pop; freed addresses come back |
| parallel sort | a waiting thread runs other tasks on top of its own stack and must not deadlock |
| MCS lock | the waiter queue is half-linked between the exchange and the store of next |
| high-load queue | any thread may link the next node and move the tail; a slow push can be lost |
| normal queue | push and pull overlap; emptiness is judged from a stale tail; wake-ups can be lost |
| readers-writer lock | one word encodes the holders and must not wrap |
| controlled pool | tasks move between many queues; a failed scan is not a snapshot |
| parallel_for_each | chunks of two elements with a count narrowed to 32 bits; the caller waits for workers that may sleep |

Six places where the code does less than a reader expects are stated exactly.

* A push to the high-load queue can store its value into a node that a pull has
  already emptied, and the value is lost: if and only if the tail has left the node at
  the store (`HlQueueRuns.StoredIffTailStays`, a run in `HlQueueRuns.PushIsLost`).
* A pull on a normal queue gives up if and only if `closed_` is set at its second look,
  even when the queue still holds values (`NormalQueueRuns.ClosedVerdict`, a run in
  `NormalQueueRuns.ClosedWithValue`), while `try_pull` and `try_push` go on.
* A pull on a normal queue can sleep beside a value, or at a closed queue: it tests and
  goes to sleep under the head mutex, but push and close notify without that mutex, and
  a notify that comes in between is lost. A sleeper can be woken if and only if a push
  or a close is still before its notify (`NormalQueueWakes.CanWake`, runs in
  `NormalQueueWakes.LostWakeUp` and `NormalQueueWakes.LostClose`); without a lost notify
  none is left behind (`NormalQueueWakes.NoneLost`).
* `parallel_for_each` applies its function to nothing if and only if its length is not
  zero and narrows to no chunk (`ForEachRuns.EveryElementOnce`, `ForEach.NoChunks`, a run in
  `ForEachRuns.HugeRangeSkipped`).
* `parallel_for_each` only waits and never helps, so it can wait for ever: without
  workers (`ForEachRuns.NoWorkerBlocks`, a run in `ForEachRuns.BlockedOnOne`;
  `hardware_concurrency()`, the default size, may be 0), and on the default pool also
  with workers, when they missed their notifies (a run in `ForEachRuns.LostWakeUp`). When
  it can still return is stated by `ForEachRuns.CanReturn`. The controlled pool's
  workers do not sleep, so there one worker is enough (`ForEachRuns.PollingReturn`).
  `parallel_sort` helps and needs no worker (`ParallelSortRuns.DeadlockFree`).
* The number that `r_lock` returns is the number of readers if and only if each
  hexadecimal digit of that number is 0 or 1, because of the mask
  (`RwLock.NumberReturned`, `RwLock.TwoReaders`).

## Model

| member | source | states |
|---|---|---|
| HlStackRuns.MemorySafe | include/sync_stack.h:68-98 | in every run of any number of threads no push or pull touches a node that is not allocated, and none is deleted twice, even when a freed address is allocated again |
| HlStackRuns.CountsBalance | include/sync_stack.h:76-98 | the list from head is the linked chain; each of its nodes has external count - 1 + internal count = number of threads holding it; after its winner's merge a node's internal count is the number of holders left, and is positive |
| HlStack.MergeKeeps | include/sync_stack.h:88-91 | the winner's fetch_add leaves an internal count equal to the number of threads still holding the node, and keeps the invariant |
| HlStack.LastRelease | include/sync_stack.h:93-96 | a fetch_sub that returns 1 comes from the only holder of a node whose counts are merged; until the merge it never returns 1 |
| HlStack.DeleteKeeps | include/sync_stack.h:89-95 | at either delete no other thread refers to the node |
| HlStack.WinnerOnTop | include/sync_stack.h:84-85 | a pull whose CAS succeeds has the top node and the link that node has now, although head may have changed and come back in between |
| HlStack.IncrementKeeps | include/sync_stack_base.h:219-227 | raising the head's count makes the calling thread one more holder of the top node, and keeps the balance of the counts |
| HlStackRuns.HeadComesBack | include/sync_stack.h:79-85 | a run in which head returns to an earlier (count, pointer) pair between a thread's increment and its CAS; the CAS succeeds and takes the right value |
| HlStackRuns.NothingLeaks | include/sync_stack.h:88-96 | with no pull in flight and no unpublished node, the allocated nodes are exactly those reachable from head |
| HlStackRuns.Linearizable | include/sync_stack.h:68-98 | the operations in the order of their CASes (an empty answer at its increment) form a legal history of a sequential stack that ends in the present contents, and each thread got exactly its own answers |
| HlStackRuns.StepRefines | include/sync_stack.h:68-98 | each step appends to the history its own event or none: the push's at a successful CAS of push, the pop's at a successful CAS of pull, the empty answer's at the increment of a null head; the event acts on the contents as on a sequential stack, and a step without one leaves them alone |
| HlStackRuns.Conserved | include/sync_stack.h:68-92 | each value has been pushed as often as it has been popped plus the times it is in the stack |
| HlStackRuns.ReplayConserves | include/sync_stack.h:68-92 | every legal stack history conserves values |
| HlStackRuns.ReturnedAtMostOnce | include/sync_stack.h:84-92 | a value pushed once is returned at most once, to one thread |
| HlStack.StepKeeps | include/sync_stack.h:68-98 | every atomic step keeps the reclamation invariant and does not fault |
| HlStackRuns.StepLin | include/sync_stack.h:68-98 | every atomic step keeps the log a legal history and the answers its events |
| HlStackObject.SyncStack.Push | include/sync_stack.h:68-74 | against any finite interference push returns; its last step adds exactly its one event to the history and its value to the stack, on top; alone it grows the stack as it was at the call |
| HlStackObject.SyncStack.UpdateHeadCount | include/sync_stack_base.h:219-227 | on return head is the returned counted pointer and the thread holds its node; a null pointer is the answer "empty" |
| HlStackObject.SyncStack.Pull | include/sync_stack.h:76-98 | against any finite interference pull returns; one step of the call decides it, taking the top value or finding the stack empty, and its answer is that event; alone it does that to the stack as it was at the call |
| ParallelSortRuns.ResultSorted | include/con_algo.h:22-44 | under every interleaving the result is a sorted permutation of the input, for any strict weak order |
| ParallelSortRuns.DeadlockFree | include/con_algo.h:33-43 | in every reachable unfinished state, for any set of workers and none, some thread makes a productive step with its next step or the one after |
| ParallelSortRuns.TopIsLatest | include/thread_pool_base.h:65-73 | the unfinished call that was started last is on top of its thread's stack |
| ParallelSortRuns.WaitsForQueued | include/con_algo.h:39-41 | that call, if it waits, waits for a task that is done, or the queue is not empty |
| ParallelSortRuns.FairCompletion | include/con_algo.h:22-44 | in every infinite schedule in which each thread with an unfinished call takes its turn again and again, and std::partition answers when it is called, the sort is complete after finitely many steps, with a sorted permutation; idle workers may sleep for ever |
| ParallelSortRuns.FairScheduleExists | include/con_algo.h:22-44 | every input and every set of workers have such a schedule |
| ParallelSortRuns.ExactWork | include/con_algo.h:24-42 | no schedule makes more than 5n + 1 productive steps on n elements, and a run is complete exactly when it has made them |
| ParallelSortRuns.StepWork | include/con_algo.h:24-42 | every step but a poll in vain lowers the remaining work by exactly one |
| ParallelSortRuns.NothingLeftBehind | include/con_algo.h:33-43 | complete means no work left; then the queue and all stacks are empty |
| ParallelSort.StepKeeps | include/con_algo.h:22-44 | every step keeps the invariant of calls, queue and stacks |
| ParallelSort.Hook | include/con_algo.h:27-38 | the pivot in front of the sorted higher chunk is the sorted upper part of the input |
| ParallelSort.Join | include/con_algo.h:42-43 | the sorted lower chunk in front of the sorted upper part is a sorted permutation of the input |
| ParallelSortRuns.CanPartition | include/con_algo.h:29-30 | every list has a partition around every pivot |
| ParallelSortObject.PartitionList | include/con_algo.h:29-32 | the lower part holds exactly the elements less than the pivot, the two parts together are the list rearranged |
| ParallelSortObject.SortPool.DoSort | include/con_algo.h:22-44 | against any finite interference, after which the thread with the latest call goes on, the call on top of a stack returns a sorted permutation of its list, running other tasks on top of itself while it waits, and leaves the calls below as they were but for the caller that gets the result |
| ParallelSortObject.SortPool.Sort | include/con_algo.h:46-49 | the sort returns a sorted permutation, which is the result of its first call, and leaves an empty queue and empty stacks |
| ParallelSortObject.SortPool.WorkerOnce | include/thread_pool_base.h:24-38 | an idle worker takes the oldest task, runs it to its end and is idle again |
| ParallelSortObject.SortPool.OthersGoOn | include/con_algo.h:39-41 | when a thread polls in vain at an empty queue, another thread's call can work |
| ParallelSortObject.SortPool.TryExecutingOne | include/thread_pool_base.h:65-73 | true exactly if the queue was not empty; then its oldest task begins on top of the caller's stack |
| McsLock.NodesSafe | include/mcs_spinlock.h:64-87 | no run loads from or stores to the node of a destroyed guard |
| McsLock.MutualExclusion | include/mcs_spinlock.h:64-87 | at most one thread is past acquire and not yet released |
| McsLock.StrictFifo | include/mcs_spinlock.h:66-73 | the order of entry is the order of the tail exchanges, and those that have exchanged and not entered are the rest of that order |
| McsLock.StoresHitLiveNodes | include/mcs_spinlock.h:69-85 | the handoff store hits the next thread in line, alive and still spinning; the link store hits a node whose thread has not left |
| McsLock.HeirSpins | include/mcs_spinlock.h:84-85 | the node read from next is the second in line and its owner spins on it |
| McsLock.HelperHelps | include/mcs_spinlock.h:66-86 | from every state with a queue, the next step of the front thread, or of its successor if that has not linked itself, brings the handoff closer or completes it |
| McsLock.NobodyHinders | include/mcs_spinlock.h:64-87 | no step of any thread sets the handoff back |
| McsLock.HandoffBounded | include/mcs_spinlock.h:66-86 | at most six steps of the front thread and its direct successor pass ownership to exactly that successor, or empty the lock |
| McsLock.WaiterEnters | include/mcs_spinlock.h:64-87 | the waiter at any place of the line enters after at most six helper steps for each place before it and one more, whatever the other threads do in between |
| McsLock.StepKeeps | include/mcs_spinlock.h:64-87 | every step keeps the relation of the waiter queue to tail, next and is_owned, in the half-linked window too |
| McsLockObject.LockObject.Acquire | include/mcs_spinlock.h:64-74 | against any finite interference, after which the helper of the moment goes on, the constructor returns inside the lock; alone at a free lock it enters at once |
| McsLockObject.LockObject.Release | include/mcs_spinlock.h:76-87 | in the same way the destructor returns with its node gone |
| McsLockObject.LockObject.Spin | include/mcs_spinlock.h:72 | the spin ends with the lock |
| McsLockObject.LockObject.PassOn | include/mcs_spinlock.h:66-86 | running only the front thread and its successor hands the lock over |
| HlQueueRuns.FifoOrder | include/sync_queue.h:22-72 | the values that the tail has passed are those that pulls have claimed, in the same order, followed by the contents |
| HlQueueRuns.Linearizable | include/sync_queue.h:22-72 | each completed push that filled its node first, and each completed pull, is in that history exactly once, in its thread's order |
| HlQueueRuns.StepRefines | include/sync_queue.h:22-72 | every step appends one value to the abstract queue and its history, takes the first one off, or leaves queue and history as they are; an empty answer is given only when the queue is empty at that tail load |
| HlQueueRuns.EmptyExact | include/sync_queue.h:60-63 | the answer "empty" is exact at the load of tail |
| HlQueueRuns.ChainHolds | include/sync_queue.h:29-68 | head does not pass tail, every linked node was filled, a successful head CAS installs a real node, a claimed node still has its data, and tail moves to its node's next |
| HlQueue.NullNextIsLast | include/sync_queue.h:34-46 | a node whose next is null is the tail and the last of the chain |
| HlQueue.FillMeaning | include/sync_queue.h:31 | a reached node has no data exactly if it is the unfilled tail, or a pull has emptied it |
| HlQueueRuns.StoredIffTailStays | include/sync_queue.h:31-41 | a push's value enters the queue if and only if tail still points to its node when it stores the value; otherwise it lands in an emptied node |
| HlQueueRuns.PushIsLost | include/sync_queue.h:31-66 | a run in which a completed push's value never enters the queue |
| HlQueue.SetTailKeeps | include/sync_queue_base.h:99-104 | moving the tail, by the pusher or a helper, keeps the chain |
| HlQueue.PassHeadKeeps | include/sync_queue.h:64-66 | moving the head claims the first node, which is filled, and keeps the chain |
| HlQueue.StepKeeps | include/sync_queue.h:22-72 | every step keeps the chain invariant |
| HlQueueObject.QueueObject.IncreaseTailCount | include/sync_queue_base.h:60-68 | on return the tail is the returned counted pointer and the thread may fill its node |
| HlQueueObject.QueueObject.SetNewTail | include/sync_queue_base.h:99-110 | on return the tail is no longer at the node; alone, it is at a node without data |
| HlQueueObject.QueueObject.Push | include/sync_queue.h:22-52 | against any finite interference push returns, having stored its value into a node without data; the value enters the queue, once, if the tail was still at that node, and otherwise a pull had emptied the node and the value is lost; alone it always enters, as the last one |
| HlQueueObject.QueueObject.Pull | include/sync_queue.h:54-72 | against any finite interference pull returns; one step of the call decides it, a tail load that finds the queue empty, or a move of head that takes the first value off; alone it takes the first value of the queue as it was at the call, or nothing exactly if there was none |
| NormalQueueRuns.NodesSafe | include/sync_queue.h:117-190 | no run touches a deleted node or takes data from a node without data |
| NormalQueueRuns.FifoOrder | include/sync_queue.h:117-190 | pushed = pulled followed by what remains, in order, across any closes |
| NormalQueueRuns.ContentsLinked | include/sync_queue_base.h:117-195 | what remains is stored in order in the nodes linked from head to tail |
| NormalQueueRuns.Linearizable | include/sync_queue.h:117-190 | each thread's completed pushes and pulls are its events in these orders, each once |
| NormalQueueRuns.StepRefines | include/sync_queue.h:117-190 | a push's move of tail appends its value to the contents and its event to the pushes, a pull's move of head takes the first value off and appends its event to the pulls, and no other step changes contents or histories |
| NormalQueueRuns.SnapshotVerdict | include/sync_queue_base.h:140-165 | head equals the snapshot exactly if the queue was empty at the snapshot; if not, the queue is still not empty at the comparison and up to the pop |
| NormalQueueRuns.ClosedVerdict | include/sync_queue_base.h:159-165 | a pull that has waited gives up if and only if closed_ is set at its second look, whatever the contents; if not, there is a value to take; nobody is told "closed" by an open queue |
| NormalQueueRuns.ClosedWithValue | include/sync_queue_base.h:159-165 | a run in which a pull gives up although the queue holds a value |
| NormalQueue.SnapKeeps | include/sync_queue_base.h:140-150 | the snapshot of the tail is taken under the tail mutex with the verdict exact at that moment |
| NormalQueue.HeadIsTail | include/sync_queue_base.h:146-150 | head equals tail exactly if nothing is left |
| NormalQueueRuns.NoSharedNode | include/sync_queue_base.h:167-195 | a pop and a push in their critical sections are at different nodes, and there is one of each at most |
| NormalQueueRuns.NothingLeaks | include/sync_queue_base.h:117-195 | at rest the allocated nodes are those from head to tail |
| NormalQueue.StepKeeps | include/sync_queue.h:117-190 | every step keeps the invariant of locks, places and threads |
| NormalQueueWakes.WokenByNotify | include/sync_queue_base.h:155-165 | a sleeping pull goes on exactly at the notify_all of a close, or at the notify_one of a push that chooses it |
| NormalQueueWakes.CanWake | include/sync_queue.h:109-132 | in every reachable state the operations under way can wake a sleeping pull if and only if one of them is a push that will not be refused, or a close, before its notify; what the queue holds does not matter |
| NormalQueueWakes.LostWakeUp | include/sync_queue_base.h:155-165 | a run in which a push notifies between a pull's test and its sleep: the pull sleeps beside the value, at an open queue, and nothing under way can wake it |
| NormalQueueWakes.LostClose | include/sync_queue.h:109-113 | in the same way a pull sleeps at a closed queue |
| NormalQueueWakes.NoneLost | include/sync_queue.h:109-132 | in every run in which no notify falls between a test and its sleep: while a pull sleeps at an open queue, the values are no more than the operations that will still wake a pull, look, or take one; while one sleeps at a closed queue, a close is about to wake it; at rest one sleeps only at an empty open queue |
| NormalQueueObject.QueueObject.Push | include/sync_queue.h:117-132 | refused exactly if the queue is closed at its look; otherwise one step of the call puts the value behind the others, and its last step is the notify, which wakes a sleeper if there is one; alone the contents grow by exactly the value |
| NormalQueueObject.QueueObject.TryPush | include/sync_queue.h:165-177 | never refused: one step of the call puts the value behind the others, closed or not, and its last step is the notify |
| NormalQueueObject.QueueObject.Append | include/sync_queue.h:121-130 | the common part: it returns, one step of it puts the value behind the others, and its last step is the notify, which wakes a sleeper if there is one |
| NormalQueueObject.QueueObject.NotifyElem | include/sync_queue_base.h:203 | wakes a sleeper if and only if there is one, and returns |
| NormalQueueObject.QueueObject.CloseQueue | include/sync_queue.h:109-113 | the first step of the call closes the queue, and when the close returns nobody sleeps |
| NormalQueueObject.QueueObject.WaitForTail | include/sync_queue_base.h:140-157 | its verdict says whether the contents were empty at its snapshot, a state of the call, and nothing is pulled from then on |
| NormalQueueObject.QueueObject.Pop | include/sync_queue_base.h:167-195 | one step of the call takes off the value that was first when it began, whatever is pushed meanwhile, and that value is returned |
| NormalQueueObject.QueueObject.TryPull | include/sync_queue.h:151-163 | returns the first value, which a later step takes off, or nothing exactly if the queue is empty, at its snapshot, a state of the call; alone with free mutexes it does that to the queue as it was at the call |
| NormalQueueObject.QueueObject.Pull | include/sync_queue.h:134-149 | at its second look at closed_, a state of the call, a closed queue yields nothing, whatever it holds, and an open one its first value, which a later step takes off; it is stuck only asleep, with no operation under way that will notify, which can happen beside a value or at a closed queue; alone with free mutexes it is not stuck at a closed queue or one with a value |
| NormalQueueObject.QueueObject.AwaitElement | include/sync_queue_base.h:155-165 | each round tests under the head mutex and sleeps until a notify; it ends at a queue that is not empty or closed, or asleep with no notify to come |
| NormalQueueObject.QueueObject.TestQueue | include/sync_queue_base.h:154-161 | the test of the wait, under the head mutex; alone with free mutexes it goes on exactly if the queue is closed or not empty, and else to sleep |
| RwLock.WordEncodesHolders | include/rw_lock.h:40-72 | the word is 0 with exactly one writer and no reader, or R_FREE + r with r readers and no writer, and r is at most 2^24 |
| RwLock.NeverWraps | include/rw_lock.h:44-67 | the free bit is set exactly if there is no writer and fewer than 2^24 readers, so neither the addition nor the subtraction wraps |
| RwLock.Exclusion | include/rw_lock.h:40-72 | a writer is alone |
| RwLock.FreeBitMeaning | include/rw_lock.h:44 | what the bit test says about the holders |
| RwLock.NumberReturned | include/rw_lock.h:47 | with r readers the returned number is at most r, and r if and only if every hexadecimal digit of r is 0 or 1 |
| RwLock.TwoReaders | include/rw_lock.h:47 | the number is right for one reader and too small for two |
| RwLock.StepKeeps | include/rw_lock.h:40-72 | every step keeps the encoding |
| RwLockObject.LockObject.ReadAcquire | include/rw_lock.h:40-52 | against any finite interference, after which holders leave, it returns as a reader; its number is the masked word, and equals the number of readers exactly if each hexadecimal digit of that is 0 or 1 |
| RwLockObject.LockObject.ReadRelease | include/rw_lock.h:64-67 | takes exactly one off the word |
| RwLockObject.LockObject.WriteAcquire | include/rw_lock.h:54-62 | in the same way, also with spurious failures, it returns as the writer and only holder |
| RwLockObject.LockObject.WriteRelease | include/rw_lock.h:69-72 | the lock is free |
| CtrPool.TasksConserved | include/thread_pool_base.h:94-170 | each submitted task is in exactly one of the main queue, one local queue, a thread's hand, a thread's stack or finished, and has started at most once |
| CtrPool.StepKeeps | include/thread_pool_base.h:94-170 | every step keeps each task in its one place |
| CtrPool.ProbesEachOnce | include/thread_pool_base.h:103-104 | for any index and queue count the scan probes every queue exactly once, its own last |
| CtrPool.FailedSearch | include/thread_pool_base.h:151-160 | when a search for a task fails, every task submitted before the search began has left the queues: some thread holds it, runs it or has finished it |
| CtrPool.OldStaysOut | include/thread_pool_base.h:163-170 | a queue only ever gains new tasks |
| CtrPool.TakesInOrder | include/sync_queue_base.h:223-239 | in every run a search takes, of the main queue, the oldest task, and of a worker's queue, the newest |
| CtrPool.OrderKeeps | include/sync_queue_base.h:223-239 | every step keeps the main queue in the order of submission and each worker's queue in the opposite one |
| CtrPool.OwnTaskNext | include/thread_pool_base.h:151-170 | a worker that searches right after its own submission takes exactly that task |
| CtrPool.OutsideTaskLast | include/thread_pool_base.h:163-170 | a task from outside the pool goes behind all that are in the main queue |
| CtrPoolObject.Pool.Submit | include/thread_pool_base.h:163-170 | a worker's task goes in front of its own queue, another thread's behind the main one |
| CtrPoolObject.Pool.FromLocalTasks | include/thread_pool_base.h:94-97 | takes the front of the own queue, nothing exactly if there is none or it is empty |
| CtrPoolObject.Pool.FromMainTasks | include/thread_pool_base.h:99 | takes the front of the main queue, nothing exactly if it is empty |
| CtrPoolObject.Pool.ProbeQueue | include/sync_queue_base.h:232-239 | takes the front of the probed queue, nothing exactly if it is empty |
| CtrPoolObject.Pool.StealFromOtherTasks | include/thread_pool_base.h:101-109 | takes one task, or leaves no task in any queue that was submitted before the search |
| CtrPoolObject.Pool.TryExecutingOne | include/thread_pool_base.h:151-160 | the task it finds was the front of its source at a step of the call, and each earlier source, in the order own queue, main queue, the others by offset, was empty when the search looked at it; it had not been finished before, does what its script says, and is finished once; a search that finds none saw each source empty and leaves no older task in any queue; alone it takes the front of the first source that has a task |
| CtrPoolObject.Pool.RunTask | include/thread_pool_base.h:156 | the task runs on top of what the thread is running, makes the submissions and searches of its script in their order, and the thread comes back to what was below |
| ForEach.ChunkFits | include/con_algo.h:66-86 | no chunk is empty or runs past the end, and the chunks go from the first element to the end |
| ForEach.ChunksTile | include/con_algo.h:66-86 | every element is in one chunk and in no other, for any length whose chunk count is not zero |
| ForEach.ChunkSizes | include/con_algo.h:61-71 | every chunk but the last has two elements; the last has one or two if and only if the length is below 2^33 - 1, and then the count is half the length, rounded up |
| ForEach.NoChunks | include/con_algo.h:62-63 | the 32-bit chunk count is zero exactly for the lengths that are 0 or -1 modulo 2^33 |
| ForEachRuns.EveryElementOnce | include/con_algo.h:57-90 | when the call returns, in any order of the tasks, the function has been applied to every element exactly once if and only if the length is zero or not one of those; otherwise to none |
| ForEachRuns.NoElementShared | include/con_algo.h:72-77 | no iterator leaves the range, no two tasks work on one element, none is done twice |
| ForEachRuns.HugeRangeSkipped | include/con_algo.h:62-66 | on 2^33 elements the call returns without applying the function |
| ForEachRuns.CanReturn | include/con_algo.h:60-89 | from every reachable state the call can go on to return if and only if all its tasks have ended, or some worker runs a task or will still test the queue, or a notify is still to come and the pool has a worker |
| ForEachRuns.LostWakeUp | include/con_algo.h:60-89 | one element and one worker of the default pool: the caller's notify falls between the worker's test and its sleep, and from then on no run changes anything |
| ForEachRuns.NeverStranded | include/thread_pool_base.h:24-63 | with a worker, a call is at no moment stranded on the controlled pool, and on the default pool in every run in which no notify falls between a worker's test and its sleep |
| ForEachRuns.FairReturn | include/con_algo.h:60-89 | under every fair infinite schedule, in which a sleeping worker's turn does nothing, the call returns if and only if it is at no moment stranded |
| ForEachRuns.PunctualReturn | include/con_algo.h:60-89 | on the default pool, under every fair schedule in which no notify falls between a test and its sleep, the call returns if and only if it has no chunk to submit or the pool has a worker |
| ForEachRuns.PollingReturn | include/thread_pool_base.h:111-160 | on the controlled pool, whose workers never sleep, it returns under every fair schedule if and only if it has no chunk to submit or the pool has a worker |
| ForEachRuns.FairScheduleExists | include/con_algo.h:60-89 | every range and every pool have a fair schedule |
| ForEachRuns.NoWorkerBlocks | include/con_algo.h:88-89 | with a chunk submitted and no worker the call never returns, and once it waits nobody can take a step |
| ForEachRuns.BlockedOnOne | include/con_algo.h:60-89 | the shortest such run: one element and no worker |
| ForEachRuns.ExactWork | include/con_algo.h:57-90 | every schedule that returns has made exactly 2n + 5c + 2 productive steps on n elements in c chunks, and none makes more; with a worker's tests, sleeps and wake-ups the steps that change anything are bounded too |
| ForEach.StepKeeps | include/con_algo.h:66-89 | every step keeps the invariant of chunks, cursors and cells |
| ForEachObject.ForEachCall.RunTask | include/con_algo.h:73-76 | a task walks to the end of its chunk, and its worker stays with it |
| ForEachObject.ForEachCall.SubmitAll | include/con_algo.h:64-87 | the loop submits exactly the counted chunks, with every chunk in its place |
| ForEachObject.ForEachCall.Get | include/con_algo.h:89 | returns when the task has ended, or blocks for ever exactly if the call is stranded: the default pool's workers all sleep or are about to, or there is none |
| ForEachObject.ForEachCall.ForEachElement | include/con_algo.h:55-90 | blocks for ever exactly if the call is stranded: always with a chunk and no worker, never without a chunk or with a worker of the controlled pool; if it returns, the array holds the results if the length is covered and is untouched if not; in all cases no element is worked on twice |

## Left out

- Memory orders: every atomic access takes effect at once and in one order; a relaxed access is not weaker here than a sequentially consistent one.
- Integer width of the counts in `hl_stack` and `hl_queue`: they are unbounded.
- HlQueueObject.QueueObject.Push: does not say that every pushed value is pulled, because that is false; `HlQueueRuns.StoredIffTailStays` has the exact condition and `HlQueueRuns.PushIsLost` a run.
- Reclamation in `hl_queue`: `normal_release_ref` and `ends_release_ref` are left out and nodes are never reused, because `ends_release_ref` repeats while its CAS succeeds (include/sync_queue_base.h:93), so safe freeing does not follow.
- Progress of the lock-free loops: push and pull are shown to return against finitely many steps of other threads; two pulls can keep failing each other's CAS for ever.
- Starvation: the spins of `rw_sp_lock` end when the others' finitely many steps are over and the holders leave; under endless traffic they need not.
- Condition variables: a sleeper wakes by a notify only; spurious wake-ups, which may happen but need not, are left out. Which sleeper a notify wakes is open.
- NormalQueueObject.QueueObject.Pull: does not say that it returns at a queue with a value or at a closed one, because that is false; `NormalQueueWakes.CanWake` has the exact condition, `NormalQueueWakes.LostWakeUp` and `NormalQueueWakes.LostClose` have runs.
- ForEachObject.ForEachCall.ForEachElement: does not say that it returns when the pool has a worker, because that is false; `ForEachRuns.CanReturn` has the exact condition and `ForEachRuns.LostWakeUp` a run.
- Mutexes: a free mutex goes to any thread that tries it, in no order.
- Exceptions: `push` on a closed queue is an answer; a throwing copy, task or function object is not modelled.
- Clients of `rw_sp_lock` and `mcs_lock` that release what they do not hold.
- `std::partition`: any rearrangement with the smaller elements first; `PartitionList` is one of them.
- Identity of objects: values and elements of the queues, stacks and the sort are integers; list splicing is concatenation, so aliasing of list nodes is not captured.
- The linked nodes of a class are kept in a map or sequence from addresses to nodes, which stands for the heap; aliasing shows as equal addresses.
- Function objects in `parallel_for_each` that change when they are moved from (include/con_algo.h:72): the function is a mathematical function.
- ForEachRuns.EveryElementOnce: ranges longer than 2^64 - 1, which `unsigned long` cannot count.
- `try_steal` of the stealing queue: the pool takes from the front everywhere (include/thread_pool_base.h:105).
- The scan index as a 32-bit sum: worker numbers and queue counts are far below 2^31.
- Pool construction, joining and interruption; `wrapper_thread`, `joiner`, thread-local pointers left by another pool.
- The `pull` overload of `normal_queue` that returns a shared pointer: it differs only in how the value is handed out.
- `ll_stack`: its CAS helpers take the expected pointer by value (include/sync_stack_base.h:35-53), so its loops do not do what their callers expect.
- The destructor of `hl_stack`, which does not free what the stack still holds, and of `mcs_lock`.
- `rw_seqlock`: unlock subtracts where a sequence lock adds (include/rw_seqlock.h:59).
- `rcu`: its count mask is 0x00111111 (include/rcu.h:26), so its lifetimes do not follow.
- `tuple`, `variant`, `any`, `function`, `td_vec`, `simple_spinlock`, type traits: template plumbing or easy members.
- `t_future`, dispatcher, sender, receiver, benchmarks: library behaviour that is not part of this model.
