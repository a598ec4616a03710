# Verification of the event library

A Dafny model of `ServClientLibrary`, the library's hand-built concurrency and event core, with
proofs of what it is built to guarantee. It models the build chosen in `XLDependency.h:12-14`
(C++11), except for the recursive mutex, which is the non-C++11 path.

Threads are modelled as state machines: each thread has a position in its code, a step is one
access to shared state (a lock, an erase, a size check, hooking a node in, a Give, a Take, one part
of a pop), and a theorem about a run quantifies over every schedule. Memory is sequentially
consistent. Sequential code that works on objects is modelled as classes whose methods carry the
source's loops and assignments and are proved against functions on sequences; the claims about
whole runs are proved about those functions.

| file | what it models |
|---|---|
| `LockFreeQueue.dfy` | `XLLFQ`: the accesses of push and pop (`WStep`, `RStep`), one writer against one reader, and the class run undisturbed |
| `EventQueue.dfy` | `XLEventQueue`: Put and Get of any number of threads over that queue, two mutexes and a semaphore (`Run`) |
| `QueueLedger.dfy`, `QueueAlone.dfy` | where every event given to Put is; Put and Get undisturbed |
| `ThreadPool.dfy`, `JobLedger.dfy`, `PoolWork.dfy`, `AddJobs.dfy`, `PoolShutdown.dfy` | `XLThreadPool` on top of the event queue (`Go`); where every job is; that workers are started and get the jobs done; what one call of AddJob does; what Destroy achieves |
| `SemaPhore.dfy` | the C++11 `XLSemaPhore`, with spurious wakeups and barging, and the atomic counter it refines |
| `RecursiveMutex.dfy` | `XLMutex` over a one-permit semaphore |
| `ServingThread.dfy` | the hand-off of accepted sockets through two queues, and broadcasts |
| `Broadcasts.dfy`, `Stranded.dfy` | that every broadcast is sent, and to whom; for which bounds a client can be left waiting |
| `Scheduler.dfy`, `TickHandshake.dfy` | the windows of `CScheduler`; the semaphore that serialises its ticks |
| `TickLoss.dfy` | for which bounds and posters a tick can be lost |
| `ListModel.dfy`, `LinkedList.dfy` | the list with self-repairing iterators: on sequences, and in the heap |
| `AutoPtr.dfy`, `HandleRuns.dfy` | `XLSharedSmPtr`: in the heap, and whole runs of handles |
| `ThreadEvent.dfy` | `XLThreadEvent`: shared buffers, Write, Read, the byte form |
| `EventHandles.dfy`, `EventTraffic.dfy` | the counted handle inside an event, over whole runs; two threads that send and receive events |
| `Observer.dfy`, `ObserverObjects.dfy` | `IObserver2`/`ISubject2`: agreement over whole runs, and the objects |
| `Basics.dfy` | options, step outcomes, sums over threads, small sets |

Some of what the library seems to promise does not hold of the code. Each such claim is proved with
its exact condition:

- Destroying a pool can wait for ever: an Exit event that a full queue turns away is not put again
  (`PoolShutdown.DestroyNeverHangsIff`).
- An event sent in a buffer of exactly its size, which is what `ConvertIntoCharBuffer` makes,
  arrives without its payload (`ThreadEvent.RoundTripIff`).
- `Size()` does not go down with `Delete` (`ListModel.RobustIterators`).
- A job on the edge of a window, or between the two clock readings of one tick, never fires
  (`Scheduler.MissedIff`; `Scheduler.EdgeJobNeverFires` is such a run).
- A scheduler started on any day but the one it had, which is day 0 for a new one, takes the hour
  for 0, and its first tick fires jobs of hours before the start (`Scheduler.OldJobsFireIff`;
  `Scheduler.OldJobFires` is such a run).
- A handle that wraps null must not be copied or assigned from (`HandleRuns.CopyIsSafeIff`,
  `HandleRuns.AssignIsSafeIff`).
- For the same reason an event on a counter of null must not be copied
  (`EventHandles.CopyingIsSafeIff`). `XLServingThread::Send` posts one if its message is null
  (`EventTraffic.Send`): the null pointer wipes the id already written and with it the buffer, and
  the queue copies the event (`XLEventQueue.cpp:69`). The Put after that uses a deleted counter
  (`EventHandles.WriteNothingThenPostFails`).
- The listening thread passes on the same event for every message: its own event is as long as a
  message, so its byte form never fits one and `ReadFrom` ignores them all
  (`EventTraffic.RunProgram`).
- A job that a full queue turns away is lost: AddJob does not look at the result of Put
  (`JobLedger.EveryJobIsSomewhere` counts such jobs).
- An ALARM_INPUT that a full queue turns away takes the only alarm permit with it
  (`TickHandshake.OneTick`), which no schedule does if and only if the queue has room for one event
  and nobody else posts (`TickLoss.NeverLostIff`).
- An ACCEPT_INCOMING event that is turned away leaves a client waiting
  (`ServingThread.EveryoneServedIff`); that can happen without any socket refused exactly if the
  socket queue may hold more than the event queue, or others post (`Stranded.NeverStrandsIff`).
- In the C++11 semaphore the count given to `Create(c)` is the number of free permits, but
  `Create(c, m)` starts with m - c (`SemaPhore.NoWakeupIsLost`).

## Model

The main results come first; below them, file by file, are the operations and the steps that carry
the results.

| member | source | states |
|---|---|---|
| EventQueue.PermitConservation | ServClientLibrary/XLEventQueue.cpp:60-131 | Over every run of any number of Put and Get callers with any flags: live elements = free permits + writers that pushed and have not given + readers that took and have not popped; permits are never negative; no freed memory is used; no Get returns without an event; events leave in the order they entered; the bounds of the queue hold. |
| EventQueue.StepRefinesFifo | ServClientLibrary/XLEventQueue.cpp:60-101 | The concurrent queue refines an atomic bounded FIFO: each step appends the event its own caller passed to Put, or takes the oldest one for its own caller, or turns its own caller's event away, or changes nothing a caller can see. |
| EventQueue.CallIsShort | ServClientLibrary/XLEventQueue.cpp:60-101 | No call goes on for ever: in every interleaving with any number of other callers, a Put or Get is over after at most maxSize + 9 steps of its own thread. |
| QueueLedger.EveryEventIsSomewhere | ServClientLibrary/XLEventQueue.cpp:60-101 | Over every run, told by nothing but calls made and results collected: each Put called with an event is still under way with it, or was turned away, or the event is queued, in the hands of a Get under way, or was returned by a Get; nothing is lost, made up or returned twice. |
| LockFreeQueue.SpscFifo | ServClientLibrary/LockFreeQueue.h:19-60 | For every interleaving of one writer and one reader, access by access: no freed node is ever touched; values taken out followed by values still queued are the accepted pushes in order; what pop has returned is a prefix of what was taken out and lags by at most one; at most maxSize elements are live and at most maxSize + 1 nodes stored. |
| PoolShutdown.DestroyNeverHangsIff | ServClientLibrary/XLThreadPool.cpp:147-176 | Destroy gets all workers to return under every scheduling if and only if, when it is called, queued events + workers <= the queue's bound. Otherwise some run leaves Destroy waiting for ever. |
| ThreadPool.JobConservation | ServClientLibrary/XLThreadPool.cpp:39-144 | In every reachable state the accepted events are exactly those queued, those in one worker's hands and those done with, counted with multiplicity: no job is lost or run twice; the thread list never exceeds m_iNumMaxThread, with any number of adders racing through the double check and with Destroy racing AddJob. |
| JobLedger.EveryJobIsSomewhere | ServClientLibrary/XLThreadPool.cpp:39-144 | In every reachable state, of every job ever given to AddJob each copy is with its caller, or was turned away by the queue, which AddJob does not notice, or is queued, in a worker's hands or done with; no copy is in two places. |
| PoolWork.WorkersStarted | ServClientLibrary/XLThreadPool.cpp:92-136 | In every reachable state a pool that is not dynamic has its maximum of workers, and a dynamic one has one for each call of AddJob that is past the decision, up to the maximum; so with a maximum of at least one there is a worker as soon as a job is accepted. |
| PoolWork.EverythingDone | ServClientLibrary/XLThreadPool.cpp:39-144 | Before Destroy, in every reachable state where nothing moves, with a maximum of at least one: every accepted job is done with, every job ever given to AddJob was turned away or is done with, and a worker called its Work as often as that. |
| AddJobs.AddJobIsShort | ServClientLibrary/XLThreadPool.cpp:120-144 | No call of AddJob goes on for ever: whatever workers, other callers and Destroy do meanwhile, it is over after at most maxSize + 15 steps of its own thread. |
| ThreadPool.ReturnedMeansDrained | ServClientLibrary/XLThreadPool.cpp:147-176 | After Destroy, when all workers (at least one) have returned: each has consumed exactly one Exit, none was turned away, nothing is queued or in hand, and the events done with are those accepted. |
| PoolShutdown.StuckOutcome | ServClientLibrary/XLThreadPool.cpp:147-176 | Where a run after Destroy can go no further, all accepted jobs have been run and the queue is empty, as many workers have returned as Exits were accepted, and all have returned if and only if none was turned away. |
| ServingThread.HandOff | ServClientLibrary/XLServingThread.cpp:119-240 | Over every run of acceptor, server and posters: sockets waiting + sockets m_IncomingQueue turned away = queued ACCEPT_INCOMING events + events being announced + events being served + events that found no socket + events turned away; an event finds no socket at most as often as a socket was turned away; clients come in the order of acceptance, none twice, and as a gapless prefix while no socket was turned away, whatever happens to events; each broadcast reaches each client of its moment once. |
| ServingThread.EveryoneServedIff | ServClientLibrary/XLServingThread.cpp:119-240 | With nothing on its way and no socket turned away, accepted sockets = clients + ACCEPT_INCOMING events turned away; everyone is served if and only if no event was. |
| Broadcasts.EveryBroadcastIsSent | ServClientLibrary/XLServingThread.cpp:148-163 | Over every run: the BROADCAST events taken from the queue are those that were sent and the one the server is at; as long as m_IncomingQueue turned no socket away, each reached exactly the clients whose ACCEPT_INCOMING was taken before it, once each. |
| Broadcasts.EveryPostIsSomewhere | ServClientLibrary/XLServingThread.cpp:119-206 | Over every run, of every event but ACCEPT_INCOMING: each that anybody posted is still being put, or was turned away, or is queued, or was taken. |
| Broadcasts.AllSentAtRest | ServClientLibrary/XLServingThread.cpp:119-206 | Wherever a run has come to rest, the server waits for the next event and every BROADCAST that anybody posted was sent or turned away. |
| Stranded.NeverStrandsIff | ServClientLibrary/XLServingThread.cpp:119-240 | No schedule that refuses no socket leaves an ACCEPT_INCOMING event turned away, if and only if the socket queue takes nothing or its bound is at most that of the event queue and nobody else posts. |
| SemaPhore.NoWakeupIsLost | ServClientLibrary/XLSemaPhore.cpp:17-208 | Any number of Take and Give callers, spurious wakeups and barging included: free permits = initial + Gives - completed Takes, never negative if not so at the start; while some waiter sleeps un-notified, free permits <= waiters notified and not yet resumed + givers about to notify. Create(c) starts with c permits, Create(c, m) with m - c. |
| SemaPhore.SleepersHaveNoPermit | ServClientLibrary/XLSemaPhore.cpp:134-146 | Where no thread can move of itself, the threads still inside a call are asleep in Take, and only for lack of a permit. |
| SemaPhore.RefinesAtomicCounter | ServClientLibrary/XLSemaPhore.cpp:17-208 | Every run, seen from outside, is a run of an atomic counter: each call is begun, counted in one indivisible step, and over; a Take counts only a permit that is free at that moment. So the one-step Take and Give of the event queue stand for the real ones. |
| RecursiveMutex.MutualExclusion | ServClientLibrary/XLMutex.cpp:61-124 | Any number of threads calling Lock and Unlock as they like, with unprotected reads of mThreadId and split reads and writes of mCount: at most one thread is inside; between its calls mCount is its depth and mThreadId its id; the semaphore's permit is there exactly when no thread has it. |
| RecursiveMutex.LockedByOne | ServClientLibrary/XLMutex.cpp:61-124 | Told by nothing but which calls have returned, over every run of any number of threads: at most one thread has had more Locks return than Unlocks return true, no thread fewer, and between its calls mThreadId names that thread and mCount is how many more. |
| RecursiveMutex.WaitersWaitForAnOwner | ServClientLibrary/XLMutex.cpp:80-86 | Where nothing moves, a thread waiting in Lock waits for another thread that is inside and between calls: the mutex itself never jams. |
| TickHandshake.OneTick | ServClientLibrary/Scheduler.cpp:100-132 | Over every run, with any number of alarm threads and other posters: free alarm permits + ticks taken and not queued + queued ALARM_INPUT events + ticks in the loop's hands + ALARM_INPUT events turned away = 1. So ticks never overlap, and with one turned away there is none at all. |
| TickLoss.NeverLostIff | ServClientLibrary/Scheduler.cpp:100-132 | With at least one alarm, no schedule has an ALARM_INPUT turned away if and only if the queue's bound is at least 1 and nobody else posts. |
| Scheduler.FiresExactlyOnce | ServClientLibrary/Scheduler.cpp:82-132 | Over every run of ticks with a non-decreasing clock within the day, in terms of the calls alone: successive windows do not overlap; a job given to Add for the day fires if and only if its time lies strictly inside the window of a tick after it was given, and then once; jobs fire in the order of their times. |
| Scheduler.MissedIff | ServClientLibrary/Scheduler.cpp:111-130 | A stored job whose time has come is missed if and only if that time lies between the two clock readings of one tick, edges included. |
| ListModel.RobustIterators | ServClientLibrary/LinkedList.h:68-216 | After any sequence of insertions, removals, Delete, Clear, iterator moves, registrations and deregistrations, every registered iterator is null exactly when the list is empty and otherwise at a node of the list; Size() exceeds the length by the number of node Deletes since the last Clear. |
| HandleRuns.CountsAreExact | ServClientLibrary/XLAutoPtr.h:31-116 | Over every run of create, copy, assign, set and destroy in which handles of null are not copied and each object is given to one handle: no deleted counter is used; the count of a counter with an object is the number of its handles and positive, while a counter of null has count 0 and one handle; no object is deleted twice or while a handle refers to it; when no handle is left every object was deleted. |
| HandleRuns.CopyIsSafeIff | ServClientLibrary/XLAutoPtr.h:89-96 | A copy is safe for every later order of destructions if and only if the handle copied does not wrap null. |
| HandleRuns.AssignIsSafeIff | ServClientLibrary/XLAutoPtr.h:98-116 | Assignment from another handle is safe for every later order of destructions if and only if that handle does not wrap null. |
| EventHandles.BuffersLiveLongEnough | ServClientLibrary/XLEvents.h:18-231 | Over every run of constructions (from a size too), copies, assignments, Reset, SetData, AddData, ReadFrom, handles taken by GetDataPtr, and destructions of any number of events, in which nothing on a counter of null is copied or assigned from: no deleted counter is used, no buffer is freed twice or while an event refers to it, and all are freed when no event is left. |
| EventHandles.CopyingIsSafeIff | ServClientLibrary/XLEvents.h:39-45 | Copying an event is safe for every later order of destructions if and only if its handle is not on a counter of null. |
| EventHandles.AssigningIsSafeIff | ServClientLibrary/XLEvents.h:46-56 | Assigning from another event is safe for every later order of destructions if and only if that event's handle is not on a counter of null. |
| EventHandles.PointerIsSafeIff | ServClientLibrary/XLEvents.h:152 | Taking a handle with GetDataPtr is safe for every later order of ends of events and handles if and only if the event is not on a counter of null. |
| ThreadEvent.RoundTripIff | ServClientLibrary/XLEvents.h:172-214 | For a receiver whose old length fits the buffer, ReadFrom after WriteTo gives the event back if and only if the payload is empty or the buffer is longer than the byte form; in a buffer of exactly that size a payload is dropped and only the type survives. |
| Observer.RegistrationAgreement | ServClientLibrary/IObserver.h:93-269 | After any sequence of constructions, Register, DeRegister(condition), Deregister, SetSubject and destructions over many observers and subjects, a subject's multimap holds (c, o) exactly once if o is alive, belongs to that subject and is registered for c, and not at all otherwise. |
| LockFreeQueue.WriterStep | ServClientLibrary/LockFreeQueue.h:37-47 | Any single access of push is defined whatever the reader does meanwhile; it keeps what both sides rely on, leaves mHead where it is, and frees neither mHead's node nor any node behind it. |
| LockFreeQueue.WriterLive | ServClientLibrary/LockFreeQueue.h:37-47 | The elements change at one access of push only, the hooking of the new node, and there by the pushed value at the back. |
| LockFreeQueue.HeadDataKept | ServClientLibrary/LockFreeQueue.h:37-47 | No access of push changes what mHead points to, so a reader that has moved mHead on and not yet copied still finds its value. |
| LockFreeQueue.ReaderStep | ServClientLibrary/LockFreeQueue.h:49-60 | Any single access of pop is defined whatever the writer does meanwhile and keeps what both sides rely on; nodes are never changed by a reader. |
| LockFreeQueue.ReaderLive | ServClientLibrary/LockFreeQueue.h:49-60 | The elements change at one access of pop only, the move of mHead, and there by the oldest, which stays readable through mHead; pop finds no successor exactly when there is no element at that moment. |
| LockFreeQueue.XLLFQ.constructor | ServClientLibrary/LockFreeQueue.h:19-25 | A new queue is empty and bounded by INT_MAX. |
| LockFreeQueue.XLLFQ.SetMaxSize | ServClientLibrary/LockFreeQueue.h:27-30 | Sets the bound of any queue, of whatever content, and leaves the content; a negative argument becomes the unsigned number of the same bits. |
| LockFreeQueue.XLLFQ.Push | ServClientLibrary/LockFreeQueue.h:37-47 | Run alone, push succeeds if and only if fewer than mMaxSize elements are live, then appends the value and otherwise changes no element; it is the micro-step push run to its end. |
| LockFreeQueue.XLLFQ.Pop | ServClientLibrary/LockFreeQueue.h:49-60 | Run alone, pop takes the oldest element, or fails exactly on an empty queue; it is the micro-step pop run to its end. |
| LockFreeQueue.XLLFQ.Size | ServClientLibrary/LockFreeQueue.h:62-65 | size() counts the dummy and consumed nodes not yet erased: at least one more than the live elements, and exactly one more if and only if the head is the first node stored; within the bound at most mMaxSize + 1. |
| EventQueue.RunKeepsInv | ServClientLibrary/XLEventQueue.cpp:60-131 | No single step of any caller misuses memory, and each keeps the invariant that spans the queue, the two mutexes and the semaphore. |
| EventQueue.TakenHasElement | ServClientLibrary/XLEventQueue.cpp:94-97 | A reader that has passed Take and not yet popped has an element to pop, which is why the ignored result of pop is always true. |
| EventQueue.RunDecreases | ServClientLibrary/XLEventQueue.cpp:60-101 | Every step inside a call makes smaller what its own thread has yet to do there plus the consumed nodes still to be erased; the measures of the results on shutdown and on stranded clients are built on it. |
| QueueAlone.PutAppends | ServClientLibrary/XLEventQueue.cpp:60-86 | A Put that no other caller disturbs, whatever Gets stand still: it appends its event and returns true if there is room, and otherwise returns false and changes nothing. |
| QueueAlone.GetTakesOldest | ServClientLibrary/XLEventQueue.cpp:88-101 | A Get that no other Get disturbs, if a permit is free: it takes out the oldest element and returns it. |
| EventQueue.OwnStepShrinks | ServClientLibrary/XLEventQueue.cpp:60-101 | Each step of a call lowers what its thread still has to do at most: positions in the code, and for a push the nodes up to where the head was when it began. |
| EventQueue.OthersLeaveBudget | ServClientLibrary/XLEventQueue.cpp:60-101 | No step of another thread, pops that add to the nodes to erase included, changes that. |
| EventQueue.InsideNeverWaits | ServClientLibrary/XLEventQueue.cpp:104-131 | A thread that holds a lock, or is past it, can always move on. |
| EventQueue.StuckMeansEmpty | ServClientLibrary/XLEventQueue.cpp:60-131 | If no thread can move, every thread is between calls or waits in Take, and one that waits there waits for lack of events: the queue is empty and no permit is free. |
| PoolWork.DoneMeansWorked | ServClientLibrary/XLThreadPool.cpp:39-66 | In every reachable state a job is done with as often as a worker has finished its Work. |
| AddJobs.AddJobAlone | ServClientLibrary/XLThreadPool.cpp:120-144 | AddJob that no other caller disturbs: a dynamic pool below its maximum has one worker more, and the job is the last in the queue if there is room, otherwise turned away; nothing else changes. |
| AddJobs.OwnStepShrinks | ServClientLibrary/XLThreadPool.cpp:120-144 | Each step of a call of AddJob leaves it fewer steps to make at most. |
| AddJobs.OthersLeaveIt | ServClientLibrary/XLThreadPool.cpp:39-176 | No action of another thread changes that. |
| ThreadPool.PoppedExits | ServClientLibrary/XLThreadPool.cpp:165-176 | Once Destroy has begun, with AddJob and Destroy kept apart by the callers, the queue holds jobs first and Exits after them, so the Exits popped are those popped beyond the jobs accepted before. |
| PoolShutdown.GoDecreases | ServClientLibrary/XLThreadPool.cpp:39-176 | After Destroy has begun every step of every thread makes a measure over queued events, Exits to come and unfinished workers smaller. |
| PoolShutdown.RunsAreFinite | ServClientLibrary/XLThreadPool.cpp:39-176 | Hence a run after Destroy makes at most as many moves as that measure says, whatever the scheduling. |
| PoolShutdown.FitsNeverRejects | ServClientLibrary/XLThreadPool.cpp:165-176 | If the events queued when Destroy began and the workers together fit the queue, no Exit is turned away. |
| SemaPhore.StepIsAtomic | ServClientLibrary/XLSemaPhore.cpp:134-208 | Each step of the semaphore is nothing seen from outside, or one atomic step of the same thread. |
| SemaPhore.CallsAlone | ServClientLibrary/XLSemaPhore.cpp:134-208 | A call that nobody disturbs: Take removes a permit and returns, or goes to sleep for lack of one; Give adds one and returns. |
| RecursiveMutex.LockReturnsInside | ServClientLibrary/XLMutex.cpp:61-88 | The step that ends a Lock leaves its thread one level deeper and registered: no Lock returns without the mutex. |
| RecursiveMutex.LockAlone | ServClientLibrary/XLMutex.cpp:61-88 | A Lock of a free mutex that nobody disturbs gets it. |
| RecursiveMutex.OwnerReenters | ServClientLibrary/XLMutex.cpp:70-79 | In every interleaving with other threads, the four steps of Lock by the owner end with one more level, mCount as deep, the owner still registered, the permit not touched, and never a wait. |
| RecursiveMutex.StrangerUnlockDoesNothing | ServClientLibrary/XLMutex.cpp:102-109 | Unlock by a thread that is not inside is one read and a return: neither step changes anything but the thread's place, whatever happens between the two. |
| RecursiveMutex.OwnerUnlocks | ServClientLibrary/XLMutex.cpp:111-123 | In every interleaving with other threads, the steps of Unlock by the owner end one level down with mCount as deep; at the last level, right after its last step, the owner is forgotten, mCount is 0 and the permit is back. |
| RecursiveMutex.Undisturbed | ServClientLibrary/XLMutex.cpp:61-124 | What the owner sees of the mutex (its depth, mThreadId, mCount and the permit) after any interleaving is what its own steps alone would have made of it, as long as it stays inside. |
| ListModel.WalkVisitsAll | ServClientLibrary/LinkedList.h:285-336 | From the front, k times ++ comes to the k-th node, for every k, so no node is skipped; so does -- from the back. |
| ListModel.ForthAndBack | ServClientLibrary/LinkedList.h:285-336 | -- after ++ gives the place back if and only if ++ was not at the end (or the list has one node); likewise the other way round. |
| ListModel.OwnNodeGone | ServClientLibrary/LinkedList.h:400-442 | An iterator whose own node is taken out goes to the node that is now first (removal at the front) or last (at the back); after Delete to the node before, or if there is none to the one that is now first; nowhere when the list is empty. |
| ListModel.IteratorsStay | ServClientLibrary/LinkedList.h:384-449 | A change of the list moves an iterator only if the iterator's own node is taken out. |
| LinkedList.RepairAtDelete | ServClientLibrary/LinkedList.h:426-442 | What an iterator reads from the node's own links, while the list is half unlinked, is the repair the sequence calls for. |
| LinkedList.LinkedList.constructor | ServClientLibrary/LinkedList.h:60-62 | A new list is empty, has no iterators and satisfies the heap invariant. |
| LinkedList.LinkedList.InsertAtBack | ServClientLibrary/LinkedList.h:93-109 | Appends a new node with the data to the sequence; links stay mutually inverse; iterators that were nowhere go to it, the others stay. |
| LinkedList.LinkedList.InsertAtFront | ServClientLibrary/LinkedList.h:110-126 | The same at the front. |
| LinkedList.LinkedList.RemoveFromFront | ServClientLibrary/LinkedList.h:127-148 | Takes the first node out and returns its data, or fails exactly on an empty list; every registered iterator is repaired. |
| LinkedList.LinkedList.RemoveFromBack | ServClientLibrary/LinkedList.h:149-169 | The same at the back. |
| LinkedList.LinkedList.Size | ServClientLibrary/LinkedList.h:186-189 | mElements is the length plus the Deletes since the last Clear. |
| LinkedList.LinkedList.Front | ServClientLibrary/LinkedList.h:170-177 | The first node's data; fails exactly on an empty list. |
| LinkedList.LinkedList.Back | ServClientLibrary/LinkedList.h:178-185 | The last node's data; fails exactly on an empty list. |
| LinkedList.LinkedList.Delete | ServClientLibrary/LinkedList.h:190-216 | Takes an arbitrary member out of the sequence, repairs every registered iterator although they are called back between the change of the ends and the change of the neighbours, and leaves mElements as it was; null does nothing. |
| LinkedList.LinkedList.Clear | ServClientLibrary/LinkedList.h:68-81 | Empties the list and sets every registered iterator to null. |
| LinkedList.LinkedList.CallListener | ServClientLibrary/LinkedList.h:218-224 | Every registered iterator is told once; each ends up where its own repair says, whatever the order. |
| LinkedList.LinkedListItr.constructor | ServClientLibrary/LinkedList.h:250-259 | A new iterator is registered and stands at the front. |
| LinkedList.LinkedListItr.Destroy | ServClientLibrary/IObserver.h:31-38 | A destroyed iterator is registered no longer; the list keeps its invariant. |
| LinkedList.LinkedListItr.Notify | ServClientLibrary/LinkedList.h:384-449 | One iterator's repair from the event, the node's links and the list's ends. |
| LinkedList.LinkedListItr.Next | ServClientLibrary/LinkedList.h:285-310 | From a node to the one right behind it in the sequence, and not past the last one; nowhere stays nowhere. |
| LinkedList.LinkedListItr.Previous | ServClientLibrary/LinkedList.h:311-336 | From a node to the one right before it in the sequence, and not before the first one; nowhere stays nowhere. |
| LinkedList.LinkedListItr.SetToFront | ServClientLibrary/LinkedList.h:269-275 | To the first node, or nowhere on an empty list. |
| LinkedList.LinkedListItr.SetToBack | ServClientLibrary/LinkedList.h:277-283 | To the last node, or nowhere on an empty list. |
| LinkedList.LinkedListItr.DeleteThis | ServClientLibrary/LinkedList.h:261-267 | Takes out the node it is at; all registered iterators, itself among them, are repaired; mElements stays as it was. An iterator that is nowhere changes nothing. |
| LinkedList.InsertAtBackIsOperation | ServClientLibrary/LinkedList.h:93-109 | A call of InsertAtBack, of which nothing is used but its promise, takes the list with all its iterators in the heap to the state ListModel gives for the operation; so RobustIterators speaks of the heap. |
| LinkedList.InsertAtFrontIsOperation | ServClientLibrary/LinkedList.h:110-126 | The same of InsertAtFront. |
| LinkedList.RemoveFromFrontIsOperation | ServClientLibrary/LinkedList.h:127-148 | The same of RemoveFromFront. |
| LinkedList.RemoveFromBackIsOperation | ServClientLibrary/LinkedList.h:149-169 | The same of RemoveFromBack. |
| LinkedList.DeleteIsOperation | ServClientLibrary/LinkedList.h:190-216 | The same of Delete, of any member or of null. |
| LinkedList.ClearIsOperation | ServClientLibrary/LinkedList.h:68-81 | The same of Clear. |
| LinkedList.NewItrIsOperation | ServClientLibrary/LinkedList.h:250-259 | The same of the construction of an iterator. |
| LinkedList.DestroyIsOperation | ServClientLibrary/IObserver.h:31-38 | The same of the end of an iterator. |
| LinkedList.NextIsOperation | ServClientLibrary/LinkedList.h:285-310 | The same of operator++. |
| LinkedList.PreviousIsOperation | ServClientLibrary/LinkedList.h:311-336 | The same of operator--. |
| LinkedList.SetToFrontIsOperation | ServClientLibrary/LinkedList.h:269-275 | The same of SetToFront. |
| LinkedList.SetToBackIsOperation | ServClientLibrary/LinkedList.h:277-283 | The same of SetToBack. |
| LinkedList.DeleteThisIsOperation | ServClientLibrary/LinkedList.h:261-267 | The same of DeleteThis. |
| LinkedList.ValidIsRobust | ServClientLibrary/LinkedList.h:384-449 | In a valid heap every registered iterator is null exactly when the list is empty and otherwise at a node of it. |
| HandleRuns.AssignMoves | ServClientLibrary/XLAutoPtr.h:98-116 | Assignment from any other handle, one of null included, makes the handle point where the other does; the object it held is deleted exactly if it was the last handle on its counter, which it never is when both were on the same one. |
| HandleRuns.NullCopyDangles | ServClientLibrary/XLAutoPtr.h:344-355 | Copying a handle made for null and destroying both uses a deleted counter. |
| AutoPtr.RefCounterObject.AddRef | ServClientLibrary/XLAutoPtr.h:31-37 | Counts one more, unless there is no object. |
| AutoPtr.RefCounterObject.Release | ServClientLibrary/XLAutoPtr.h:44-55 | Counts one less; deletes the object once, and forgets it, exactly when the count reaches zero. |
| AutoPtr.XLSharedSmPtr.ReleaseData | ServClientLibrary/XLAutoPtr.h:344-355 | The handle lets go; counter and object are deleted exactly if it was the last on the counter; the books of all other handles stay right. |
| AutoPtr.XLSharedSmPtr.SetData | ServClientLibrary/XLAutoPtr.h:78-82 | Takes a new object under a new counter; what was held is let go as by the destructor. |
| AutoPtr.XLSharedSmPtr.Copy | ServClientLibrary/XLAutoPtr.h:89-96 | A copy shares the counter of any handle; the count is again the number of handles, except on a counter of null, which stays at 0. |
| AutoPtr.XLSharedSmPtr.Assign | ServClientLibrary/XLAutoPtr.h:98-116 | After assignment from any handle both share one counter, with an exact count unless it is one of null; what was held before is freed only with its last handle, and never when both handles were on the same counter. |
| AutoPtr.XLSharedSmPtr.Destroy | ServClientLibrary/XLAutoPtr.h:84-87 | The destructor frees the object exactly with the last handle. |
| AutoPtr.XLSharedSmPtr.Of | ServClientLibrary/XLAutoPtr.h:67-71 | Construction from an object: the only handle of a new counter. |
| AutoPtr.AssignIsOperation | ServClientLibrary/XLAutoPtr.h:98-116 | A call of Assign, of which nothing is used but its promise, takes handles, counters and objects in the heap to the state HandleRuns gives for the operation, and exactly the objects the operation deletes have been deleted; so CountsAreExact speaks of the heap. |
| AutoPtr.CopyIsOperation | ServClientLibrary/XLAutoPtr.h:89-96 | The same of the copy constructor. |
| AutoPtr.SetDataIsOperation | ServClientLibrary/XLAutoPtr.h:78-82 | The same of SetData. |
| AutoPtr.DestroyIsOperation | ServClientLibrary/XLAutoPtr.h:84-87 | The same of the destructor. |
| AutoPtr.OfIsOperation | ServClientLibrary/XLAutoPtr.h:67-71 | The same of construction from an object. |
| AutoPtr.EmptyIsOperation | ServClientLibrary/XLAutoPtr.h:73-76 | The same of construction from nothing. |
| AutoPtr.DeletedOnce | ServClientLibrary/XLAutoPtr.h:44-55 | So in the heap, after any such calls: no object has been deleted twice, none to which a handle refers, and every object ever given to a handle has been deleted once no handle is left. |
| AutoPtr.NothingTracked | ServClientLibrary/XLAutoPtr.h:61-76 | A heap without handles is such a state: every run of calls starts in one. |
| ThreadEvent.WritesReadBack | ServClientLibrary/XLEvents.h:81-147 | Any sequence of Writes at the current end of a new event yields the concatenation, and Read at each recorded place returns what was written there. |
| ThreadEvent.AppendIsConcat | ServClientLibrary/XLEvents.h:103-147 | Writes at the end of any event append. |
| ThreadEvent.WriteInside | ServClientLibrary/XLEvents.h:103-110 | A Write inside the payload keeps its length, reads back, and leaves every range it does not overlap as it was. |
| ThreadEvent.WriteOutside | ServClientLibrary/XLEvents.h:118-147 | A Write neither inside the payload nor at its end changes nothing and returns false; at the end, null empties the event. |
| ThreadEvent.WhatIsReceived | ServClientLibrary/XLEvents.h:191-214 | For any source, truncated or not: a receiver whose old length does not fit keeps its value; any other gets the type, and a payload if and only if the length read is positive and less than the number of bytes that follow, and then exactly so many of them. |
| ThreadEvent.ByteForm | ServClientLibrary/XLEvents.h:172-189 | The byte form is the type in four bytes, lowest first, the length likewise, and the payload. |
| ThreadEvent.LongReceiverIgnores | ServClientLibrary/XLEvents.h:191-194 | A receiver whose old length does not fit the buffer ignores it. |
| ThreadEvent.XLThreadEvent.FromBytes | ServClientLibrary/XLEvents.h:34-37 | Construction from a buffer is ReadFrom on a new event; a buffer without payload leaves the handle on a counter of null. |
| ThreadEvent.XLThreadEvent.OfSize | ServClientLibrary/XLEvents.h:21-33 | Room for the size in a new buffer; no size leaves the event on a counter of null. |
| ThreadEvent.XLThreadEvent.Copy | ServClientLibrary/XLEvents.h:39-45 | A copy of an event that is not on a counter of null has the same value and the same buffer. |
| ThreadEvent.XLThreadEvent.Assign | ServClientLibrary/XLEvents.h:46-56 | Assignment from an event that is not on a counter of null, or from itself, gives the same value and the same buffer. |
| ThreadEvent.XLThreadEvent.SetData | ServClientLibrary/XLEvents.h:70-79 | The payload becomes the first `length` bytes in a new buffer; null, or a length that is not positive, empties the event, and a buffer given up leaves the handle on a counter of null. |
| ThreadEvent.XLThreadEvent.Read | ServClientLibrary/XLEvents.h:81-90 | Exactly the bytes at the place; failure if and only if they are not all inside. |
| ThreadEvent.XLThreadEvent.Write | ServClientLibrary/XLEvents.h:103-130 | Inside the payload the shared buffer is overwritten in place; at its end the event moves to a fresh buffer and the old one keeps its bytes; the result is true only for a Write inside. |
| ThreadEvent.WriteBesideCopy | ServClientLibrary/XLEvents.h:39-147 | A Write inside is seen by a copy that shares the buffer; an append leaves the copy unchanged and the two apart. For events that are not on a counter of null. |
| ThreadEvent.XLThreadEvent.AddData | ServClientLibrary/XLEvents.h:132-147 | Appends into a fresh buffer; null, or a length that is not positive, empties the event, and a buffer given up leaves the handle on a counter of null. |
| ThreadEvent.XLThreadEvent.WriteTo | ServClientLibrary/XLEvents.h:172-189 | Writes the byte form to the front of the destination and nothing behind it; a destination that is too short stays as it was. |
| ThreadEvent.XLThreadEvent.ReadFrom | ServClientLibrary/XLEvents.h:191-214 | The value becomes what the byte form says, as RoundTripIff and LongReceiverIgnores describe; null changes nothing; without payload the handle ends on a counter of null, whatever it was on. |
| ThreadEvent.XLThreadEvent.ConvertIntoCharBuffer | ServClientLibrary/XLEvents.h:216-221 | A fresh buffer that is the byte form and nothing more. |
| ThreadEvent.XLThreadEvent.Reset | ServClientLibrary/XLEvents.h:223-231 | The event gives its buffer up without touching it; if it had one its handle ends on a counter of null, otherwise it stays where it was. |
| EventHandles.ReadNothingThenCopyFails | ServClientLibrary/XLEvents.h:191-214 | The failing run, from any state: an event that reads a message without payload, a copy of it, and the destruction of both use a deleted counter. |
| EventHandles.ResetThenCopyFails | ServClientLibrary/XLEvents.h:223-231 | The same after Reset of an event that had a buffer. |
| EventHandles.EmptySizedThenCopyFails | ServClientLibrary/XLEvents.h:21-33 | The same of an event made for no size. |
| EventHandles.ResetThenPointerFails | ServClientLibrary/XLEvents.h:152 | After Reset of an event that was on any counter, the end of what GetDataPtr returned takes the counter with it; the end of the event then uses a deleted counter. |
| EventHandles.WriteNothingThenPostFails | ServClientLibrary/XLEventQueue.cpp:60-86 | An event that had a payload is written a null pointer at its end, put into a queue, which copies it to its own event and into a node, and destroyed by its sender: the next Put of any event uses a deleted counter. |
| EventTraffic.Send | ServClientLibrary/XLServingThread.cpp:88-95 | The event sent to one client carries the id and the message; with a null message it is empty, without the id, and on a counter of null. |
| EventTraffic.RunProgram | ServClientLibrary/XLListeningThread.cpp:77-90 | Whatever messages are received, what the listening thread passes on is the event it was made with, every time. |
| EventHandles.PerformMoves | ServClientLibrary/XLEvents.h:18-231 | Each call (construction, copy, assignment, Reset, SetData, AddData, ReadFrom, GetDataPtr, destruction) leaves its event on the kind of counter that the methods of the event promise (no counter, one of null, one of a buffer) and every other event where it was, and makes or ends the event it should. |
| Scheduler.NothingForgotten | ServClientLibrary/Scheduler.cpp:82-132 | Over every run, the jobs stored for a day are those given for it and no others, and the windows are those between the second reading of one tick and the first of the next. |
| Scheduler.EdgeJobNeverFires | ServClientLibrary/Scheduler.cpp:111-130 | The failing run: a job for the very second of a tick fires neither at that tick nor at any later one. |
| Scheduler.WholeSurvivesIff | ServClientLibrary/SchedulerJobs.h:24-33 | A count of seconds survives the clamped decomposition if and only if it lies within one day; the decomposed time always does, so the day-rollover branch is never taken. |
| Scheduler.CScheduler.constructor | ServClientLibrary/Scheduler.cpp:4-9 | A new scheduler has no jobs, day 0, and the clock read as on day 0. |
| Scheduler.CScheduler.Start | ServClientLibrary/Scheduler.cpp:15-26 | Start takes the clock before the day, hence relative to the day it had before; jobs stay. |
| Scheduler.StartLosesTheHour | ServClientLibrary/Scheduler.cpp:134-143 | So the time started with is the time of day only if the day stays the same; on a later day of the week just its minutes and seconds, on an earlier one 0. |
| Scheduler.OldJobsFireIff | ServClientLibrary/Scheduler.cpp:15-26 | Before any tick: a job stored for a time before Start fires at the first tick if and only if the day is not the one the scheduler had before and the job's time lies between the minutes and seconds of Start (or 0, on an earlier day of the week) and the tick. |
| Scheduler.OldJobFires | ServClientLibrary/Scheduler.cpp:15-26 | Such a run: on a new scheduler started on any day but day 0, a job for an hour or more before the start, but behind its minutes and seconds, fires at the first tick. |
| Scheduler.CScheduler.AddAJob | ServClientLibrary/Scheduler.cpp:82-88 | A job is added to those of its day of the week, behind all that are not later and before all that are; the other days stay; null is ignored. |
| Scheduler.CScheduler.AlarmInput | ServClientLibrary/Scheduler.cpp:108-132 | The loop over the day's jobs fires exactly the jobs of the open window, in order; NEXT_DAY_INPUT is never posted; the second reading of the clock becomes the current time. |
| TickHandshake.TicksGetThrough | ServClientLibrary/Scheduler.cpp:100-132 | Where nothing moves, the loop waits for an event, no tick is under way, and an alarm still waits to post its own only if a tick was lost for good. |
| TickHandshake.OwnStepAdvances | ServClientLibrary/Scheduler.cpp:100-132 | Every step outside queue calls, the loop's call of Get apart, brings its thread closer to the end, or into the queue. |
| TickLoss.LossyRun | ServClientLibrary/Scheduler.cpp:100-106 | Otherwise it builds a schedule, for any bound, that ends with an ALARM_INPUT turned away. |
| Broadcasts.OwnStepAdvances | ServClientLibrary/XLServingThread.cpp:119-240 | Every step a thread makes outside queue calls, the call of Get apart, brings it closer to the end of what it is doing, or into the queue: the server always comes back for the next event, the acceptor for the next socket. |
| Broadcasts.OthersLeaveIt | ServClientLibrary/XLServingThread.cpp:119-240 | And no action of another thread sets it back. |
| Broadcasts.PostIsTaken | ServClientLibrary/XLServingThread.cpp:45-53 | Whoever is not posting may post any event but ACCEPT_INCOMING, and it is that event that is offered to the queue. |
| Stranded.StrandingRun | ServClientLibrary/XLServingThread.cpp:119-240 | Otherwise it builds a schedule, for any bounds, after which everything is at rest, no socket was refused, and an accepted client is not served. |
| Observer.RegisterFits | ServClientLibrary/IObserver.h:127-137 | After Register the pair is in the multimap exactly once, registered before or not; every other pair of the observer, and everybody else's entries in their order, stay. |
| Observer.InsertedBehind | ServClientLibrary/IObserver.h:217-225 | A new entry stands behind every entry whose key is not greater and before all the others. |
| Observer.RegistersFit | ServClientLibrary/IObserver.h:93-113 | Construction registers exactly the distinct conditions given, if there is a subject. |
| Observer.DeRegisterFits | ServClientLibrary/IObserver.h:139-146 | After DeRegister(condition) the pair is in the multimap no more; every other pair of the observer, and everybody else's entries in their order, stay. |
| Observer.LeavingFits | ServClientLibrary/IObserver.h:148-174 | Deregister, SetSubject and the destructor leave no entry of the observer and everybody else's in their order. |
| ObserverObjects.ISubject2.Register | ServClientLibrary/IObserver.h:217-225 | Inserts behind the entries with the same key; null is ignored. |
| ObserverObjects.ISubject2.DeRegisterAll | ServClientLibrary/IObserver.h:227-249 | Collecting iterators and erasing them one by one removes exactly the observer's entries, in one pass each; null is ignored. |
| ObserverObjects.ISubject2.DeRegister | ServClientLibrary/IObserver.h:251-269 | The search through the key's range erases the first entry equal to (condition, observer) of the whole multimap, if there is one; null is ignored. |
| ObserverObjects.IObserver2.constructor | ServClientLibrary/IObserver.h:93-117 | Registers the conditions one by one with the subject, none without a subject. |
| ObserverObjects.IObserver2.Register | ServClientLibrary/IObserver.h:127-137 | Both sides change together, or neither. |
| ObserverObjects.IObserver2.DeRegister | ServClientLibrary/IObserver.h:139-146 | The subject loses the pair, if there is a subject, and the observer the condition. |
| ObserverObjects.IObserver2.Deregister | ServClientLibrary/IObserver.h:148-156 | The observer has no subject and no conditions, the old subject no entry of it. |
| ObserverObjects.IObserver2.SetSubject | ServClientLibrary/IObserver.h:166-174 | The observer has the new subject and no conditions, the old subject no entry of it. |
| ObserverObjects.IObserver2.Destroy | ServClientLibrary/IObserver.h:119-125 | The subject keeps no entry of the destroyed observer. |
| ObserverObjects.RegisterIsOperation | ServClientLibrary/IObserver.h:127-137 | On any set of living objects, what the method Register promises is the operation of RegistrationAgreement. |
| ObserverObjects.DeRegisterIsOperation | ServClientLibrary/IObserver.h:139-146 | So is what DeRegister(condition) promises. |
| ObserverObjects.LeavingIsOperation | ServClientLibrary/IObserver.h:148-174 | So is what Deregister and SetSubject promise. |
| ObserverObjects.DestructionIsOperation | ServClientLibrary/IObserver.h:119-125 | So is what the destructor promises. |
| ObserverObjects.ConstructionIsOperation | ServClientLibrary/IObserver.h:93-113 | So is what the constructor promises. |

## Left out

- ThreadEvent.XLThreadEvent.Copy: an event on a counter of null is excluded, here and in Assign and WriteBesideCopy; EventHandles models that copy and EventHandles.CopyingIsSafeIff says why it is not safe.
- ThreadEvent.XLThreadEvent.SetData: int overflow of lengths is excluded, as is a length beyond the data.
- EventHandles.BuffersLiveLongEnough: raw pointers into a buffer, which GetData and one form of Read hand out, are not counted and not modelled.
- EventTraffic.Send: a message with a negative length is excluded.
- EventTraffic.RunProgram: receiving is a parameter; a message is MAX_MESS_LENGTH bytes, as the thread asks for.
- EventQueue.PermitConservation: events are values here; that copying one into the queue is safe needs EventHandles.CopyingIsSafeIff.
- LinkedList.LinkedList.Delete: a node of another list, which the source does not detect, is excluded.
- LinkedList.LinkedListItr.constructor: a null list, which leaves mItr unset, is excluded; so are copied iterators, which are never registered.
- ListModel.RobustIterators: node addresses are taken to be new when a node is made; reuse of a freed address is not modelled.
- ThreadPool.JobConservation: a worker starts at its loop with its allocator set; how a thread is started and stopped in XLSimpleThreads.cpp is not part of this model.
- PoolShutdown.DestroyNeverHangsIff: AddJob concurrent with or after Destroy is excluded from the results on shutdown (not from ThreadPool.JobConservation), as is the case of no worker, and what Destroy does once all threads have returned.
- Scheduler.CScheduler.AddAJob: a day of the week outside 0 to 6, which the source uses as an index beyond its array, is excluded.
- Scheduler.FiresExactlyOnce: a run begins at one Start, without jobs, and does not go on over Stop and another Start; the clock does not run backwards and stays within m_CurrentDay; a clock that cannot be read is not modelled.
- ServingThread.HandOff: a null socket, a server without a listening socket, and what Send does are not modelled; broadcasts take the clients in any order.
- Observer.RegistrationAgreement: a subject destroyed while observers still point to it is not modelled.
- The C++ memory model, and std::list and std::multimap inside: an access to them is one step.
- Create on what is already created, the !IsCreated() returns, and Destroy of a queue, semaphore or mutex that is in use.
- XLMutex::TryLock and XLSemaPhore::Try, whose results do not tell what was acquired; the locks of the C++11 XLMutex, which are std::mutex's.
- ISubject2::Notify, which looks up a pointer instead of a key, and point-to-point USR_MSG, which writes an int and reads a pointer.
- CScheduler::SetJob, which posts a default time, START_PROCESSING and the day rollover, which is never reached.
- LIFE_BEAT and listener callbacks of XLServingThread; the pool's m_bWorking and workload counters.
- XLSharedArraySmPtr has the bookkeeping of XLSharedSmPtr and is modelled by the same HandleRuns; in ThreadEvent.dfy a buffer is an array, which lives as long as it is referred to, as EventHandles.BuffersLiveLongEnough proves of the counted one. SaraAutoPtr.h, a near copy.
- Comparison operators and pointer arithmetic of XLSharedSmPtr, and the accessors of LinkedListItr, which are one-line members.
- Sockets, OpenSSL, sessions, configuration, printing, XLMultiAlarm and JobScheduler.
