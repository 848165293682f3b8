# AsyncTask: verified models of its protocols

AsyncTask is a C++20 coroutine runtime over epoll. This project models the parts of it where the difficulty lies and
proves what they promise, for every input, every interleaving and every run:

* **StealingPool.dfy** – the work-stealing pool: queues, binary semaphores and one shared counter. The counter is exact,
  so a worker leaves its loop only at an instant when all queues are empty, so no wakeup is lost, so a parked pool has
  done everything.
* **Wakeup.dfy** – the reactor wakeup: a coalescing flag over an eventfd with a one-shot registration, and the loop in
  `MultiThreadExecutor::block`. The loop is never parked while there is something to do, and ends by itself.
* **SharedReactor.dfy** – several threads in `block` taking turns in one reactor: what they keep of the protocol with one
  loop, and what they lose.
* **Coroutines.dfy** – tasks, promises and final awaiters as a machine that transfers control through continueHandle. It
  computes direct-style evaluation, exceptions included; its chain of frames is the evaluator's call stack. The await
  rules are those of ISO/IEC 14882:2020, section 7.6.2.3.
* **Slabs.dfy** – the slab's intrusive free list, refined to a finite map with a stack of reusable keys.
* **AsyncMutex.dfy**, **JoinHandle.dfy** – the asynchronous mutex with its hand-off, and the join rendezvous.
* **BlockingPool.dfy**, **SimplePool.dfy** – the self-sizing pool and the simple pool.
* **Timers.dfy**, **ReactTimeout.dfy** – timers over whole runs, and how long a reactor pass sleeps.
* **InlineExecutor.dfy** – the single-threaded executor's `block` loop: total correctness.
* **MpmcQueue.dfy** – the locked deque under the pools and primitives.
* **Runs.dfy**, **Sums.dfy**, **Wrappers.dfy** – reachability and what runs lead to, sums over actors, an option type.

The concurrent parts are step systems under sequential consistency: one step is one atomic operation, one lock region,
one system call or one resumption, and any number of threads or coroutines take part. A state is a datatype; `Enabled`
and `Apply` say which steps there are and what they do; `Reachable` means reachable by any finite run. Beside each
step system stands a class with the fields of the C++ object, whose methods are the operations on it. Each method says
what becomes of the fields it touches, and that this is exactly the corresponding step. Its ghost fields record where
each thread stands and what has happened. Sequential parts (the slab, a pass over the timers, growing the pool, the
inline executor) are methods with the loops of the C++ code. Clocks, expiry orders, queue choices and what the kernel
reports are parameters.

## What the code does not do

Some properties one would expect are false of the code. Each is kept as the code has it, with the exact condition and an
input:

* `JoinHandle::join` of a value delivers it only when the joiner parked before the task completed. When the task
  completes first the result is never filled and `await_resume` throws, although README.md of the library shows `join`
  as returning the value. (JoinHandle.JoinerGetsValueIffItParkedFirst, CompletingFirstLosesTheValue)
* A `DetachTask`, and so `block`, drops an exception of its task and delivers the value member of its promise as it is:
  a default-constructed value, or an uninitialised one for a type such as int; `default` in the model is arbitrary.
  (Coroutines.DetachedTaskDelivers, AnExceptionIsDropped)
* A waiter of the mutex that queues between the unlocker's look at the queue and its store, or after it, is served only
  if somebody new locks. (AsyncMutex.StepStrandsIff, OnlyANewcomerRescues, AWaiterCanBeStranded)
* `Slab::recreateVacantList` never visits index 0, so a vacant slot 0 is lost.
  (Slabs.RebuiltIsValidIffSlotZeroOccupied, RebuildingCanLoseSlotZero)
* `Slab::shrinkToFit` relinks nothing, and can leave the next key beyond the size.
  (Slabs.ShrunkIsValidIffKeptFirst, ShrinkingCanBreakTheFreeList)
  With no occupied entry it reads the back of an empty vector. (Slabs.Slab.ShrinkToFit)
* `Slab::insertAt` with any key but the next one breaks the free list.
  (Slabs.InsertAtKeepsFreeListIffHead, InsertingOffTheHeadCanLoseASlot)
* `ThreadPool::waitEmpty` can return while a task just pushed is queued.
  (SimplePool.WaitEmptyMeansDoneIffNothingUncounted, WaitCanMissAnUncountedTask)
* It can also sleep for good with everything done: `execute` raises the count after the push and wakes only workers, so
  when that brings a wrapped count back to zero nobody tells the waiter.
  (SimplePool.SleepingWaitCanReturnIff, WaitCanSleepOverZero)
* A stealing pool that is being stopped can leave a task behind: it can finish exactly as long as some worker is or will
  come back to its inner loop. (StealingPool.CanFinishIffSomeoneServes, AStoppedWorkerCanLeaveATask)
* With two threads in `MultiThreadExecutor::block` one can park though its task is done: the other one's wait takes the
  wakeup. (SharedReactor.NeverParkedWhenDoneIffAlone, AWakeupGoesToTheWrongThread)
* A negative timeout makes a reactor pass sleep without bound, even over a timer that is due.
  (ReactTimeout.NeverOversleeps, ANegativeTimeoutSleepsOverADueTimer)
* Without a timerfd, which `Poller::Create` always sets up, a timeout of 2^31 milliseconds or more would be cut.
  (ReactTimeout.EpollAloneSleepsAsAskedIffItFits, LongTimeoutsAreCut)

## Model

| member | source | states |
|---|---|---|
| StealingPool.StepKeepsInv | include/Async/ThreadPool.hpp:152-202 | every atomic step of a worker or of `execute` keeps the exact counter, the conservation of handles and the absence of lost wakeups |
| StealingPool.CounterIsExact | include/Async/ThreadPool.hpp:155-168 | in every reachable state the shared counter equals queued tasks, plus pushes announced and not made, plus takes not yet discounted; it is never negative |
| StealingPool.LeavesLoopExactlyWhenAllIsEmpty | include/Async/ThreadPool.hpp:155-168 | a worker that loads the counter leaves its inner loop if and only if at that instant every queue is empty, no push is announced and no take is undiscounted |
| StealingPool.ExactlyOnce | include/Async/ThreadPool.hpp:156-166 | for every handle: submissions equal in-flight plus queued plus taken plus resumed, so none is lost or resumed twice whichever end it leaves a queue by |
| StealingPool.OwnersPopInOrderOfPush | include/Async/ThreadPool.hpp:156-200 | in every reachable state each queue with the history of what was done to it is a deque: what its owner has popped, followed by what it holds, is in order of push, and every handle pushed is popped, stolen or held exactly once |
| StealingPool.WakeupIsNeverLost | include/Async/ThreadPool.hpp:154-202 | a worker that has not exited and whose queue holds work is in its inner loop, or its semaphore is up, or some enqueuer is between its push and its release on that worker |
| StealingPool.ParkedPoolHasDoneEverything | include/Async/ThreadPool.hpp:154-202 | when every worker is blocked on its semaphore and no thread is inside `execute`, all queues are empty, the counter is zero and exactly the submitted handles have been resumed |
| StealingPool.NoDeadlockWhileWorkRemains | include/Async/ThreadPool.hpp:152-202 | while a submitted handle is not yet resumed and no worker has exited, some thread of the pool can take a step |
| StealingPool.CanFinishIffSomeoneServes | include/Async/ThreadPool.hpp:152-202 | from every reachable state, whatever stops were requested: some run of the pool's own steps resumes exactly what was submitted if and only if that has already happened, or some worker is in its inner loop or will enter it once more because its semaphore is up or about to be raised |
| StealingPool.PoolCanFinish | include/Async/ThreadPool.hpp:152-202 | so from every reachable state in which nobody has asked to stop the pool can finish |
| StealingPool.AStoppedWorkerCanLeaveATask | include/Async/ThreadPool.hpp:168-169 | a reachable state in which a stopped worker has exited past a task queued after it read zero: nothing can move and the pool cannot finish |
| StealingPool.ASignalCanBeRaisedTwice | include/Async/ThreadPool.hpp:199-201 | a reachable state of an unstopped pool of one worker in which a semaphore that is up is about to be released |
| StealingPool.RoundVisitsEveryOtherQueueOnce | include/Async/ThreadPool.hpp:160-162 | the indices of one stealing round are those of all other queues, each exactly once, and never the worker's own |
| StealingPool.StealingThreadPool.constructor | include/Async/ThreadPool.hpp:148-152 | starts with empty queues, lowered semaphores, a zero counter and every worker at its semaphore |
| StealingPool.StealingThreadPool.Begin | include/Async/ThreadPool.hpp:187-198 | a null handle changes nothing; any other is submitted, bound for one queue |
| StealingPool.StealingThreadPool.CountTask | include/Async/ThreadPool.hpp:199-199 | raises the counter before the push, as one protocol step |
| StealingPool.StealingThreadPool.PushTask | include/Async/ThreadPool.hpp:200-200 | appends the handle to the chosen queue and leaves the others alone, as one protocol step |
| StealingPool.StealingThreadPool.ReleaseSignal | include/Async/ThreadPool.hpp:201-201 | raises the binary semaphore of the chosen worker, or leaves it up |
| StealingPool.StealingThreadPool.TakeSignal | include/Async/ThreadPool.hpp:154-154 | a worker passes a raised semaphore and lowers it |
| StealingPool.StealingThreadPool.PopFront | include/Async/ThreadPool.hpp:156-156 | the owner takes the oldest element of its queue, or none exactly when the queue is empty |
| StealingPool.StealingThreadPool.StealBack | include/Async/ThreadPool.hpp:160-162 | a thief takes the newest element of the round's victim, or nothing exactly when that is empty |
| StealingPool.StealingThreadPool.Discount | include/Async/ThreadPool.hpp:157-157 | lowers the counter after a take and before the invocation of what was taken |
| StealingPool.StealingThreadPool.InvokeTask | include/Async/ThreadPool.hpp:158-165 | the handle taken is the one resumed, once; an owner pops again, a thief goes on to load the counter |
| StealingPool.StealingThreadPool.ReadPending | include/Async/ThreadPool.hpp:168-168 | the worker stays in its inner loop exactly when the counter is positive |
| StealingPool.StealingThreadPool.TestStop | include/Async/ThreadPool.hpp:169-169 | the worker exits exactly when its stop was requested |
| StealingPool.StealingThreadPool.AskToStop | include/Async/ThreadPool.hpp:178-178 | the destructor requests the stop of one worker |
| StealingPool.StealingThreadPool.ReleaseToStop | include/Async/ThreadPool.hpp:179-179 | and then raises its semaphore |
| MpmcQueue.Run | include/Async/ThreadSafe.hpp:25-57 | after any run of push, pop and steal, every element is held, popped or stolen exactly once, and popped elements precede held ones in order of arrival |
| MpmcQueue.PopsFollowPushes | include/Async/ThreadSafe.hpp:37-46 | pops come out in the order of the pushes whatever thieves took in between |
| MpmcQueue.AfterKeepsOrder | include/Async/ThreadSafe.hpp:25-57 | each operation keeps the order of arrival |
| MpmcQueue.AfterKeepsOnce | include/Async/ThreadSafe.hpp:25-57 | each operation keeps every element in exactly one place |
| MpmcQueue.Queue.PushBack | include/Async/ThreadSafe.hpp:25-29 | appends at the back |
| MpmcQueue.Queue.PopFront | include/Async/ThreadSafe.hpp:37-46 | takes the front, empty-handed exactly on an empty deque |
| MpmcQueue.Queue.StealBack | include/Async/ThreadSafe.hpp:48-57 | takes the back, empty-handed exactly on an empty deque |
| Wakeup.StepKeepsInv | include/Async/sys/Event.hpp:68-98 | every step of a notifier, of the loop in `block` or of the kernel keeps: a raised flag is backed by a coming wakeup or the loop is between read and reset; the eventfd is armed outside that window; finished work and queued insertions are announced |
| Wakeup.RaisedFlagIsBacked | include/Async/sys/Event.hpp:77-98 | whenever the flag is up, the eventfd is readable, or a thread is between exchange and write, or the loop is between its read and its reset of the flag |
| Wakeup.SpawnCountIsExact | include/Async/Executor.hpp:145-151 | in every reachable state the spawn count is the number of detached tasks spawned whose callback has not discounted them; each is live or finished, never both |
| Wakeup.BlockEndsExactlyWhenAllIsDone | include/Async/Executor.hpp:209-214 | the test of the spawn count ends `block` if and only if every detached task ever spawned has finished, and the root's future is set at that instant |
| Wakeup.NeverParkedWhenDone | include/Async/Executor.hpp:145-216 | once the root's future is ready, no detached task is left and their notifies have returned, the loop is never waiting with an undeliverable eventfd and no write on its way |
| Wakeup.NeverParkedWithTimerQueued | include/Async/Reactor.hpp:150-160 | nor while a timer insertion whose notify has returned is still queued |
| Wakeup.BlockEndsByItself | include/Async/Executor.hpp:209-216 | from every reachable state in which all work is done and the notifies that say so have returned, the loop reaches its end by its own steps alone |
| Wakeup.QueuedTimerIsDrained | include/Async/Reactor.hpp:209-235 | a queued insertion is drained by the loop's own steps, unless `block` ends first, once no insertion's notify is still to exchange and no thread is about to write |
| Wakeup.Blocking.constructor | include/Async/sys/Event.hpp:36-43 | flag down, counter zero, eventfd registered one-shot, loop about to test the future |
| Wakeup.Blocking.SetValue | include/Async/Executor.hpp:189-200 | the root's callback makes the future ready before it notifies |
| Wakeup.Blocking.CountSpawn | include/Async/Executor.hpp:147-147 | spawning a detached task raises the count by one before the task is handed to the pool |
| Wakeup.Blocking.DiscountSpawn | include/Async/Executor.hpp:148-151 | a detached task's callback lowers the spawn count by one and finishes that task alone, before it notifies |
| Wakeup.Blocking.QueueInsert | include/Async/Reactor.hpp:154-158 | an insertion is queued before its notify |
| Wakeup.Blocking.QueueRemove | include/Async/Reactor.hpp:161-167 | a removal is queued behind what is there, and notifies nobody |
| Wakeup.Blocking.BeginNotify | include/Async/sys/Event.hpp:91-93 | a notify from elsewhere goes to the exchange; nothing else changes |
| Wakeup.Blocking.RaiseFlag | include/Async/sys/Event.hpp:91-98 | of the threads that notify, only one that found the flag down goes on to write |
| Wakeup.Blocking.WriteEvent | lib/sys/unix/epoll.cpp:151-156 | makes the eventfd readable |
| Wakeup.Blocking.FutureIsReady | include/Async/Executor.hpp:210-210 | the loop goes to the spawn count exactly when the future is ready |
| Wakeup.Blocking.NothingSpawned | include/Async/Executor.hpp:211-213 | the loop ends exactly when it then finds the spawn count zero |
| Wakeup.Blocking.PopTimerOp | include/Async/Reactor.hpp:209-221 | one lock region of draining, which ends when it finds the queue empty |
| Wakeup.Blocking.SetTimerFd | lib/sys/unix/epoll.cpp:120-127 | the timerfd is set before the wait |
| Wakeup.Blocking.WaitFails | include/Async/sys/Event.hpp:72-76 | a wait that a signal interrupts returns to `block` with flag, counter and registration as they were |
| Wakeup.Blocking.EpollReturns | lib/sys/unix/epoll.cpp:139-143 | a reported eventfd event uses up its one-shot registration |
| Wakeup.Blocking.ReadEvent | lib/sys/unix/epoll.cpp:145-146 | the counter is read back to zero |
| Wakeup.Blocking.RearmEventFd | lib/sys/unix/epoll.cpp:147-147 | the eventfd is registered again before the flag is lowered |
| Wakeup.Blocking.LowerFlag | include/Async/sys/Event.hpp:77-77 | the flag is lowered last |
| SharedReactor.ReactorIsWakeup | include/Async/Reactor.hpp:237-241 | with any number of threads in `block`, the reactor they share goes only through states of the protocol with one loop |
| SharedReactor.TimersAreSeenByAnyone | include/Async/Reactor.hpp:150-160 | so whichever thread has the reactor, it is never parked over a fully notified insertion, and a raised flag is backed |
| SharedReactor.EndsExactlyWhenAllIsDone | include/Async/Executor.hpp:209-214 | each of any number of threads leaves `block` if and only if it finds every detached task finished, its own future being set |
| SharedReactor.LoneThreadIsWakeup | include/Async/Executor.hpp:209-216 | one thread with its lock is the loop of the protocol |
| SharedReactor.NeverParkedWhenDoneIffAlone | include/Async/Executor.hpp:209-216 | that no reachable state parks a thread whose future is ready, with nothing spawned and the notifies returned, holds for k threads in `block` if and only if k is at most one |
| SharedReactor.AWakeupGoesToTheWrongThread | include/Async/Executor.hpp:209-216 | for every k from two on a reachable state in which another thread took the wakeup and the finished one then parked |
| SharedReactor.Sharing.constructor | include/Async/Reactor.hpp:105-105 | nobody has the lock, no future is set |
| SharedReactor.Sharing.SetFuture | include/Async/Executor.hpp:189-200 | a root's callback sets the future of its own thread only, before it notifies |
| SharedReactor.Sharing.FutureIsReady | include/Async/Executor.hpp:210-210 | a thread goes on to the spawn count exactly when its own future is set |
| SharedReactor.Sharing.NothingSpawned | include/Async/Executor.hpp:211-213 | and leaves exactly when it then finds the count zero, otherwise it goes for the lock |
| SharedReactor.Sharing.Lock | include/Async/Reactor.hpp:237-241 | the lock is taken only when free, and the pass begins by draining |
| SharedReactor.Sharing.Unlock | include/Async/Executor.hpp:215-215 | the lock falls at the end of the pass and the thread tests its future again |
| Coroutines.ChainingComputesEval | include/Async/Task.hpp:13-58 | every finite program of nested awaits, returns, throws and leaf suspensions runs to completion with the root promise holding the outcome of direct-style evaluation and nothing else, and only the root frame left |
| Coroutines.ChainIsAlwaysTheCallStack | include/Async/Task.hpp:115-143 | after any number of steps the live frames, followed along continueHandle, are the call stack of the evaluator at some point of its computation, and no assertion has failed |
| Coroutines.ParksExactlyAtSuspensions | include/Async/Task.hpp:13-143 | a run from start to end gives control back to the executor exactly as often as direct-style evaluation of the nested awaits suspends at a leaf |
| Coroutines.OnlyDoneFramesAreDestroyed | include/Async/Task.hpp:84-90 | the only frame a step destroys is the innermost one, and it is done |
| Coroutines.StepKeepsUnderWay | include/Async/Task.hpp:13-143 | one machine step keeps the outcome the frames stand for, or is the delivery of that outcome by a detached root |
| Coroutines.CallSimulates | include/Async/Task.hpp:115-129 | awaiting a fresh task is the evaluator's call |
| Coroutines.AwaitSuspendSimulates | include/Async/Task.hpp:120-124 | linking the callee to its caller and transferring changes nothing the evaluator sees |
| Coroutines.ReturnSimulates | include/Async/Task.hpp:38-58 | taking the callee's result, or rethrowing its exception, and destroying it is the evaluator's return to its caller |
| Coroutines.TransferSimulates | include/Async/Task.hpp:17-30 | the final awaiter's transfer to the continuation changes nothing the evaluator sees |
| Coroutines.EvalStepKeepsAnswer | include/Async/Task.hpp:115-143 | the evaluator with an explicit call stack computes what recursive evaluation computes |
| Coroutines.StepMakesProgress | include/Async/Task.hpp:13-143 | every machine step lowers a bound, so no transfer cycle exists |
| Coroutines.WrapperIsTransparent | include/Async/Executor.hpp:152-153 | `co_return co_await task` has the outcome of the task |
| Coroutines.DetachedTaskDelivers | include/Async/Task.hpp:167-192 | a wrapped detached task destroys itself and calls back once; the callback learns the task's outcome if and only if the task returns, an exception being replaced by the default value |
| Coroutines.AnExceptionIsDropped | include/Async/Task.hpp:167-192 | a detached task that throws ends with its callback told the default, whatever that is |
| Coroutines.Runner.RunToCompletion | include/Async/Task.hpp:95-102 | driving a root from any state under way, resuming parked leaves, ends with the outcome direct-style evaluation gives |
| Coroutines.Runner.StepOnce | include/Async/Task.hpp:95-102 | each resumption does exactly the machine's next step |
| Coroutines.Runner.RunBody | include/Async/Task.hpp:32-43 | the next thing a body does, as one machine step: a branch, or the suspension it leads to |
| Coroutines.Runner.ReturnValue | include/Async/Task.hpp:43-43 | stores the value and reaches the final suspension |
| Coroutines.Runner.UnhandledException | include/Async/Task.hpp:34-34 | stores the exception and reaches the final suspension |
| Coroutines.Runner.SetContinue | include/Async/Task.hpp:120-124 | records the caller in the callee's promise and transfers to the callee |
| Coroutines.Runner.AwaitResume | include/Async/Task.hpp:44-57 | hands value or exception to the caller and destroys the callee |
| Coroutines.Runner.FinalAwaitSuspend | include/Async/Task.hpp:20-28 | transfers to the continuation, or ends a root; a detached root destroys itself and calls back |
| Slabs.InsertRefinesMap | include/Async/Slab.hpp:104-124 | inserting returns a key not in use, binds it, pops the free list, and lets the vector grow only when every slot is in use |
| Slabs.RemoveRefinesMap | include/Async/Slab.hpp:126-138 | removing a key in use unbinds it and pushes it on the free list; any other key changes nothing |
| Slabs.InsertAtKeepsFreeListIffHead | include/Async/Slab.hpp:104-118 | `insertAt` on a vacant or next index leaves a sound free list if and only if the key is the head of the free list |
| Slabs.InsertingOffTheHeadCanLoseASlot | include/Async/Slab.hpp:104-118 | a run after which inserting at a vacant key other than the next loses the other vacant slot |
| Slabs.RemoveUndoesInsert | include/Async/Slab.hpp:104-138 | removing what was just inserted restores the map, and the very same state when a slot was reused |
| Slabs.RemovedKeyIsReused | include/Async/Slab.hpp:119-138 | the key removed last is issued next |
| Slabs.RunRefinesMap | include/Async/Slab.hpp:37-138 | after any run of insert, tryRemove and clear the slab is the reference map, and following the links visits exactly the reference's stack of free keys |
| Slabs.LookupFindsWhatWasInserted | include/Async/Slab.hpp:86-138 | after any run a key is found if and only if some insertion issued it and it has been neither removed nor cleared since, and the answer is what that insertion put there |
| Slabs.SizeIsPeak | include/Async/Slab.hpp:104-118 | the vector's size is the peak number of entries in use since the last clear |
| Slabs.StaleKeyIsInBounds | include/Async/Slab.hpp:86-94 | every key issued since the last clear, stale or not, is below the size, so looking it up meets the bound `get` asserts |
| Slabs.RebuiltIsValidIffSlotZeroOccupied | include/Async/Slab.hpp:59-78 | rebuilding keeps the map and gives the vacant indices from 1 up in ascending order; the slab is sound if and only if it has no slots or slot 0 is occupied |
| Slabs.RebuildingCanLoseSlotZero | include/Async/Slab.hpp:59-78 | a run after which rebuilding loses the vacant slot 0 |
| Slabs.ShrunkIsValidIffKeptFirst | include/Async/Slab.hpp:48-58 | shrinking alone keeps a sound slab sound if and only if it drops nothing, or the free list visits all kept vacancies first and then comes to the first index dropped |
| Slabs.ShrinkingCanBreakTheFreeList | include/Async/Slab.hpp:48-58 | a run after which shrinking leaves the next key beyond the size, out of the range of insert |
| Slabs.ShrinkThenRebuild | include/Async/Slab.hpp:48-78 | shrinking and then rebuilding keeps the map, leaves no vacant tail, and is sound if and only if slot 0 is occupied |
| Slabs.Slab.constructor | include/Async/Slab.hpp:37-37 | an empty, sound slab |
| Slabs.Slab.ClearAll | include/Async/Slab.hpp:41-46 | back to the empty slab |
| Slabs.Slab.InsertAtKey | include/Async/Slab.hpp:104-118 | a sound slab stays sound if and only if the key is its next key |
| Slabs.Slab.Insert | include/Async/Slab.hpp:119-124 | issues a fresh key bound to the data; the count is the number of bindings |
| Slabs.Slab.Remove | include/Async/Slab.hpp:126-138 | returns the value bound to the key if there is one, and nothing otherwise; removes that binding; the key is next to be issued |
| Slabs.Slab.Get | include/Async/Slab.hpp:86-94 | the binding of an index within bounds, or nothing |
| Slabs.Slab.ShrinkToFit | include/Async/Slab.hpp:48-58 | drops exactly the vacant tail and keeps the map; says when the slab stays sound, and that the loop is defined if and only if some entry is occupied |
| Slabs.Slab.RecreateVacantList | include/Async/Slab.hpp:59-78 | whatever the old links, the new list is the vacant indices from 1 up in ascending order; sound if and only if slot 0 is occupied or there are no slots |
| AsyncMutex.StepKeepsInv | include/Async/Primitives.hpp:11-45 | every step of lock, try_lock, unlock and resumption keeps one token, the queue discipline, the order and the counter |
| AsyncMutex.AtMostOneHolder | include/Async/Primitives.hpp:11-36 | at most one coroutine holds the lock |
| AsyncMutex.LockedIffToken | include/Async/Primitives.hpp:14-36 | the flag is up exactly while there is a holder, a hand-off under way or an unlocker yet to store false |
| AsyncMutex.EntersIffFree | include/Async/Primitives.hpp:13-45 | `lock` and `try_lock` enter at once if and only if nobody holds the lock, is being handed it or is giving it up; otherwise `lock` goes on to queue and `try_lock` changes nothing |
| AsyncMutex.SecondCompareExchangeSucceeds | include/Async/Primitives.hpp:23-25 | a resumed waiter's second compare-exchange succeeds because the first one left true in its expected value |
| AsyncMutex.AssertionNeverFails | include/Async/Primitives.hpp:25-25 | the assertion after it never fails |
| AsyncMutex.HandOffIsNeverBlocked | include/Async/Primitives.hpp:30-32 | an unlocker that popped a waiter finds it parked and can hand it over |
| AsyncMutex.GrantedInOrderOfArrival | include/Async/Primitives.hpp:17-36 | waiters get the lock in the order they queued, each once; at most one is between queue and lock |
| AsyncMutex.CountIsExact | examples/example_mutex.cpp:13-24 | a counter read and written back under the lock loses no update |
| AsyncMutex.GrantableIffHeld | include/Async/Primitives.hpp:17-36 | without newcomers the waiter queued longest can still come to hold the lock if and only if the flag is up and nobody is about to clear it |
| AsyncMutex.StepStrandsIff | include/Async/Primitives.hpp:17-36 | the one step after which no run without newcomers serves the queue is a waiter's own: queuing when the lock it lost to is free again or about to be cleared |
| AsyncMutex.OnlyANewcomerRescues | include/Async/Primitives.hpp:13-36 | a stranded waiter can be served again exactly after a newcomer takes the free lock |
| AsyncMutex.AWaiterCanBeStranded | include/Async/Primitives.hpp:17-36 | reachable states in which that has happened: doomed with the flag still up, then left behind with the lock free |
| AsyncMutex.Mutex.BeginLock | include/Async/Primitives.hpp:13-15 | takes a free lock at once, otherwise is about to queue with true as its expected value, which it returns |
| AsyncMutex.Mutex.TryToLock | include/Async/Primitives.hpp:37-45 | takes a free lock or leaves everything as it is |
| AsyncMutex.Mutex.PushSelf | include/Async/Primitives.hpp:20-20 | queues at the back |
| AsyncMutex.Mutex.FinishLock | include/Async/Primitives.hpp:24-25 | always enters: what the code asserts is returned true |
| AsyncMutex.Mutex.PopWaiter | include/Async/Primitives.hpp:30-31 | takes the waiter queued longest, or none exactly when nobody is queued |
| AsyncMutex.Mutex.HandOver | include/Async/Primitives.hpp:32-32 | the popped waiter is resumed and the unlocker is out |
| AsyncMutex.Mutex.ReadCounter | examples/example_mutex.cpp:13-24 | the holder reads the counter as it is |
| AsyncMutex.Mutex.WriteCounter | examples/example_mutex.cpp:13-24 | and writes it back one higher than it then is |
| AsyncMutex.Mutex.StoreFalse | include/Async/Primitives.hpp:34-34 | gives the token up |
| JoinHandle.AssertionsAreUnreachable | include/Async/Executor.hpp:77-96 | no interleaving of joiner and completer reaches an assertion or executes an address that is not a parked joiner |
| JoinHandle.ContinuesExactlyOnce | include/Async/Executor.hpp:87-97 | once the completer is done the joiner is not parked; it was executed exactly once if it parked first and never otherwise |
| JoinHandle.JoinerGetsValueIffItParkedFirst | include/Async/Executor.hpp:98-166 | the joiner of a value finds it if and only if it parked before the task completed; otherwise the result is empty and taking it throws |
| JoinHandle.RendezvousCompletes | include/Async/Executor.hpp:73-166 | every step brings the rendezvous closer to its end, and a step is possible exactly until both sides have ended |
| JoinHandle.CompletingFirstLosesTheValue | include/Async/Executor.hpp:160-165 | a reachable state in which the task completed first and the joiner went on without its value |
| JoinHandle.Rendezvous.ReadyFirst | include/Async/Executor.hpp:79-81 | the first load decides between suspending and looking again |
| JoinHandle.Rendezvous.ReadySecond | include/Async/Executor.hpp:82-85 | the second load always finds 1 |
| JoinHandle.Rendezvous.AwaitSuspend | include/Async/Executor.hpp:87-92 | parks exactly when the word is still 0 |
| JoinHandle.Rendezvous.LoadAgain | include/Async/Executor.hpp:93-95 | after a lost exchange the load finds 1, as the code asserts, and the joiner goes on |
| JoinHandle.Rendezvous.AwaitResume | include/Async/Executor.hpp:98-98 | takes whatever the result holds |
| JoinHandle.Rendezvous.MarkDone | include/Async/Executor.hpp:160-162 | marks the word done, or finds that a joiner waits |
| JoinHandle.Rendezvous.FillResult | include/Async/Executor.hpp:163-163 | fills the result before the joiner is executed |
| JoinHandle.Rendezvous.ExecuteWaiting | include/Async/Executor.hpp:164-164 | the address found in the word is that of the parked joiner, which is executed once |
| BlockingPool.StepKeepsInv | include/Async/ThreadPool.hpp:23-65 | every lock region keeps both counters exact, the pool sized and every handle accounted for |
| BlockingPool.CountersAreExact | include/Async/ThreadPool.hpp:36-63 | whenever the lock is free, the idle count is the threads created and not yet entered plus those waiting, the thread count is the live threads, and it is within the limit |
| BlockingPool.CountersNeverUnderflow | include/Async/ThreadPool.hpp:37-51 | every counter is positive before it is decremented |
| BlockingPool.PoolIsSized | include/Async/ThreadPool.hpp:56-65 | there is an idle thread for every five queued tasks, or the thread limit is reached |
| BlockingPool.GrowIsMinimal | include/Async/ThreadPool.hpp:56-65 | growing starts no more threads than the queue calls for, and counts each one it starts |
| BlockingPool.QueuedWorkIsServed | include/Async/ThreadPool.hpp:31-54 | with a positive limit queued work has a live thread, and whichever thread next gets the lock takes the head of the queue |
| BlockingPool.CanResumeAllIff | include/Async/ThreadPool.hpp:23-65 | from every reachable state some run of the threads resumes everything given so far, if and only if the limit allows a thread or nothing has been given |
| BlockingPool.TakenInOrderExactlyOnce | include/Async/ThreadPool.hpp:23-46 | tasks are taken in the order given; each is queued, running or resumed exactly once |
| BlockingPool.BlockingThreadPool.constructor | include/Async/ThreadPool.hpp:17-17 | no threads, no tasks |
| BlockingPool.BlockingThreadPool.GrowPool | include/Async/ThreadPool.hpp:56-65 | the loop reaches the grown state whose size and minimality are proved |
| BlockingPool.BlockingThreadPool.ExecuteTask | include/Async/ThreadPool.hpp:23-29 | queues at the back and grows the pool |
| BlockingPool.BlockingThreadPool.ServeQueue | include/Async/ThreadPool.hpp:38-46 | grows and takes the head of a non-empty queue, otherwise counts the thread idle |
| BlockingPool.BlockingThreadPool.EnterLoop | include/Async/ThreadPool.hpp:35-46 | a started thread stops counting as idle and serves the queue: it returns the head of a non-empty queue |
| BlockingPool.BlockingThreadPool.ReturnFromTask | include/Async/ThreadPool.hpp:43-46 | a thread back from a task serves the queue: it returns the head of a non-empty queue |
| BlockingPool.BlockingThreadPool.WakeUp | include/Async/ThreadPool.hpp:47-52 | a woken thread exits only on a timeout with an empty queue, otherwise serves the queue |
| SimplePool.CountIsExactModuloWord | include/Async/ThreadPool.hpp:95-133 | the task count plus pushes not yet counted equals queued plus running tasks modulo 2^64 |
| SimplePool.TakenInOrderOfPush | include/Async/ThreadPool.hpp:100-123 | in every reachable state what workers have taken, followed by what is queued, is what was pushed, in that order |
| SimplePool.WaitEmptyMeansDoneIffNothingUncounted | include/Async/ThreadPool.hpp:107-113 | when the test of `waitEmpty` succeeds, everything has run if and only if no push is still uncounted |
| SimplePool.WaitCanMissAnUncountedTask | include/Async/ThreadPool.hpp:100-113 | a reachable state in which `waitEmpty` returns while a task is queued |
| SimplePool.SleepingWaitCanReturnIff | include/Async/ThreadPool.hpp:100-130 | a sleeping `waitEmpty` can still return, without new tasks or a spurious wakeup, if and only if some task is left to be finished and there is a worker |
| SimplePool.WaitCanSleepOverZero | include/Async/ThreadPool.hpp:100-130 | a reachable state in which everything is done, the count is zero, and `waitEmpty` sleeps for good |
| SimplePool.FrontIsNeverEmpty | include/Async/ThreadPool.hpp:118-123 | a worker never reads the front of an empty queue |
| SimplePool.OneWorkerHoldsTheLock | include/Async/ThreadPool.hpp:119-124 | only one worker at a time is past its wait with the lock held |
| SimplePool.ThreadPool.constructor | include/Async/ThreadPool.hpp:78-85 | running, with nothing queued and a zero count |
| SimplePool.ThreadPool.Begin | include/Async/ThreadPool.hpp:95-99 | a null handle changes nothing; any other is about to be pushed |
| SimplePool.ThreadPool.PushTask | include/Async/ThreadPool.hpp:100-103 | queues at the back before the count is raised |
| SimplePool.ThreadPool.CountTask | include/Async/ThreadPool.hpp:104-104 | raises the count, wrapping at 2^64 |
| SimplePool.ThreadPool.TestRunning | include/Async/ThreadPool.hpp:118-118 | a worker goes on exactly while the pool is running |
| SimplePool.ThreadPool.WaitForTask | include/Async/ThreadPool.hpp:119-120 | the wait returns with the free lock, over a task or at the end |
| SimplePool.ThreadPool.TakeTask | include/Async/ThreadPool.hpp:121-124 | takes the oldest task while the pool is running |
| SimplePool.ThreadPool.DiscountTask | include/Async/ThreadPool.hpp:125-129 | lowers the count, wrapping at 0, and notifies a waiting thread |
| SimplePool.ThreadPool.StartWaiting | include/Async/ThreadPool.hpp:109-109 | raises the waiting flag before the first test |
| SimplePool.ThreadPool.TestEmpty | include/Async/ThreadPool.hpp:110-112 | returns exactly when the count is zero, otherwise sleeps |
| SimplePool.ThreadPool.StopWorkers | include/Async/ThreadPool.hpp:89-89 | the destructor lowers the running flag |
| Timers.StepKeepsInv | include/Async/Reactor.hpp:150-235 | every step of an inserting or removing thread and of the reactor keeps each timer in one place, the map sorted and firings on time |
| Timers.EachTimerInExactlyOnePlace | include/Async/Reactor.hpp:150-235 | every timer that has drawn an id is on its way, in the map, removed or fired, and in one of these only; no other timer is in any |
| Timers.FiresAtMostOnce | include/Async/Reactor.hpp:183-205 | no two firings have the same id |
| Timers.FiresNeverEarly | include/Async/Reactor.hpp:181-186 | a timer fires only in a pass whose clock plus one nanosecond has reached its deadline |
| Timers.InsertionIsNeverDropped | include/Async/Reactor.hpp:223-225 | ids are unique, so draining an insertion always adds its timer |
| Timers.MapIsInOrder | include/Async/Reactor.hpp:102-102 | the map is ordered by deadline, and timers with the same deadline are in the order in which they drew their ids |
| Timers.PassFiresDueInOrder | include/Async/Reactor.hpp:181-205 | one pass fires exactly the due entries in the map's order and leaves exactly the later ones |
| Timers.WholePassFiresDue | include/Async/Reactor.hpp:174-235 | a pass that nobody interrupts applies what was queued, fires exactly what is due, in order, and keeps the rest |
| Timers.DrainedRemovalIsFinal | include/Async/Reactor.hpp:226-228 | after a removal with a timer's own key is drained, the timer is removed or fired for good if and only if its insertion is not still on its way |
| Timers.FinishedIsForever | include/Async/Reactor.hpp:183-228 | over any run what has been removed stays removed and what has fired stays fired |
| Timers.RemovedNeverFires | include/Async/Reactor.hpp:183-228 | once a removal has erased a timer, no later state of any run has a firing of it |
| Timers.FiredStaysFired | include/Async/Reactor.hpp:183-228 | once a timer has fired, no later state of any run has it removed or fired again |
| Timers.NeverFiresAfterDrainedRemoval | include/Async/Reactor.hpp:226-228 | no run that goes on from the draining of a timer's removal fires that timer, unless its insertion was still on its way |
| Timers.RemovalUndoesInsertion | include/Async/Reactor.hpp:209-235 | an insertion and its removal, drained in the order queued, cancel out |
| Timers.Reactor.constructor | include/Async/Reactor.hpp:105-105 | no timers, nothing queued, no pass under way |
| Timers.Reactor.DrawTimerId | include/Async/Reactor.hpp:152-153 | the atomic increment, as one protocol step: the id is new |
| Timers.Reactor.DrawElsewhere | include/Async/Reactor.hpp:152-153 | an insertion into another reactor draws from the same generator, so ids may be skipped |
| Timers.Reactor.PushInsert | include/Async/Reactor.hpp:154-157 | the lock region of an insertion, as one protocol step |
| Timers.Reactor.InsertTimer | include/Async/Reactor.hpp:150-160 | draws an id no timer has had and queues the insertion, as two protocol steps; the timer is then in one place, on its way |
| Timers.Reactor.RemoveTimer | include/Async/Reactor.hpp:161-167 | the lock region of a removal, as one protocol step that keeps the invariant |
| Timers.Reactor.DrainOp | include/Async/Reactor.hpp:211-230 | one round of the draining loop, as one protocol step; it ends exactly when the queue was empty |
| Timers.Reactor.ProcessTimeOps | include/Async/Reactor.hpp:209-235 | the draining loop is the protocol's run of draining steps |
| Timers.Reactor.SplitTimers | include/Async/Reactor.hpp:183-190 | collects and erases exactly the due entries; the others are pending |
| Timers.Reactor.FireTimers | include/Async/Reactor.hpp:181-205 | splitting the map is the protocol's firing step |
| Timers.Reactor.MinElement | include/Async/Reactor.hpp:194-195 | the least deadline of the pending entries |
| Timers.Reactor.NextTimeout | include/Async/Reactor.hpp:192-201 | zero when something is due, else the time to the first entry, else nothing |
| Timers.Reactor.ReportTimers | include/Async/Reactor.hpp:179-207 | the second half of a pass: the i-th handle reported is that of the i-th timer this pass fired, and the wait is zero if any fired, else the time to the first timer left, else none |
| Timers.Reactor.ProcessTimers | include/Async/Reactor.hpp:174-207 | a pass is the protocol's whole pass; it reports as many handles as it fired timers, the i-th being that of the i-th timer fired, and the wait the rest asks for |
| ReactTimeout.NeverOversleeps | include/Async/Reactor.hpp:321-336 | a pass is woken by the caller's timeout or the earliest deadline, never later than either; it sleeps without bound if and only if there is neither timeout nor timer, or the timeout is negative |
| ReactTimeout.ANegativeTimeoutSleepsOverADueTimer | lib/sys/unix/epoll.cpp:103-138 | a pass with a timer already due and a timeout of -1 sleeps without bound |
| ReactTimeout.TimerFdSleepsAsAsked | lib/sys/unix/epoll.cpp:117-143 | with the timerfd the kernel sleeps exactly as asked for absent and non-negative timeouts, and without bound for negative ones |
| ReactTimeout.EpollAloneSleepsAsAskedIffItFits | lib/sys/unix/epoll.cpp:129-138 | without a timerfd a non-negative timeout is slept out, to the millisecond, if and only if it has fewer than 2^31 milliseconds; when the conversion to a 32-bit int makes it negative the wait has no bound |
| ReactTimeout.LongTimeoutsAreCut | lib/sys/unix/epoll.cpp:129-132 | 2^31 milliseconds become a wait without bound, 2^32 no wait at all |
| ReactTimeout.NegativeTimeoutWithoutTimerFd | lib/sys/unix/epoll.cpp:129-132 | without a timerfd a negative timeout is cut towards zero: less than a millisecond does not wait, otherwise the wait is unbounded if and only if the 32-bit value stays negative |
| ReactTimeout.TimespecIsExact | lib/sys/unix/epoll.cpp:103-115 | seconds and nanoseconds add up to the timeout, and only absent and non-positive timeouts give the all-zero value |
| ReactTimeout.ChooseTimeout | include/Async/Reactor.hpp:327-334 | the smaller of the bounds present |
| ReactTimeout.FillTimespec | lib/sys/unix/epoll.cpp:103-115 | truncating division and remainder fill the fields as specified |
| ReactTimeout.PrepareWait | include/Async/Reactor.hpp:321-336 | a whole pass over the timers, which reports the handles of the timers fired, one each and in order, then the least of timeout and next deadline for the poller |
| ReactTimeout.AppendEvents | include/Async/sys/Event.hpp:78-85 | appends the sources' events in order; none are reported exactly when all belong to the poller itself |
| ReactTimeout.SourceEventsInOrder | include/Async/sys/Event.hpp:78-85 | every event of a source is reported once, as polled and in the order polled, and none of the poller's own is |
| InlineExecutor.Executor.Block | include/Async/Executor.hpp:277-326 | for every finite program, every order in which sleepers expire and finitely many interrupted passes, `block` ends with the root and every detached task ever spawned ended exactly once, nothing queued or asleep, and detached tasks resumed in the order queued; exactly the tasks that the programs spawn have been created, and coroutines have slept exactly as often as the programs sleep; it may be called again |
| InlineExecutor.Executor.constructor | include/Async/Executor.hpp:236-236 | balanced, with nothing queued, spawned or asleep and no root under way |
| InlineExecutor.Executor.SpawnTask | include/Async/Executor.hpp:238-249 | counts the task and queues it at the back, within a resumption or between calls of `block`; the books stay balanced |
| InlineExecutor.Executor.PassSpawn | include/Async/Executor.hpp:238-249 | a coroutine at a spawn queues exactly that child, and goes on behind it |
| InlineExecutor.Executor.Suspend | include/Async/Reactor.hpp:139-160 | a sleep leaves the coroutine with its timer, keeps the books balanced and notifies the reactor |
| InlineExecutor.Executor.Finish | include/Async/Executor.hpp:241-244 | a detached task discounts itself, the root sets the result; both notify |
| InlineExecutor.Executor.GiveUp | include/Async/Executor.hpp:241-244 | a coroutine at a sleep or at its end sleeps or ends, and notifies |
| InlineExecutor.Executor.Resume | include/Async/Executor.hpp:294-294 | the coroutine queues the tasks it spawns on its way, all of them, in order and numbered in order, and then sleeps at its first sleep or ends; no spawn or sleep of any program is skipped or repeated; the work left falls and the books balance |
| InlineExecutor.Executor.PopQueue | include/Async/Executor.hpp:292-293 | takes the task queued longest |
| InlineExecutor.Executor.DrainQueue | include/Async/Executor.hpp:291-295 | empties the queue, including what it spawns meanwhile |
| InlineExecutor.Executor.ResumeAll | include/Async/Reactor.hpp:308-310 | the handles a pass reports are resumed in the order reported, each with all it spawns and its next sleep |
| InlineExecutor.Executor.React | include/Async/Executor.hpp:299-333 | is called only with a notification pending or something asleep; resumes exactly what the reactor reports, in that order, and brings the end closer, unless a signal interrupts it |
| InlineExecutor.Executor.RunUntilDone | include/Async/Executor.hpp:290-300 | the loop ends, from whatever state it is entered in, with every spawn and sleep the programs held done |
| InlineExecutor.Executor.StartRoot | include/Async/Executor.hpp:277-289 | numbers the root and resumes it up to its first sleep or its end |
| InlineExecutor.SpawnKeepsBalance | include/Async/Executor.hpp:238-249 | spawning keeps the spawn count equal to the detached tasks whose callback has not run, each task in one place, and FIFO order |
| InlineExecutor.TurnPasses | include/Async/Executor.hpp:238-249 | a coroutine that goes on past a spawn has spawned exactly that child: tasks created plus spawns still to do stays the same |
| InlineExecutor.EndKeepsBalance | include/Async/Executor.hpp:241-284 | so does the end of a task and its callback |
| InlineExecutor.ReportKeepsBalance | include/Async/Executor.hpp:333-333 | so does the reactor's report of expired sleepers, in any order |
| InlineExecutor.UnfinishedMeansSleeping | include/Async/Executor.hpp:296-299 | when the loop does not break, something is asleep: it never waits for nothing |
| InlineExecutor.StoppedMeansAllEnded | include/Async/Executor.hpp:296-298 | when the loop breaks, every task ever spawned has ended exactly once |
| InlineExecutor.SleepKeepsBalance | include/Async/Reactor.hpp:139-149 | so does a sleep |

## Left out

- StealingPool.NoDeadlockWhileWorkRemains: speaks of pools in which no worker has exited; what a pool that is being stopped can still do is in StealingPool.CanFinishIffSomeoneServes, and full drain at shutdown is not claimed.
- StealingPool.CanFinishIffSomeoneServes: says that some run of the pool's own steps finishes, not that every fair one does.
- StealingPool.StealingThreadPool.ReleaseSignal: releasing a binary semaphore that is already up goes against the precondition that ISO/IEC 14882:2020 gives `release` in [thread.sema.cnt]; the model lets it stay up, as implementations that saturate do. That it happens is StealingPool.ASignalCanBeRaisedTwice.
- Wakeup.NeverParkedWhenDone: speaks of one thread in `block`; with more it is false, as SharedReactor.NeverParkedWhenDoneIffAlone says.
- SimplePool.WaitEmptyMeansDoneIffNothingUncounted: assumes fewer than 2^64 tasks and pushes at once, so that equal remainders mean equal numbers.
- SimplePool.SleepingWaitCanReturnIff: speaks of one waiting thread and of a pool that is running; the flag falls only in the destructor, after its own `waitEmpty`.
- InlineExecutor.Executor.Block: asks that signals interrupt only finitely many passes, without which the loop need not end.
- AsyncMutex: only a holder unlocks, as the code expects of its callers; which coroutine unlocks is not recorded in the C++ object.
- Timers.Reactor.ProcessTimers: speaks of a pass that no inserting thread interrupts; interruptions between its lock regions are runs of the same steps and are covered by the whole-run results.
- System calls that fail: `epoll_wait` may be interrupted, but the re-registration of the eventfd and the write to it always succeed in the model. After a failed re-registration the code loses later wakeups.
- Real epoll, timerfd and descriptor lifetimes, and readiness of sources: only the eventfd's counter, its one-shot registration and the timer's expiry are modelled. Registering sources in the reactor is not, beyond the slab they are kept in.
- `ReactorLock::react` reads its timeout even when it is absent and the wait reported no event; the model lets either branch follow.
- `ThreadPool` shutdown, the notifications by which workers of the two simple pools learn of tasks (a blocked worker may go on whenever its condition holds), and fairness.
- Weak memory order, the unsynchronised queue index of `enqueue_task` (any queue may be chosen) and 64-bit overflow of ids, counters and lengths other than the simple pool's count.
- Several awaits of one task, tasks that are never awaited, and moves of task objects. The task a wrapper owns is destroyed when its await ends, not together with the wrapper.
- Coroutine bodies are finite programs over integer locals; in the inline executor they are programs of spawns and sleeps, and joins, mutexes and blocking work do not suspend them.
- Erasing from the ordered map while iterating over it: the model splits a snapshot of the map.
- `CondVar`: the same queue as the mutex, without its flag; it would add only easy members.
- `blockSpawn`, `ContinueTask`, `AfterDestroy`, the `Runtime` singletons, the vendored expected type and the examples.
