# The FreeRTOS kernel, modelled and proved

A Dafny model of the FreeRTOS V10.1.1 kernel in `libraries/FreeRTOS`, with proofs of what its
comments and documentation promise. Paths below are relative to the repository's root.
`dafny verify dfyconfig.toml` checks the whole project.

## What is modelled

| module | models |
|---|---|
| `Lists`, `LinkedList` | the circular list, as functions on sequences and as pointers on the heap proved to do what those functions say |
| `Queue` | the storage of a queue as a deque, and each critical section of `queue.c` |
| `QueueProtocol`, `QueueOrder`, `QueueContents`, `QueueLimits` | blocking sends, receives and peeks against interrupts, with the queue locks; order and priority; what goes in and comes out, and how calls end; where the protocol stops |
| `Mutex`, `MutexCalls`, `MutexLimits` | priority inheritance on one mutex under the preemptive scheduler; how a take ends; an assertion there that can fail |
| `MutexAccounts`, `MutexChains`, `MutexLoans`, `MutexRanks`, `MutexRuns` | the books over any number of plain and recursive mutexes; inheritance over any number of mutexes with their event lists, step by step; lent priorities taken back; when it works over all runs; runs in which it does not |
| `Ticks`, `Delays` | N-bit tick counts beside unbounded time; the two delayed lists, refined against a scheduler without wrapping |
| `TaskLists`, `Kernel`, `KernelRuns`, `OtherTasks`, `WakeUps`, `Readiness`, `Suspension`, `Notifications` | all task lists, every operation that moves a task, pended ticks and task selection; invariants over all runs; exact wake-up times; what readies a task and what does not; suspended tasks; when a notification fails its assertion |
| `RoundRobin`, `Preemption`, `NextUnblock`, `EventOrder` | over those runs: turns among tasks of one priority, switches asked for, `xNextTaskUnblockTime`, the order of event lists |
| `Scheduler`, `TaskTable` | the functions of `tasks.c` changing the kernel's variables in place; the table of all tasks |
| `Timeouts` | `xTaskCheckForTimeOut` in blocking loops, `vTaskDelayUntil` |
| `Timers`, `TimerTrace`, `TimerCatchUp`, `TimerChanges`, `TimerService` | the timer daemon with its two lists, command queue and re-posted starts; what a timer does over whole runs; a daemon that is behind catches up; timers started anew, changed or stopped; the daemon's functions in place |
| `EventItems`, `Words`, `EventWords`, `EventGroups`, `EventAnswers`, `Barrier` | the 32-bit item encoding and how words stand for sets of bits; event groups, what their calls answer, and the rendezvous as a barrier over unbounded rounds |
| `StreamBuffers`, `MessageBuffers` | one writer and one reader interleaved byte by byte without locks; message framing |

A critical section, or a stretch with the scheduler suspended, is one step of a state machine.
Where only the scheduler is suspended, interrupts may come between any two steps. Which step
comes next, how long a task takes and when a block time runs out are left open, so every
result holds for every schedule. Wrapping arithmetic is written out with the modulus 2^N as a
parameter (`m`), next to a ghost clock without bound. Code that changes state in place is a
class whose methods are proved to do what the functions of the state machine say, and the
results about runs are proved about those functions.

The configuration is that of `libraries/ms-freertos/inc/FreeRTOSConfig.h` where it matters:
preemption, time slicing, mutexes, recursive mutexes and `INCLUDE_vTaskSuspend` on; generic
task selection; queue sets, tickless idle and abort-delay off.

## Where the code and its comments differ

Each of these is a lemma below; the model follows the code.

- `include/list.h:372-383` says that an item inserted at the end is returned last. When the
  index stands on an item, that item comes after it (`Lists.InsertEndVisitedLast`).
- `tasks.c:160-161` says that tasks of one priority get an equal share of the processor. None of
  them starves (`RoundRobin.NoReadyTaskStarves`), but when the running task leaves its list the
  index falls back onto the task before it, and a task readied before the next choice overtakes
  that one (`RoundRobin.NewcomerOvertakes`).
- `queue.c:1500-1507` says why `xInheritanceOccurred` must be false there. A task that lent its
  priority, timed out, found the mutex free and lost it again on the way back fails the
  assertion: `MutexLimits.AssertionFailsExactly` says when, `MutexLimits.InheritanceAssertionFails`
  gives a run.
- `include/task.h:1065-1070` says that `vTaskResume` resumes a suspended task. It tells one by
  its lists alone, and so also readies a task that was never suspended and waits for its
  notification without limit, which `eTaskGetState` (`tasks.c:1385-1412`) calls blocked:
  `Suspension.ResumeReadiesExactly`, `Suspension.ResumeReadiesBlockedTask`.
- `tasks.c:4700-4701` and its two copies for interrupts say that a task woken by a notification
  is on no event list. A task that waits for its notification and is resumed from an interrupt
  while the scheduler is suspended is on the list of pending tasks, and still waiting:
  `Notifications.NotifyFailsExactly` says when, `Notifications.NotificationFails` gives a run.
- A lent priority is not passed on (`tasks.c:3868-3948`): with a chain of two mutexes a holder
  runs below a task waiting for its mutex (`MutexRuns.ChainBreaksRanks`).
- `queue.c:2049-2054` says that a timeout takes the holder down to the highest priority still
  waiting. It reads the head of the list, and a task whose priority changes while it waits keeps
  its place there; the head need not be the highest, and the holder may come down too far.
  `MutexChains.StepKeepsRanksExactly` says when, `MutexRuns.StaleHeadBreaksRanks` gives a run.
- `tasks.c:4002-4010` says that a switch should occur when the last mutex is given back, whether
  a task is waiting for it or not. `queue.c:844-862` asks for one only if nobody waits or the task
  woken is the higher: `MutexRanks.LoweringGiveYieldsExactly`, and a run in which a lower task goes
  on and takes a mutex over a higher one, `MutexRuns.SkippedSwitchBreaksRanks`.
- The lock counts are `int8_t`. The 128th interrupt operation in one lock period wraps the
  count and the wake-ups it stood for are lost (`QueueLimits.IsrSendSafeExactly`,
  `QueueLimits.IsrReceiveSafeExactly`, `QueueLimits.LockCountWraps`).
- `xQueueGenericReset` frees the whole queue and wakes one sender
  (`QueueLimits.ResetSafeExactly`, `QueueLimits.ResetStrandsSender`).
- A block of zero ticks at the last tick before the count wraps leaves a task on the list that
  the switch asserts to be empty (`Delays.ZeroDelayBeforeWrap`). The public functions do not
  block for zero ticks.
- `xTaskCheckForTimeOut` is right for any delay between checks except one family, given exactly
  by `Timeouts.CheckIsRightExactly`; `Timeouts.LateCheckGoesOn` is an input of it.
- Overwriting a full queue of items without size counts past its length; the contract of
  `Queue.QueueDefinition.CopyDataToQueue` says exactly when.

## Model

| member | source | states |
|---|---|---|
| `Lists.InsertSorted` | libraries/FreeRTOS/list.c:103-167 | inserting by value into a sorted list gives a sorted list |
| `Lists.InsertStable` | libraries/FreeRTOS/list.c:103-167 | insertion is stable: the new item stands after every item of its own value and before every greater one, and the old items keep their order |
| `Lists.InsertGreatest` | libraries/FreeRTOS/list.c:122-125 | an item of the greatest value goes to the very end, so the special case for `portMAX_DELAY` gives what the search would |
| `Lists.RemoveUndoesInsert` | libraries/FreeRTOS/list.c:170-196 | removing an inserted item gives back the list as it was |
| `Lists.RemoveSorted` | libraries/FreeRTOS/list.c:170-196 | removal keeps a list sorted |
| `Lists.VisitsEachOnce` | libraries/FreeRTOS/include/list.h:277-288 | n next-entry steps on an n-item list return every item exactly once, wherever the walk starts |
| `Lists.InsertEndVisitedLast` | libraries/FreeRTOS/list.c:74-100 | the turn of an item inserted at the end, exactly: last of all when the index stands on the end marker, otherwise last but one, before the item the index stands on |
| `LinkedList.KernelList.constructor` | libraries/FreeRTOS/list.c:37-59 | an initialised list is an empty circle of its end marker |
| `LinkedList.KernelList.Splice` | libraries/FreeRTOS/list.c:157-164 | the pointer assignments of an insertion keep a well-linked circle |
| `LinkedList.KernelList.Insert` | libraries/FreeRTOS/list.c:103-167 | on the heap, the search for the place ends for every value, `portMAX_DELAY` included, and insertion by value keeps links, count, container and index well formed and does what `Lists.Insert` does to the items |
| `LinkedList.KernelList.InsertEnd` | libraries/FreeRTOS/list.c:74-100 | on the heap, insertion just before the index keeps the list well formed and does what `Lists.InsertEnd` does |
| `LinkedList.KernelList.Remove` | libraries/FreeRTOS/list.c:170-196 | on the heap, removal keeps the list well formed, moves an index that stood on the item to the one before it, and returns the items left |
| `LinkedList.KernelList.NextEntry` | libraries/FreeRTOS/include/list.h:277-288 | the index moves to the next item and skips the end marker |
| `Queue.SlotsOfUpdate` | libraries/FreeRTOS/queue.c:2096-2121 | bytes changed inside one slot change that slot and no other |
| `Queue.DequeAtBack` | libraries/FreeRTOS/queue.c:2096-2108 | writing the slot behind the last item appends to the queue |
| `Queue.DequeAtFront` | libraries/FreeRTOS/queue.c:2109-2121 | writing the slot before the first item prepends to the queue |
| `Queue.DequeDropsFirst` | libraries/FreeRTOS/queue.c:2149-2164 | moving the read pointer on takes the first item off |
| `Queue.QueueDefinition.constructor` | libraries/FreeRTOS/queue.c:429-468 | a new queue is empty, unlocked and has both pointers aligned |
| `Queue.QueueDefinition.CopyDataToQueue` | libraries/FreeRTOS/queue.c:2070-2146 | copying an item in puts it behind all items, before all, or in place of the one there, as its position asks, pointers staying on item boundaries inside the storage, and never counts past the length, except exactly when a full queue of items without size is overwritten |
| `Queue.QueueDefinition.CopyDataFromQueue` | libraries/FreeRTOS/queue.c:2149-2164 | copies the first item and leaves the read pointer on it |
| `Queue.QueueDefinition.SendSection` | libraries/FreeRTOS/queue.c:768-874 | a send succeeds exactly when there is room or it overwrites; then it is a deque operation and wakes at most the first waiting receiver |
| `Queue.QueueDefinition.SendFromIsr` | libraries/FreeRTOS/queue.c:957-1105 | the same from an interrupt, where on a locked queue the signal is counted instead |
| `Queue.QueueDefinition.ReceiveSection` | libraries/FreeRTOS/queue.c:1297-1338 | a receive takes the first item exactly when there is one, and wakes at most the first waiting sender |
| `Queue.QueueDefinition.ReceiveFromIsr` | libraries/FreeRTOS/queue.c:1781-1869 | the same from an interrupt, counting on a locked queue |
| `Queue.QueueDefinition.PeekSection` | libraries/FreeRTOS/queue.c:1655-1697 | a peek sees the first item, restores the read pointer, leaves the queue as it was and passes the wake-up on |
| `Queue.QueueDefinition.Lock` | libraries/FreeRTOS/queue.c:240-252 | locking does not disturb counts already running |
| `Queue.QueueDefinition.UnlockTx` | libraries/FreeRTOS/queue.c:2167-2253 | the unlock loop wakes one receiver for each counted signal while any wait, and unlocks |
| `Queue.QueueDefinition.UnlockRx` | libraries/FreeRTOS/queue.c:2255-2284 | the same for senders |
| `Queue.QueueDefinition.Reset` | libraries/FreeRTOS/queue.c:255-305 | a reset empties the queue, unlocks it and wakes one sender |
| `QueueProtocol.UnlockSafe` | libraries/FreeRTOS/queue.c:2167-2284 | unlocking turns every counted signal into a wake-up or runs out of tasks to wake, so nothing a waiting task needs is lost |
| `QueueProtocol.SignalFromIsrSafe` | libraries/FreeRTOS/queue.c:1005-1092 | an interrupt's signal, direct or counted, accounts for the unit it adds as long as the count is below 127 |
| `QueueProtocol.StepKeepsInv` | libraries/FreeRTOS/queue.c:747-955 | every step of every blocking send, receive or peek, of every interrupt and of every timeout keeps the wake-up invariant, at every point of the lock protocol |
| `QueueProtocol.NoLostWakeUp` | libraries/FreeRTOS/queue.c:1273-1411 | in every state any run reaches, while receivers wait the messages are at most the woken receivers plus the counted signals, and dually free slots for senders |
| `QueueProtocol.NobodySleepsOnAvailableUnit` | libraries/FreeRTOS/queue.c:1632-1778 | once all woken tasks have retried and the queue is not locked, a task waiting to receive means an empty queue and one waiting to send a full one |
| `QueueOrder.FirstInFirstOut` | libraries/FreeRTOS/queue.c:2070-2164 | with sends to the back only, messages accepted are messages delivered followed by messages queued, in every reachable state |
| `QueueOrder.WakesHighestPriority` | libraries/FreeRTOS/tasks.c:2977-2991 | the task an event wakes is one of the highest priority waiting, on either side, in every reachable state |
| `QueueContents.SentToFrontIsTakenNext` | libraries/FreeRTOS/queue.c:2109-2121 | a message sent to the front, by a task or an interrupt, is the next one received, by either, which leaves the queue as it was before the send |
| `QueueContents.OverwrittenIsTakenNext` | libraries/FreeRTOS/queue.c:2109-2140 | an overwriting send succeeds even on a full queue; the next message received is its own, and the queue is empty then |
| `QueueContents.DequeHistory` | libraries/FreeRTOS/queue.c:2070-2164 | a queue is a deque in every run: with sends to either end, each message accepted is delivered once or queued once, and the next to be delivered is the latest sent to the front or, when none of the queued ones was, the earliest |
| `QueueContents.TryAnswers` | libraries/FreeRTOS/queue.c:766-900 | a critical section does its work if there is a message or a place, and nothing otherwise; then a call that may block goes on to block and any other returns |
| `QueueContents.CallEndsExactly` | libraries/FreeRTOS/queue.c:747-1411 | a call under way returns if and only if it did its work or might not block, a sender out of time resumed the scheduler, or a receiver out of time found the queue empty once more |
| `QueueContents.BlocksExactlyWhenItMust` | libraries/FreeRTOS/queue.c:912-917 | with the queue locked, a task goes on to its event list if and only if there is still no message for it, or no place |
| `QueueContents.SleepsExactlyWhenPlaced` | libraries/FreeRTOS/queue.c:917-940 | a task goes to sleep if and only if it has put itself on the event list of its kind |
| `QueueContents.GivesUpExactly` | libraries/FreeRTOS/queue.c:912-952 | a call gives up if and only if the check of its time says that it is over |
| `QueueContents.TimeOutTakesOff` | libraries/FreeRTOS/tasks.c:2714-2719 | a task whose time is over leaves its event list, the others keep their order, and it can run again |
| `QueueContents.PatientCallSucceeds` | libraries/FreeRTOS/queue.c:747-1411 | over every run a call that may block without limit returns only when it has done its work |
| `QueueLimits.IsrSendSafeExactly` | libraries/FreeRTOS/queue.c:1087-1092 | an interrupt's send on a locked queue keeps wake-ups safe if and only if the `int8_t` count is below 127, nobody waits, or the woken tasks already cover the messages |
| `QueueLimits.IsrReceiveSafeExactly` | libraries/FreeRTOS/queue.c:1824-1860 | the dual for senders: an interrupt's receive keeps wake-ups safe if and only if the receive lock count is below 127, nobody waits to send, or the woken senders already cover the free slots |
| `QueueLimits.LockCountWraps` | libraries/FreeRTOS/queue.c:1087-1092 | with 128 interrupt sends in one lock period the count wraps, unlocking wakes nobody and a receiver sleeps on a queue of 128 messages: the run is given |
| `QueueLimits.ResetSafeExactly` | libraries/FreeRTOS/queue.c:269-288 | a reset of a queue in use keeps senders' wake-ups safe if and only if at most one sender waits or the woken ones cover the length |
| `QueueLimits.ResetStrandsSender` | libraries/FreeRTOS/queue.c:269-288 | the run is given: two interrupts fill a queue of two, two senders block, and after a reset one of them still sleeps although two slots are free |
| `Ticks.LowAdd` | libraries/FreeRTOS/tasks.c:5032-5041 | N-bit addition shows the sum of unbounded times, and says whether the count wrapped in between |
| `Ticks.LowSub` | libraries/FreeRTOS/tasks.c:3183-3184 | N-bit subtraction gives the true distance of two times less than 2^N apart, and comparing them tells the wrap periods apart |
| `Ticks.LowShift` | libraries/FreeRTOS/tasks.c:2205-2230 | adding a multiple of 2^N does not show in the tick count |
| `Timers.StepKeepsValid` | libraries/FreeRTOS/timers.c:692-836 | every step of the daemon, every command and every tick keep both timer lists sorted and disjoint and the queued commands well formed |
| `Timers.SwitchOneGetsCloser` | libraries/FreeRTOS/timers.c:839-895 | each round of the switching loop strictly decreases the sum of 2^N - expiry over the listed timers |
| `Timers.SwitchListsKeepsListsOk` | libraries/FreeRTOS/timers.c:839-895 | after the switch the old overflow list is current and the other list empty |
| `Timers.DistanceInsert` | libraries/FreeRTOS/timers.c:839-895 | putting a timer back adds exactly its own distance to the measure |
| `TimerTrace.PlacementIsExact` | libraries/FreeRTOS/timers.c:651-689 | the N-bit comparisons decide what unbounded time decides: expired exactly when the expiry is not after now, otherwise onto the list of the expiry's own wrap period |
| `TimerTrace.ChangedPeriodIsFuture` | libraries/FreeRTOS/timers.c:789-801 | a changed period never expires at once, so the ignored result of the insertion loses nothing |
| `TimerTrace.ReloadIsPending` | libraries/FreeRTOS/timers.c:866-885 | a timer reloaded during a switch, or re-posted to after it, is due next exactly one period later |
| `TimerTrace.ReloadExpiredIsPending` | libraries/FreeRTOS/timers.c:476-494 | the same for a timer reloaded after it expired, whether it is listed or re-posted because it is late already |
| `TimerTrace.SwitchListsKeepsTracked` | libraries/FreeRTOS/timers.c:839-895 | a switch of the lists calls a timer as often as it is due and keeps its next expiry |
| `TimerTrace.HandleOwnKeepsTracked` | libraries/FreeRTOS/timers.c:753-781 | handling a start command, fresh or re-posted, calls the timer if it is late and keeps its next expiry |
| `TimerTrace.StepKeepsTracked` | libraries/FreeRTOS/timers.c:506-600 | every step leaves the timer with calls for c + p, c + 2p, ... so far and pending for the next one |
| `TimerTrace.TimerIsNeverEarly` | libraries/FreeRTOS/timers.c:466-503 | over every run the k-th call of a timer is for expiry c + kp and is made at or after it; an auto-reload timer is never called more often than periods have passed, a one-shot timer at most once |
| `TimerTrace.TimerSkipsNothing` | libraries/FreeRTOS/timers.c:506-600 | over every run, when the daemon has settled every expiry up to its last look at the clock has had its call, and a one-shot timer exactly the one it is due |
| `TimerTrace.DueIs` | libraries/FreeRTOS/timers.c:753-781 | the k-th expiry is k periods after the start |
| `TimerTrace.SwitchCallsInOrder` | libraries/FreeRTOS/timers.c:839-895 | the switch calls the timers in nondecreasing order of expiry, for any timers and periods, the first one first |
| `TimerTrace.SleepsNoLongerThanDue` | libraries/FreeRTOS/timers.c:563-592 | the daemon's block time never carries it past a timer's next expiry |
| `TimerCatchUp.PollTakesUpDue` | libraries/FreeRTOS/timers.c:542-598 | a poll never passes over a timer that is due: it calls it in the switch of the lists, goes on to process it or an earlier one, or brings it onto the current list, unless it waits in a start command |
| `TimerCatchUp.PollTakesUpListed` | libraries/FreeRTOS/timers.c:542-563 | for a timer of the current list: called in the switch if there is one, otherwise the head of the list, due no later, is processed next |
| `TimerCatchUp.PollBringsOverflow` | libraries/FreeRTOS/timers.c:628-648 | a timer of the overflow list is due only if the count has wrapped, and then the poll brings it onto the current list |
| `TimerCatchUp.WaitingPollIsEarlyEnough` | libraries/FreeRTOS/timers.c:565-580 | when a poll neither switches nor processes, no listed timer is due and the time it waits ends no later than any of them is |
| `TimerCatchUp.SwitchCallsListed` | libraries/FreeRTOS/timers.c:839-894 | the switch calls every timer of the current list at least once |
| `TimerCatchUp.SwitchCoversPeriod` | libraries/FreeRTOS/timers.c:864-885 | and makes every call that falls into the wrap period just ended: what is left pending is due after the wrap |
| `TimerCatchUp.DaemonWorks` | libraries/FreeRTOS/timers.c:506-540 | unless the daemon has nothing left to do, each of its steps brings it nearer to that, by a measure of how late timers and commands are |
| `TimerCatchUp.Rested` | libraries/FreeRTOS/timers.c:506-540 | so with the clock standing and no further command its steps end: with an empty queue and nothing due |
| `TimerCatchUp.DaemonCatchesUp` | libraries/FreeRTOS/timers.c:506-540 | by then every expiry up to now of a started timer has had its call, however many it was behind |
| `TimerChanges.ChangedPeriodStartsAfresh` | libraries/FreeRTOS/timers.c:789-801 | a change of period, to an active or a dormant timer, starts it from the time the change is handled |
| `TimerChanges.ChangedPeriodIsKept` | libraries/FreeRTOS/timers.c:789-801 | over every run after it the calls come at the new period from that time, never early and without a gap |
| `TimerChanges.RestartStartsAfresh` | libraries/FreeRTOS/timers.c:753-781 | a start or reset of a timer, active or dormant, starts it afresh from the time the command names, if it is handled less than 2^N ticks after that |
| `TimerChanges.RestartIsKept` | libraries/FreeRTOS/timers.c:753-781 | over every run after it the calls are for whole periods after the new start, never early and without a gap, and for no expiry of the old one |
| `TimerChanges.StoppedStaysSilent` | libraries/FreeRTOS/timers.c:783-787 | over every run a stopped timer is not called again until it gets another command |
| `TimerChanges.CommandsInOrder` | libraries/FreeRTOS/timers.c:385-425 | over every run commands are received in the order they were sent, whoever sends more meanwhile, the daemon included |
| `TimerChanges.StartFailsExactly` | libraries/FreeRTOS/timers.c:759-771 | handling a start fails its assertion if and only if the timer has expired since, reloads itself, and the command queue is full |
| `TimerChanges.ExpireFailsExactly` | libraries/FreeRTOS/timers.c:478-490 | processing an expired timer fails its assertion if and only if the next expiry has passed too, it reloads itself, and the queue is full |
| `TimerChanges.ChangeFailsExactly` | libraries/FreeRTOS/timers.c:789-801 | a change of period fails its assertion if and only if the period is zero |
| `TimerService.TimerDaemon.InsertTimerInActiveList` | libraries/FreeRTOS/timers.c:651-689 | the branches give the three placements and change nothing but the timer's value and its list |
| `TimerService.TimerDaemon.SwitchTimerLists` | libraries/FreeRTOS/timers.c:839-895 | the loop ends and does what the proved switch does |
| `TimerService.TimerDaemon.SampleTimeNow` | libraries/FreeRTOS/timers.c:628-648 | lists are switched exactly when the count reads lower than at the last sample |
| `TimerService.TimerDaemon.CheckTimers` | libraries/FreeRTOS/timers.c:542-626 | as far as the decision: a timer has expired if and only if the lists are not switched and the head of the current list is due, which is the one reported; otherwise no listed timer is due and the block time is the distance to the head |
| `TimerService.TimerDaemon.ProcessExpiredTimer` | libraries/FreeRTOS/timers.c:466-503 | the expired timer is taken off, reloaded or re-posted, and called |
| `TimerService.TimerDaemon.HandleCommand` | libraries/FreeRTOS/timers.c:692-836 | one command from the sample on |
| `TimerService.TimerDaemon.ReceiveCommand` | libraries/FreeRTOS/timers.c:699-737 | a command is taken off the queue and its timer off its list |
| `Mutex.StepKeepsInv` | libraries/FreeRTOS/queue.c:1414-1629 | every try, block, give, timeout, recheck, switch, sleep and wake-up keeps the inheritance invariant |
| `Mutex.FirstWaitsHighest` | libraries/FreeRTOS/queue.c:2045-2065 | the priority read off the head of the event list is the highest of all waiting tasks |
| `Mutex.HolderOutranksWaiters` | libraries/FreeRTOS/tasks.c:3868-3948 | in every reachable state in which the mutex is held, the holder's priority is at least that of every task on the event list |
| `Mutex.RaisedOnlyForContender` | libraries/FreeRTOS/tasks.c:3955-4028 | and nobody else is raised: a task above its base priority holds the mutex, and has exactly the priority of a task still inside its take |
| `Mutex.FreeMutexIsClaimed` | libraries/FreeRTOS/queue.c:838-862 | a mutex given while tasks wait is claimed: some task about to try is at least as urgent as every waiting one, and so is the running one |
| `Mutex.TimedOutTaskIsNotHolder` | libraries/FreeRTOS/tasks.c:4066-4072 | the assertion that a timed-out task is not the holder cannot fail |
| `Mutex.SwitchKeepsInv` | libraries/FreeRTOS/tasks.c:2904-2956 | a switch to a ready task of the highest priority keeps a free mutex for a task at least as urgent as those waiting |
| `MutexLimits.AssertionFailsExactly` | libraries/FreeRTOS/queue.c:1500-1507 | the assertion on `xInheritanceOccurred` fails if and only if a task with a recorded inheritance whose last test found the mutex free finds it held again |
| `MutexLimits.LastTryOnlyAfterFreeTest` | libraries/FreeRTOS/queue.c:1571-1622 | a task comes to that last try only through a timeout whose test finds the mutex free |
| `MutexLimits.StepAt` | libraries/FreeRTOS/queue.c:1442-1629 | each step of the run below is one the model and the scheduler can take |
| `MutexLimits.InheritanceAssertionFails` | libraries/FreeRTOS/queue.c:1500-1507 | a whole run of three tasks from a free mutex in which the assertion fails, although its comment says it cannot: take, lend, time out, give back, find free, lose to a third task, last try |
| `MutexCalls.NonBlockingTakeReturns` | libraries/FreeRTOS/queue.c:1442-1510 | a take that may not block is over after one try: with the mutex if nobody held it, and with nothing changed otherwise |
| `MutexCalls.TakeEndsExactly` | libraries/FreeRTOS/queue.c:1414-1629 | a task in a take returns if and only if it tries and finds the mutex free or has no block time left, its last test finds it held and it lent nothing, or it has taken the loan back |
| `MutexCalls.DecideAnswers` | libraries/FreeRTOS/queue.c:1541-1610 | after the check of the time an expired take goes on to its last test, one that finds the mutex free tries again, and only one that finds it held waits |
| `MutexCalls.PatientTakeSucceeds` | libraries/FreeRTOS/queue.c:1414-1629 | over every run a take without limit returns only with the mutex |
| `MutexAccounts.StepKeepsInv` | libraries/FreeRTOS/queue.c:1442-1476 | every take, give, recursive call, inheritance and timeout keeps the books, with any number of mutexes and tasks |
| `MutexAccounts.BooksBalance` | libraries/FreeRTOS/queue.c:2083-2088 | in every reachable state a task's count of mutexes held is the number of mutexes whose holder it is, a mutex has count 1 exactly when nobody holds it, no task is below its base priority, and one holding nothing is at it |
| `MutexAccounts.HolderCounts` | libraries/FreeRTOS/tasks.c:3960-3968 | the assertions that a holder's count is not zero cannot fail |
| `MutexAccounts.ReleasedExactlyWhenMatched` | libraries/FreeRTOS/queue.c:596-686 | over every run, with any steps of other tasks and on other mutexes in between, a task holds a recursive mutex if and only if it has taken it more often than given it back, and as deep as that |
| `MutexAccounts.MatchingGiveReleases` | libraries/FreeRTOS/queue.c:619-641 | in every reachable state a recursive give makes the mutex ready to be released if and only if it makes gives match takes |
| `MutexChains.StepKeepsShape` | libraries/FreeRTOS/queue.c:1442-1629 | with any number of mutexes, every take, block, give, timeout, taking back, recursive call and switch keeps event lists, stages of the takes, item values and holders in step |
| `MutexChains.StepKeepsRanksExactly` | libraries/FreeRTOS/tasks.c:3868-4130 | a step keeps every holder at least as urgent as all tasks waiting for any of its mutexes if and only if it is sound: a take when nobody left waiting is above the taker, a block when the holder does not itself wait for a task lower than the blocking one, a taking back when the holder has other mutexes or nobody waits above both its base priority and the priority read off the head of the list; every other step always |
| `MutexRanks.HoldersOutrankWaiters` | libraries/FreeRTOS/tasks.c:3868-4130 | over every run under the preemptive scheduler in which tasks block only while they hold no mutex, and no give skips a switch, every holder is at least as urgent as each task on the event list of any of its mutexes, and the head of each list is the most urgent on it |
| `MutexRanks.FreeMutexesAreClaimed` | libraries/FreeRTOS/queue.c:838-862 | over the same runs, while tasks wait for a free mutex some task about to try for it is at least as urgent as all of them, and so is the running one |
| `MutexRanks.StepKeepsOrdered` | libraries/FreeRTOS/queue.c:2045-2065 | a task that waits and holds nothing keeps its priority, so the lists stay in order and the head read after a timeout is the highest |
| `MutexRanks.GiveKeepsAheadExactly` | libraries/FreeRTOS/queue.c:838-862 | a give that asks for no switch keeps the running task at least as urgent as everyone waiting for a free mutex if and only if nobody waiting for another free mutex is above the giver once it has come down |
| `MutexRanks.OnlyLoweringSkips` | libraries/FreeRTOS/queue.c:838-862 | only a give of the last mutex by a task with a raised priority can skip a switch |
| `MutexRanks.LoweringGiveYieldsExactly` | libraries/FreeRTOS/tasks.c:4002-4010 | the switch promised when the last mutex goes back and the priority with it is asked for if and only if nobody waits for that mutex or the task woken is above the giver's base priority |
| `MutexLoans.LoanIsRecorded` | libraries/FreeRTOS/tasks.c:3868-3948 | a task that blocks records a loan if and only if its priority is above the holder's own |
| `MutexLoans.GivingUpTakesBackExactly` | libraries/FreeRTOS/queue.c:1594-1618 | giving up leads to a taking back if and only if a loan is on record |
| `MutexLoans.TakingBackLowers` | libraries/FreeRTOS/tasks.c:4035-4130 | a holder of this one mutex is left at its own priority or that of the first task still waiting, whichever is higher; a holder of several keeps what it has, and so does everybody else |
| `MutexLoans.LoansAreSettled` | libraries/FreeRTOS/queue.c:1541-1618 | over every run a task that has lent its priority does not leave its take without the mutex or the loan taken back, unless it blocks anew and records what it lends then |
| `MutexRuns.StepAt` | libraries/FreeRTOS/queue.c:1442-1629 | each step of the runs below is one the model and the scheduler can take |
| `MutexRuns.ChainBreaksRanks` | libraries/FreeRTOS/tasks.c:3868-3948 | a chain of two, the run is given: a lent priority is not passed on to the task its receiver waits for, so a task waits at 3 for a mutex whose holder runs at 2 |
| `MutexRuns.StaleHeadBreaksRanks` | libraries/FreeRTOS/tasks.c:4035-4130 | a run of five tasks: a task lowered where it waits stands before a higher one, the next timeout reads its priority off the head, and the holder comes down below a task still waiting |
| `MutexRuns.SkippedSwitchBreaksRanks` | libraries/FreeRTOS/queue.c:838-862 | a run of four tasks in which nobody blocks holding a mutex: two mutexes go back in the order they were taken, the second give lowers the giver and asks for no switch although a higher task is ready, and the giver takes a mutex for which a higher task waits |
| `MutexAccounts.MutexTable.TakeMutex` | libraries/FreeRTOS/queue.c:1442-1476 | a take succeeds exactly on a free mutex and enters the holder and its count |
| `MutexAccounts.MutexTable.PriorityInherit` | libraries/FreeRTOS/tasks.c:3868-3948 | the holder's priority rises to the blocking task's; the result also covers a holder that runs raised already |
| `MutexAccounts.MutexTable.GiveMutex` | libraries/FreeRTOS/tasks.c:3955-4028 | the priority goes back to the base priority only with the last mutex held, and the result says whether it went down |
| `MutexAccounts.MutexTable.PriorityDisinheritAfterTimeout` | libraries/FreeRTOS/tasks.c:4035-4130 | only a holder of this one mutex is moved, to the greater of its base priority and the highest still waiting |
| `MutexAccounts.MutexTable.GiveRecursive` | libraries/FreeRTOS/queue.c:596-648 | a give by a task that does not hold the mutex is refused and changes nothing |
| `Delays.TickExact` | libraries/FreeRTOS/tasks.c:2640-2748 | a processed tick keeps both delayed lists in order and unblocks exactly the tasks that are due, wrap or not |
| `Delays.ListEmptyAtSwitch` | libraries/FreeRTOS/tasks.c:215-227 | when the count wraps, nobody is left on the list about to be switched away |
| `Delays.EnterKeepsOk` | libraries/FreeRTOS/tasks.c:5032-5059 | blocking for any finite time puts the task on the list of the wrap period it is due in |
| `Delays.ZeroDelayBeforeWrap` | libraries/FreeRTOS/tasks.c:215-227 | at the last tick before the wrap, the list is empty at the switch if and only if nobody is delayed by zero ticks |
| `Delays.ValuesAroundTick` | libraries/FreeRTOS/tasks.c:2673-2748 | in N-bit terms: the current list holds values from the tick count on, the overflow list values below it, and the next unblock time is not after the head |
| `Delays.RunRefinesIdeal` | libraries/FreeRTOS/tasks.c:2640-2793 | N-bit ticks and list switching refine a scheduler with unbounded time and no lists, over all runs of blocks, wake-ups and ticks |
| `TaskLists.LengthsSum` | libraries/FreeRTOS/tasks.c:1048-1128 | when every item is on exactly one list of a family, the lengths of the lists sum to the number of items |
| `TaskLists.DetachFacts` | libraries/FreeRTOS/list.c:170-196 | taking an item off its list changes no other list |
| `Kernel.ProcessTickKeeps` | libraries/FreeRTOS/tasks.c:2640-2748 | a processed tick with real task lists is the tick of the delayed lists and moves tasks to ready lists only |
| `Kernel.ProcessTicksKeeps` | libraries/FreeRTOS/tasks.c:2205-2230 | any number of pended ticks caught up one by one keep every list in order, advance the clock by as many and move tasks to ready lists only |
| `Kernel.ProcessTicksUnblock` | libraries/FreeRTOS/tasks.c:2205-2230 | and unblock a task if and only if it is due by then |
| `Kernel.DrainKeeps` | libraries/FreeRTOS/tasks.c:2173-2201 | readying the pending tasks wakes those and no others |
| `KernelRuns.StepKeepsInv` | libraries/FreeRTOS/tasks.c:1672-1768 | ticks, suspend and resume of scheduler and tasks, blocks, events, notifications, creation, deletion, clean-up, priority changes and switches all keep the invariant |
| `KernelRuns.DelayedListsInOrder` | libraries/FreeRTOS/tasks.c:5032-5059 | in every reachable state both delayed lists are sorted, their values lie on the right side of the tick count, the next unblock time is not after the head, and the switch assertion cannot fail |
| `KernelRuns.TicksConserved` | libraries/FreeRTOS/tasks.c:2205-2230 | tick count plus pended ticks is the number of tick interrupts since the start modulo 2^N |
| `KernelRuns.TasksConserved` | libraries/FreeRTOS/tasks.c:1133-1202 | in every reachable state every task, live or waiting for clean-up, is on exactly one list and the lengths add up to `uxCurrentNumberOfTasks` |
| `KernelRuns.SelectionSucceeds` | libraries/FreeRTOS/tasks.c:150-165 | the downward search stops at a non-empty list, its assertion cannot fail |
| `KernelRuns.SelectsHighestPriority` | libraries/FreeRTOS/tasks.c:2904-2956 | the task selected is ready, has the highest priority of all ready tasks, and is the next in turn there |
| `RoundRobin.ReadiedIsLastInTurn` | libraries/FreeRTOS/tasks.c:235-239 | a task made ready goes last in turn at its priority: the tasks that would have run next still do, in their order, then it, and only then the task that ran last |
| `RoundRobin.RequeuedIsLastInTurn` | libraries/FreeRTOS/tasks.c:235-239 | so does a task moved within its ready list |
| `RoundRobin.CreatedIsLastInTurn` | libraries/FreeRTOS/tasks.c:1048-1123 | so does a new task |
| `RoundRobin.RepricedIsLastInTurn` | libraries/FreeRTOS/tasks.c:1623-1644 | so does a ready task given a priority |
| `RoundRobin.OthersComeFirst` | libraries/FreeRTOS/list.c:74-100 | every task already on the list, except the one the index stands on, has its turn before the new one |
| `RoundRobin.StepIsNoLater` | libraries/FreeRTOS/tasks.c:2904-2956 | no step but a choice of the running task takes a ready task farther from its turn, whatever it readies, blocks, moves, creates or deletes |
| `RoundRobin.NoReadyTaskStarves` | libraries/FreeRTOS/tasks.c:2904-2956 | in every run: after as many choices among the tasks of its priority as its list was long, and then as many as it is long by then, a ready task has run |
| `RoundRobin.ChosenWithinListLength` | libraries/FreeRTOS/tasks.c:2904-2956 | one such round is enough for a task the walk has yet to come to in this round |
| `RoundRobin.EveryTaskGetsItsTurn` | libraries/FreeRTOS/tasks.c:2904-2956 | and for every task but the one that ran last while no task leaves the list, whoever is readied meanwhile |
| `RoundRobin.NewcomerOvertakes` | libraries/FreeRTOS/list.c:170-196 | otherwise not: the running task leaves, the index falls back onto the task that was next, and one readied then runs before it |
| `Preemption.TickAsksExactly` | libraries/FreeRTOS/tasks.c:2729-2764 | a tick asks for a switch if and only if after it another task is ready that the running one does not outrank: never too late and never in vain |
| `Preemption.UnaskedStepKeepsForemost` | libraries/FreeRTOS/tasks.c:1048-1123 | a step that asks for no switch, by the comparison its code makes, leaves no ready task above the running one |
| `Preemption.NoPreemptionMissed` | libraries/FreeRTOS/tasks.c:2904-2956 | in every reachable state in which no switch is asked for and none is pending, no ready task outranks the running one; priorities change as in `vTaskPrioritySet` |
| `NextUnblock.StepKeepsExact` | libraries/FreeRTOS/tasks.c:3797-3823 | `xNextTaskUnblockTime` stays exactly the time of the first delayed task, or the greatest time if there is none, through every step that does not take a delayed task away early |
| `NextUnblock.SuspendIsExact` | libraries/FreeRTOS/tasks.c:1721-1727 | suspending a task makes it exact again |
| `NextUnblock.DeleteIsExact` | libraries/FreeRTOS/tasks.c:1190-1198 | and so does deleting another task |
| `NextUnblock.ReachedTimeUnblocks` | libraries/FreeRTOS/tasks.c:2673-2706 | the tick that reaches it never looks at the delayed list in vain |
| `EventOrder.StepKeepsTidy` | libraries/FreeRTOS/tasks.c:2977-2991 | every step keeps an event list whose tasks wait in value order in that order, until a task on it is given another value |
| `EventOrder.EventWakesHighestPriority` | libraries/FreeRTOS/tasks.c:3051-3100 | in every reachable state an event wakes a task of the highest priority among those on such a list |
| `EventOrder.LatecomersWaitLast` | libraries/FreeRTOS/tasks.c:2994-3015 | on every other event list, and among the tasks held pending, a task joins behind all that are there |
| `EventOrder.NewValueFitsExactly` | libraries/FreeRTOS/tasks.c:1612-1617 | a new value for a waiting task leaves its list in order if and only if it fits where the task stands, since no list is sorted again |
| `WakeUps.StepIsExact` | libraries/FreeRTOS/tasks.c:2640-2793 | no step that does not name a blocked task readies it before it is due or leaves it blocked after |
| `WakeUps.WakesExactlyWhenDue` | libraries/FreeRTOS/tasks.c:2640-2793 | a task blocked until time d and touched by nothing is blocked exactly while fewer than d ticks have been processed, then ready, through any wraps and any pended ticks |
| `WakeUps.BlocksForTicks` | libraries/FreeRTOS/tasks.c:4991-5062 | a block of n ticks is until n more ticks have been processed |
| `OtherTasks.OperationKeepsOthers` | libraries/FreeRTOS/tasks.c:1048-1202 | no operation, from block to delete, moves a task it does not name or changes when it is due |
| `Readiness.StepKeepsOthers` | libraries/FreeRTOS/tasks.c:2640-2793 | no operation, tick or catch-up moves a ready or suspended task it does not name |
| `Readiness.StepMovesEvents` | libraries/FreeRTOS/tasks.c:2977-3150 | where every event item is after each operation: blocks, wake-ups and releases, notifications and resumes from interrupts, suspension and deletion move their own item only |
| `Readiness.EventWakes` | libraries/FreeRTOS/tasks.c:3051-3116 | the task an event takes off its list is ready, or pending until the scheduler runs |
| `Readiness.StepDrains` | libraries/FreeRTOS/tasks.c:2149-2201 | nobody is left pending while the scheduler runs |
| `Readiness.WokenIsReadyOnceSchedulerRuns` | libraries/FreeRTOS/tasks.c:2149-2201 | no wake-up made while the scheduler is suspended is lost: over every run a task woken and not stopped since is ready whenever the scheduler runs |
| `Suspension.StepTells` | libraries/FreeRTOS/tasks.c:1773-1816 | every step keeps lists and notification state in agreement with why a task is out of the scheduler's hands: suspended, or blocked without limit for its notification |
| `Suspension.ResumeReadiesExactly` | libraries/FreeRTOS/tasks.c:1819-1869 | in every reachable state a resume, from a task or an interrupt, readies a task that is not suspended if and only if it blocked without limit for its notification and nothing ended that; the suspended tasks, as `eTaskGetState` tells them, are those suspended and not resumed or deleted since |
| `Suspension.ResumeReadiesBlockedTask` | libraries/FreeRTOS/tasks.c:1819-1869 | the run is given, from every start state with a task running beside the idle task: it blocks for its notification, another is switched to, and a resume readies the first, never suspended |
| `Suspension.TwoTasksStart` | libraries/FreeRTOS/tasks.c:1943-2060 | there is such a start state |
| `Suspension.SuspendSuspends` | libraries/FreeRTOS/tasks.c:1672-1768 | a suspended task is off every other list and waits for no notification, whatever it was doing |
| `Suspension.SuspendedStaysSuspended` | libraries/FreeRTOS/tasks.c:1672-1768 | over every run a suspended task stays suspended and is never selected, until it is resumed or deleted; events, ticks and notifications do not wake it |
| `Notifications.StepMovesWaiting` | libraries/FreeRTOS/tasks.c:4631-4740 | who waits for a notification after each operation: blocks, notifications, suspension, creation and the end of a wait move their own task only |
| `Notifications.NotifyFailsExactly` | libraries/FreeRTOS/tasks.c:4692-4701 | in every reachable state the assertion that a notified task is on no event list fails if and only if the task is held pending by a resume from an interrupt that found it waiting for its notification while the scheduler was suspended |
| `Notifications.NotificationFails` | libraries/FreeRTOS/tasks.c:1873-1931 | the run is given, from every start state with a task running beside the idle task: it waits for its notification, another is switched to, the scheduler is suspended and an interrupt resumes the first |
| `Scheduler.TaskScheduler.constructor` | libraries/FreeRTOS/tasks.c:3503-3532 | the lists start with the idle task ready and everything else empty |
| `Scheduler.TaskScheduler.UnblockDelayed` | libraries/FreeRTOS/tasks.c:2667-2748 | the unblocking loop does what the proved tick does, with the next unblock time at the head on both exits |
| `Scheduler.TaskScheduler.IncrementTick` | libraries/FreeRTOS/tasks.c:2640-2793 | a switch is asked for exactly when a task of at least the running one's priority was readied, another task shares that priority, or a yield is pending |
| `Scheduler.TaskScheduler.ReadyPending` | libraries/FreeRTOS/tasks.c:2173-2190 | the loop readies every pending task, and leaves a yield pending exactly when one of them has at least the running task's priority |
| `Scheduler.TaskScheduler.CatchUp` | libraries/FreeRTOS/tasks.c:2205-2230 | the loop over pended ticks processes as many ticks, and leaves a yield pending exactly when one of them asks for a switch |
| `Scheduler.TaskScheduler.ResumeScheduler` | libraries/FreeRTOS/tasks.c:2149-2256 | resuming readies what is pending and catches up; it reports a yield exactly when one was pending, a pending task of at least the running priority was readied, or a tick caught up asked for a switch |
| `Scheduler.TaskScheduler.AddCurrentTaskToDelayedList` | libraries/FreeRTOS/tasks.c:4991-5062 | the running task goes to the delayed list of its wake time, or to the suspended list to wait without limit |
| `Scheduler.TaskScheduler.RemoveFromEventList` | libraries/FreeRTOS/tasks.c:3051-3116 | the first waiting task is readied, or held pending while the scheduler is suspended; the result says whether it outranks the running one |
| `Scheduler.TaskScheduler.Suspend` | libraries/FreeRTOS/tasks.c:1672-1768 | the task leaves state and event lists for the suspended list |
| `Scheduler.TaskScheduler.Resume` | libraries/FreeRTOS/tasks.c:1819-1869 | a task with the lists of a suspended one is readied; a yield is asked for exactly when it is at least as urgent |
| `Scheduler.TaskScheduler.RemoveFromUnorderedEventList` | libraries/FreeRTOS/tasks.c:3119-3150 | an event-group waiter is readied at once though the scheduler is suspended, and a yield left pending exactly when it outranks the running task |
| `Scheduler.TaskScheduler.Notify` | libraries/FreeRTOS/tasks.c:4631-4740 | only a task that waits for its notification is readied, and waits no more; a yield is asked for exactly when it outranks the running task |
| `Scheduler.TaskScheduler.NotifyFromInterrupt` | libraries/FreeRTOS/tasks.c:4745-4870 | the same from an interrupt, pending while the scheduler is suspended |
| `Scheduler.TaskScheduler.PrioritySet` | libraries/FreeRTOS/tasks.c:1508-1665 | the base priority always changes, the priority in use only if it was not inherited, the event item value unless in use; a ready task moves to the end of its list; the yield is asked for exactly in the two cases of the source |
| `Scheduler.TaskScheduler.SetTaskPriority` | libraries/FreeRTOS/tasks.c:3894-3921 | a ready task moves to the list of its new priority, any other only changes its priority |
| `Scheduler.TaskScheduler.AddNewTask` | libraries/FreeRTOS/tasks.c:1048-1128 | the task is counted and goes to the ready list of its priority |
| `Scheduler.TaskScheduler.Delete` | libraries/FreeRTOS/tasks.c:1133-1202 | another task is forgotten at once, the running one goes to the termination list |
| `Scheduler.TaskScheduler.FindHighest` | libraries/FreeRTOS/tasks.c:150-165 | the loop finds the highest non-empty ready list |
| `Scheduler.TaskScheduler.SwitchTask` | libraries/FreeRTOS/tasks.c:2904-2956 | the next task in turn of the highest priority runs, or the yield stays pending while the scheduler is suspended |
| `TaskTable.RoundIsPermutation` | libraries/FreeRTOS/tasks.c:3662-3688 | one round of the walking index visits every task of a list exactly once |
| `TaskTable.RoundEndsAtFirst` | libraries/FreeRTOS/tasks.c:3662-3688 | the loop that stops where it started stops exactly after one whole round |
| `TaskTable.TableListsEveryTaskOnce` | libraries/FreeRTOS/tasks.c:2460-2527 | in every reachable state the lists visited hold every task exactly once, as many as `uxCurrentNumberOfTasks` |
| `TaskTable.ListTasksWithinSingleList` | libraries/FreeRTOS/tasks.c:3662-3688 | the entries written are a round of the list, nothing else of the array changes, and the walking index ends one task further on, so the task next in turn loses its turn |
| `TaskTable.GetSystemState` | libraries/FreeRTOS/tasks.c:2460-2527 | an array too small is left alone and 0 returned; any other receives all entries and nothing past them is written |
| `Timeouts.OverflowsTellPeriods` | libraries/FreeRTOS/tasks.c:215-227 | equal overflow counts mean the same wrap period of the tick count |
| `Timeouts.CheckIsExact` | libraries/FreeRTOS/tasks.c:3173-3233 | with at most one overflow since the last check, a timeout is reported exactly when the wait is over in true time and leaves no ticks to wait, or all of them after a full wrap; otherwise exactly the true time is taken off |
| `Timeouts.CheckIsRightExactly` | libraries/FreeRTOS/tasks.c:3173-3233 | however late, the check is wrong if and only if two or more overflows lie between, the count reads below the recorded one, the wait is over and the N-bit difference is less than it |
| `Timeouts.LateCheckGoesOn` | libraries/FreeRTOS/tasks.c:3173-3233 | an input of that family: a four-bit count, a wait of 13 from time 5 and a check at time 33, which lets the wait go on |
| `Timeouts.LoopTelescopes` | libraries/FreeRTOS/queue.c:1297-1410 | along any number of checks remaining plus true elapsed time is the original wait, and the loop times out exactly when a check comes at or after its end |
| `Timeouts.UnlimitedLoopGoesOn` | libraries/FreeRTOS/tasks.c:3197-3206 | a wait of `portMAX_DELAY` never times out along any number of checks at any times, and its record stays as it was |
| `Timeouts.TimeOutState.CheckForTimeOut` | libraries/FreeRTOS/tasks.c:3173-3233 | the branches in place, record and remaining time |
| `Timeouts.DelaysExactlyUntilWake` | libraries/FreeRTOS/tasks.c:1225-1304 | a fixed-period delay is made exactly when the new wake time is still to come, and for exactly the time left |
| `Timeouts.PeriodIsFixed` | libraries/FreeRTOS/tasks.c:1225-1304 | the k-th wake time is k increments after the start through any number of wraps |
| `EventItems.MaskRoundTrips` | libraries/FreeRTOS/event_groups.c:329-397 | the mask is recovered from the 32-bit item value |
| `EventItems.ClearRoundTrips` | libraries/FreeRTOS/event_groups.c:329-397 | the clear-on-exit option is recovered |
| `EventItems.AllRoundTrips` | libraries/FreeRTOS/event_groups.c:329-397 | the wait-for-all option is recovered |
| `EventItems.WalkTestsCondition` | libraries/FreeRTOS/event_groups.c:551-575 | the test made on the item value during the walk is the condition the task waits for |
| `EventItems.HandedBitsRoundTrip` | libraries/FreeRTOS/event_groups.c:588-594 | a released task gets the bits it was handed and can tell it was released |
| `EventItems.TimeoutIsRecognised` | libraries/FreeRTOS/event_groups.c:414-443 | a task that timed out can tell it was not released |
| `EventGroups.SetBitsReleasesExactly` | libraries/FreeRTOS/event_groups.c:519-610 | a set releases exactly the waiters that old bits with the new ones satisfy, hands each that value, and leaves the others asleep unsatisfied |
| `EventGroups.SetBitsClearsExactly` | libraries/FreeRTOS/event_groups.c:577-605 | a set clears exactly the union of the masks of released clear-on-exit waiters |
| `EventGroups.StepKeepsInv` | libraries/FreeRTOS/event_groups.c:191-308 | every call and timeout keeps every sleeping waiter unsatisfied |
| `EventGroups.NoSatisfiedWaiterSleeps` | libraries/FreeRTOS/event_groups.c:311-458 | in every reachable state a task on the list that waits for all its bits lacks one, and one that waits for any lacks all |
| `EventGroups.ReleasedWithItsCondition` | libraries/FreeRTOS/event_groups.c:399-458 | a task released by a set returns all the bits it waited for, or one of them if it waited for any, however much later it runs |
| `EventGroups.BitsAccountedFor` | libraries/FreeRTOS/event_groups.c:191-610 | no event is lost: for every call, a bit found or set is still set after it if and only if the call does not clear it outright and no clear-on-exit waiter or caller whose whole condition the bits met asked for it |
| `EventAnswers.SetReleasesByBits` | libraries/FreeRTOS/event_groups.c:551-575 | a set takes a task that waits for all its bits off the list if and only if each was set or is being set, and one that waits for any if and only if one is |
| `EventAnswers.WaitAnswers` | libraries/FreeRTOS/event_groups.c:329-397 | a wait for all bits blocks, if it may, if and only if one is missing, a wait for any if and only if all are; otherwise it returns the bits as found, and clears its own only if its condition was met |
| `EventAnswers.SyncAnswers` | libraries/FreeRTOS/event_groups.c:206-248 | what a rendezvous returns, clears and releases, with the bits before clearing if it is complete and those left otherwise |
| `EventAnswers.FinishAnswers` | libraries/FreeRTOS/event_groups.c:410-450 | a released task returns the bits it was handed; one out of time returns those it finds, and clears its own only if its condition has been met by then |
| `EventAnswers.TimedOutCanReturn` | libraries/FreeRTOS/event_groups.c:410-443 | a task out of time leaves the list, the others keep their order, and it can return |
| `EventWords.ConditionAgrees` | libraries/FreeRTOS/event_groups.c:671-700 | on 24-bit words the test of a wait condition is the one on sets of bits |
| `EventWords.WalkAgrees` | libraries/FreeRTOS/event_groups.c:551-575 | and so is the test made on item values |
| `EventWords.OrDecodes` | libraries/FreeRTOS/event_groups.c:542-542 | setting bits in a word is a union |
| `EventWords.WithoutDecodes` | libraries/FreeRTOS/event_groups.c:605-605 | clearing them is a difference |
| `EventWords.DecodeInjective` | libraries/FreeRTOS/event_groups.c:528-531 | no two plain words stand for the same set |
| `EventGroups.EventGroup.SetEventBits` | libraries/FreeRTOS/event_groups.c:519-610 | the walk that edits its own list releases and clears what the one-shot definition says |
| `EventGroups.EventGroup.WaitForBits` | libraries/FreeRTOS/event_groups.c:311-397 | returns, clears or blocks by the three branches of the call |
| `EventGroups.EventGroup.Synchronise` | libraries/FreeRTOS/event_groups.c:191-262 | a rendezvous complete with the caller's bits returns the bits before clearing, else waits |
| `EventGroups.EventGroup.FinishCall` | libraries/FreeRTOS/event_groups.c:399-458 | the end of a call that blocked |
| `EventGroups.EventGroup.ClearEventBits` | libraries/FreeRTOS/event_groups.c:461-485 | returns the bits before clearing |
| `Barrier.BarrierHolds` | libraries/FreeRTOS/event_groups.c:191-308 | over any number of rounds tasks never differ by more than one in rounds entered, and none returns from a round before all have entered it |
| `Barrier.EveryReturnIsWhole` | libraries/FreeRTOS/event_groups.c:212-224 | every value returned contains the whole mask and the bits are clear whenever a round ends |
| `Barrier.CompleteExactly` | libraries/FreeRTOS/event_groups.c:208-224 | a caller completes the rendezvous exactly when every other task is on the list |
| `Barrier.SomebodyCanStep` | libraries/FreeRTOS/event_groups.c:191-308 | the barrier cannot lock up |
| `StreamBuffers.SpacesAndBytes` | libraries/FreeRTOS/stream_buffer.c:470-492 | space and bytes always add up to one less than the storage |
| `StreamBuffers.StepKeepsInv` | libraries/FreeRTOS/stream_buffer.c:1088-1186 | every load and store of an index and every byte copied, in any interleaving, keeps the buffered bytes and what each side is copying |
| `StreamBuffers.StreamIsFifo` | libraries/FreeRTOS/stream_buffer.c:1088-1206 | under every interleaving bytes received followed by bytes buffered are exactly the bytes committed |
| `StreamBuffers.StaleReadingsAreSafe` | libraries/FreeRTOS/stream_buffer.c:470-492 | space or bytes computed from a stale index are really there |
| `StreamBuffers.SendTakesWhatFits` | libraries/FreeRTOS/stream_buffer.c:670-683 | a send goes on with all its data or as much as fits the space counted, and gives up only when there is none |
| `StreamBuffers.ReceiveTakesWhatIsThere` | libraries/FreeRTOS/stream_buffer.c:956-967 | a receive goes on for as many bytes as were asked for, or for all it counted |
| `StreamBuffers.SendWritesWhatFits` | libraries/FreeRTOS/stream_buffer.c:575-606 | over every run a send that has ended made available all its data or as much as there was room for when it began; if the reader took nothing, all the data is in or the buffer is full |
| `StreamBuffers.ReceiveTakesFirstBytes` | libraries/FreeRTOS/stream_buffer.c:784-813 | over every run a receive that has ended took the first bytes there when it began, as many as it asked for or all of them |
| `StreamBuffers.WriterEndsAlone` | libraries/FreeRTOS/stream_buffer.c:1088-1131 | the writer's own steps end a send, whatever the reader does |
| `MessageBuffers.LengthRoundTrips` | libraries/FreeRTOS/stream_buffer.c:681-692 | a length that fits its field is read back as written |
| `MessageBuffers.SendAppends` | libraries/FreeRTOS/stream_buffer.c:661-710 | a send appends exactly its message, or returns 0 and changes nothing |
| `MessageBuffers.ReceiveTakesFirst` | libraries/FreeRTOS/stream_buffer.c:918-967 | a receive takes exactly the first message, or, into too small a buffer, returns 0 and changes nothing |
| `MessageBuffers.MessagesRoundTrip` | libraries/FreeRTOS/stream_buffer.c:661-967 | for any sequence of sends and receives the messages received are the accepted ones in order and byte for byte, and the buffer holds the rest |
| `MessageBuffers.MessageBuffer.WriteBytes` | libraries/FreeRTOS/stream_buffer.c:1088-1131 | both copies around the wrap append the bytes |
| `MessageBuffers.MessageBuffer.ReadBytes` | libraries/FreeRTOS/stream_buffer.c:1134-1186 | both copies around the wrap take the first bytes, as many as asked for and there |
| `MessageBuffers.MessageBuffer.SendMessage` | libraries/FreeRTOS/stream_buffer.c:661-710 | in place, a send does what the proved framing does |
| `MessageBuffers.MessageBuffer.ReceiveMessage` | libraries/FreeRTOS/stream_buffer.c:918-967 | in place, a receive, with the tail put back when the message does not fit |
| `MessageBuffers.NextLengthIsFirst` | libraries/FreeRTOS/stream_buffer.c:817-858 | the length read ahead is that of the first message, and the assertion that a buffer with no more bytes than a length field is empty cannot fail |
| `MessageBuffers.MessageBuffer.NextMessageLength` | libraries/FreeRTOS/stream_buffer.c:817-858 | the length of the first message, which stays |

## Left out

- Ports, context save and restore, stacks, MPU wrappers, hooks, trace and coverage macros, static and dynamic allocation, the queue registry and text formatting: plumbing. A yield is "the task selected becomes current".
- Queue sets, tickless idle, abort-delay and port-optimised task selection: switched off in the configuration modelled, and they repeat the cases proved.
- `croutine.c`: a smaller copy of the delayed-list scheme and the queue code.
- `mu/`, `codegen/`, `misra/`, `lint.py` and the CMSIS headers: I/O, glue, heuristics or declarations.
- Widths of `uxPendedTicks`, `xNumOfOverflows`, `uxMessagesWaiting` and `size_t`: these counters do not wrap in the model. The tick count, timer values, times and lock counts do.
- Event values in `Kernel` and `QueueProtocol`: a priority change while a task waits changes its value without moving it in its event list, as in the code. `EventOrder.NewValueFitsExactly` says when the list is then out of order, and the results on order in `QueueOrder` and `EventOrder` are for runs without such a change; `Mutex` has changing priorities, but of the holder only, who does not wait; in `MutexChains` the tasks that wait change theirs too.
- Suspending, deleting or re-prioritising a task inside a queue call, or a task woken by one: excluded from `QueueProtocol`, `Mutex` and `MutexChains`, where such a task takes its wake-up with it.
- A task taking a plain mutex it holds, in `Mutex` and `MutexChains`; one task holding several mutexes, in `Mutex`: `MutexAccounts` and `MutexChains` have any number.
- Base priorities in `KernelRuns`: its steps change the priority in use, to any value, with or without the event item value. `Scheduler.TaskScheduler.PrioritySet` has both priorities. `Mutex`, `MutexAccounts` and `MutexChains` are for runs without `vTaskPrioritySet`.
- Notification values, and whether a notification has been received: a task waits for its notification or does not. A run ends where the assertion of the notify functions fails; `Notifications` says when that is.
- The item values of event-group waiters in `Kernel`: they stand at the end of their list in any case. `EventItems` and `EventGroups` have the values.
- Creating tasks before the scheduler runs, and leaving it (`vTaskEndScheduler`).
- xYieldPending: a variable of the class `Scheduler.TaskScheduler`; in the state machine a switch may come at any time, and `Preemption` follows whether one is asked for.
- Timer commands racing a queued re-start of the same timer (stop, reset, change of period): `TimerTrace` and `TimerChanges` follow a timer from a start while dormant, or from the handling of the last start, stop or change of period queued for it, and no further command. Other timers get any. Deleting a timer is stopping it. Pended function calls are not in the model.
- A tick or command during `prvSwitchTimerLists` takes effect after it: the switch is one step, with all its callbacks at one time.
- A full timer queue: a failed post is the assertion the code makes, and results are for runs in which it does not fail.
- Event bits are sets in `EventGroups`; `EventItems` and `EventWords` prove that the 32-bit words carry the same information and their operations do the same. The interrupt variants of set and clear run in the timer daemon and are the same steps.
- The value `xEventGroupSetBits` returns is read in the same step; a task released meanwhile cannot clear more bits before it is read.
- Blocking in stream and message buffers (trigger level, task notification, `xStreamBufferReset`): sends and receives do not wait.
- A message receive interrupted by the writer: message framing is sequential, the interleaving is proved for streams.
- Messages of length zero: `prvWriteBytesToBuffer` asserts against them.
- Queue.QueueDefinition.CopyDataToQueue: says nothing about the contents when the count exceeds the length, because there is no such queue.
- QueueProtocol.NoLostWakeUp: for fewer than 128 interrupt operations in one lock period; `QueueLimits.IsrSendSafeExactly` says what happens otherwise.
- Mutex.RaisedOnlyForContender: until the assertion of `queue.c:1505` fails; after it the task that failed may have left its priority lent.
- MutexRanks.HoldersOutrankWaiters: for runs in which a task that blocks on a mutex holds none and no give skips a switch; the runs in `MutexRuns` break the ranks where one of these fails.
- The last try of a take out of block time, in `MutexChains`: a run ends where its assertion fails, and `MutexLimits` says when. A first try is no step of its own there, and neither is the reading of the holder before a block.
- Event-group waits of mutex holders, in `MutexChains`: the item value is then used otherwise and not rewritten, and set right when that wait ends, before the task can be on the list of a mutex.
- LinkedList.KernelList.Remove: the item's position is a ghost parameter, so the caller knows that it is on the list.
