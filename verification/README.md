# Verification of the FreeRTOS 8.2.3 kernel, the WS2812 driver and the printf engine

This project models the scheduler, queues, mutexes, software timers and event groups of the FreeRTOS kernel
in this repository, together with two small stand-alone cores, and proves what they promise. Everything is
checked by Dafny 4.11: `dafny verify dfyconfig.toml`.

Code that updates state in place is modelled as classes whose methods have the loops and assignments of the
source. Each such method is proved to have exactly the effect of a function on values, and the promises
(invariants over every run, refinement of an unbounded clock, exactness of callbacks, safety of the blocking
protocol) are lemmas about those functions. The width of the tick and the number of priorities are symbolic.

| files | subject |
|---|---|
| `KernelList`, `Rings` | the intrusive circular lists on the heap, their sequence view, and fairness of the roving index |
| `Ticks`, `Division` | wrapping tick arithmetic against unbounded time |
| `Families`, `Kernels`, `Scheduler` | task lists and control blocks, the effect of every kernel operation, and the kernel's own variables and loops |
| `KernelSteps`, `KernelSelection`, `KernelOrder`, `KernelTime`, `KernelRuns` | the kernel as a step machine: partition of the tasks, selection of the highest priority, exact sleeping, over all runs |
| `KernelTurns` | round robin over all runs: how long a ready task waits for its turn |
| `KernelYields` | preemption over all runs: when the kernel asks for a context switch |
| `SystemState`, `KernelWaiters` | what uxTaskGetSystemState reports; that the waiter woken is one of the highest priority |
| `Mutexes`, `MutexRuns` | ownership, recursion and priority inheritance over all runs |
| `TimeOuts` | one deadline per blocking call |
| `QueueStorage`, `QueueProtocol`, `QueueCalls` | the byte ring buffer as a double-ended queue; no lost wake-up, and what a call answers, in any interleaving |
| `Timers`, `TimerRuns` | the timer daemon; exact callbacks of auto-reload and one-shot timers, stopping, deleting and new periods |
| `EventGroups` | broadcast, quiescence and rendezvous |
| `Ws2812` | the double-buffered LED stream |
| `Numerals`, `FormatString`, `Directives`, `ReadBack` | integer formatting and directive parsing as in section 7.21.6.1 of ISO/IEC 9899:2011, and reading back what was printed |

The configuration is that of `FreeRTOSConfig.h`: preemption, 32-bit ticks, mutexes, recursive mutexes and
counting semaphores, vTaskSuspend included, no co-routines and no queue sets. The generic task selection keeps
uxTopReadyPriority and the port-optimised one a bitmap in the same variable; the model keeps both side by side
and proves that they select the same task.

Hypotheses of the run theorems, where an unrestricted claim would be false of the code:

- The idle task is never deleted or suspended and never blocks; handles of deleted tasks are not used.
- Every wait is for at least one tick. The timer daemon alone may ask for none, and does so at tick zero only
  (`TimerRuns.DaemonMayWait`); `KernelTime.ZeroWaitAtLastTick` says what a wait for none would do at the last tick.
- Timeouts are exact with at most one tick overflow between consecutive checks (`TimeOuts.CheckExact`).
- A ready task is selected within its bound unless it is displaced: the index falls back on it when the task behind
  it, under the index, is removed, or uxTaskGetSystemState passes it over when it was next. After either
  an arrival makes it miss the bound (`Rings.BoundKeptExactly`), and no other step of the kernel displaces a task
  (`KernelTurns.DisplacedExactly`).
- "The waiter woken has the highest priority" needs that no task that inherits is given a new base other than the
  priority it runs at, which leaves a wrong code (`KernelWaiters.StepCoded`, `KernelWaiters.InstanceOutranked`), and
  that no waiter's code is rewritten out of order, as the list is not sorted again (`KernelWaiters.StepInOrder`,
  `KernelWaiters.RaisedOutranksHead`).
- A task that inherits is left below its base by vTaskPrioritySet exactly when the new base is above what it
  inherited (`MutexRuns.PriorityBelowBase`, `MutexRuns.BelowBaseReached`); every other step keeps each task at or above
  its base, and one that holds nothing at it.
- Highest-priority claims are about what vTaskSwitchContext selects, not about who runs at every instant:
  giving back a mutex skips the yield when a waiter exists that does not outrank the giver.
- The no-lost-wake-up theorems exclude suspension and deletion of waiting tasks and resets of live queues;
  xQueueGenericReset wakes only one blocked sender.
- Auto-reload exactness needs a daemon that samples the tick at least once a wrap (`TimerRuns.LateByAWrap`), does
  not leave the timer's own command lying for a whole wrap, and a command queue that does not overflow.
- The octal conversion needs values below 8^21 (`FormatString.BufferSuffices`).

## Model

| member | source | states |
|---|---|---|
| `KernelList.ListItem.constructor` | FreeRTOS/list.c:104-113 | a new item is in no list |
| `KernelList.List.constructor` | FreeRTOS/list.c:79-101 | a new list is a sound empty circle whose index rests on the end marker |
| `KernelList.Splice` | FreeRTOS/list.c:199-202 | the four pointer writes of an insertion put the node between its neighbours in the circle of links and back links |
| `KernelList.Unsplice` | FreeRTOS/list.c:218-219 | the two pointer writes of a removal close the circle again |
| `KernelList.List.InsertEnd` | FreeRTOS/list.c:116-142 | links, back links, container, count and index stay sound, and the item goes directly behind the roving index |
| `KernelList.List.Insert` | FreeRTOS/list.c:145-209 | the same for sorted insertion, whose scan terminates also for portMAX_DELAY, at the place behind all items of the same value |
| `KernelList.List.Scan` | FreeRTOS/list.c:164-197 | the scan stops at the last item whose value does not exceed the new one |
| `KernelList.List.OwnerOfNextEntry` | FreeRTOS/tasks.c:316-318 | the index moves to the next node, skipping the end marker, and that node's owner is returned |
| `KernelList.Remove` | FreeRTOS/list.c:212-238 | the item leaves the list its container names, an index resting on it steps back, and the new length is returned |
| `KernelList.InsertEndBeside` | FreeRTOS/list.c:116-142 | an insertion leaves any list that shares no node untouched |
| `KernelList.RemoveBeside` | FreeRTOS/list.c:212-238 | a removal leaves any list that shares no node untouched |
| `Rings.OperationsKeepValid` | FreeRTOS/list.c:116-238 | every list operation keeps items distinct and the index valid |
| `Rings.SlotUnique` | FreeRTOS/list.c:164-197 | the scan has only one place to stop |
| `Rings.InsertSortedStable` | FreeRTOS/list.c:156-208 | sorted insertion keeps the list sorted and goes behind equal values |
| `Rings.SelectRank` | FreeRTOS/list.c:126-131 | selection returns the item of rank one and brings every other one step nearer |
| `Rings.AddRank` | FreeRTOS/list.c:116-142 | an insertion delays no item except one under the index |
| `Rings.DeleteRank` | FreeRTOS/list.c:212-238 | a removal brings an item nearer exactly when the removed one was ahead of it |
| `Rings.WaitAccount` | FreeRTOS/tasks.c:307-319 | over any run, rank left plus selections plus gains (a removal ahead, a report of another) equals initial rank plus set-backs (an overtaking, a report that passes it over) |
| `Rings.ComesUnderIndex` | FreeRTOS/list.c:224-228 | a waiting item comes under the index when the item behind it, under the index, is removed, or a report finds it next, and in no other way |
| `Rings.SelectedWithinRank` | FreeRTOS/tasks.c:307-319 | a ready task that is k-th is selected within k selections whatever arrives, leaves and is reported, unless it is displaced in one of those two ways |
| `Rings.DisplacedExceedsRank` | FreeRTOS/list.c:224-228 | either displacement is real: one arrival after it makes the task miss its bound |
| `Rings.BoundKeptExactly` | FreeRTOS/tasks.c:307-319 | an operation leaves the bound intact for every continuation if and only if it does not displace the task |
| `Rings.SurveyExceedsRank` | FreeRTOS/tasks.c:3183-3247 | a report of a list alone makes the task that was next wait for all the others first |
| `Rings.EqualShare` | FreeRTOS/tasks.c:312-319 | n selections from an unchanged list of n tasks return each of them exactly once |
| `Ticks.AddDuration` | FreeRTOS/tasks.c:943-945 | the machine sum of a tick and a duration is the wrapped true time, and it wraps exactly when the epoch changes |
| `Ticks.SubDuration` | FreeRTOS/tasks.c:2609-2617 | the machine difference of two instants less than a wrap apart is the true difference |
| `Families.Take` | FreeRTOS/list.c:230-236 | an item leaves the one list its container names and no other list changes |
| `Families.Place` | FreeRTOS/list.c:199-208 | an item enters a list at the place found and no other list changes |
| `Families.Append` | FreeRTOS/list.c:128-141 | an item enters a list behind its index and no other list changes |
| `Scheduler.TaskKernel.constructor` | FreeRTOS/tasks.c:2998-3028 | the scheduler starts with all lists empty but for the idle task |
| `Scheduler.TaskKernel.AddTaskToReadyList` | FreeRTOS/tasks.c:389-392 | the task joins its ready list and both ready indexes record its priority |
| `Scheduler.TaskKernel.RemoveStateItem` | FreeRTOS/tasks.c:354-361 | the bitmap entry goes exactly when the ready list has become empty |
| `Scheduler.TaskKernel.CreateTask` | FreeRTOS/tasks.c:649-735 | the created task is ready and nothing else changes, and a yield is asked for exactly when it outranks the running task |
| `Scheduler.TaskKernel.DeleteTask` | FreeRTOS/tasks.c:744-789 | the task leaves every list and waits for termination |
| `Scheduler.TaskKernel.ReapTask` | FreeRTOS/tasks.c:3030-3068 | the head of the termination list is freed |
| `Scheduler.TaskKernel.SuspendTask` | FreeRTOS/tasks.c:1284-1319 | the task leaves every list and is suspended |
| `Scheduler.TaskKernel.TaskIsSuspended` | FreeRTOS/tasks.c:1373-1412 | suspended, not merely blocked without timeout and not already resumed |
| `Scheduler.TaskKernel.ResumeTask` | FreeRTOS/tasks.c:1419-1465 | a suspended task becomes ready, and a yield is asked for when it ranks with the running one |
| `Scheduler.TaskKernel.ResumeTaskFromISR` | FreeRTOS/tasks.c:1473-1537 | the same from an interrupt, held pending while the scheduler is suspended |
| `Scheduler.TaskKernel.AddCurrentTaskToDelayedList` | FreeRTOS/tasks.c:3071-3098 | the task is filed in wake order in the list of the right epoch and the next unblock time is lowered |
| `Scheduler.TaskKernel.DelayTask` | FreeRTOS/tasks.c:922-982 | the running task is filed under the wrapped sum of tick and delay |
| `Scheduler.TaskKernel.DelayTaskUntil` | FreeRTOS/tasks.c:873-896 | the running task is filed under the given wake time |
| `Scheduler.TaskKernel.PlaceOnEventList` | FreeRTOS/tasks.c:2262-2318 | the running task joins the event list in priority order and blocks |
| `Scheduler.TaskKernel.PlaceOnUnorderedEventList` | FreeRTOS/tasks.c:2321-2384 | the running task joins an event group with its value and blocks |
| `Scheduler.TaskKernel.PlaceOnEventListRestricted` | FreeRTOS/tasks.c:2389-2462 | the timer daemon joins its queue and blocks, indefinitely if asked |
| `Scheduler.TaskKernel.RemoveFromEventList` | FreeRTOS/tasks.c:2465-2530 | the head waiter becomes ready, or pending while the scheduler is suspended |
| `Scheduler.TaskKernel.RemoveFromUnorderedEventList` | FreeRTOS/tasks.c:2533-2575 | the given waiter becomes ready with the value left in its item |
| `Scheduler.TaskKernel.ResetEventItemValue` | FreeRTOS/tasks.c:3868-3879 | the item's value is returned and the coded priority restored |
| `Scheduler.TaskKernel.ResetNextTaskUnblockTime` | FreeRTOS/tasks.c:3347-3368 | the next unblock time is that of the head, or the longest |
| `Scheduler.TaskKernel.SwitchDelayedTaskLists` | FreeRTOS/tasks.c:369-381 | the delayed lists change roles and the overflow is counted |
| `Scheduler.TaskKernel.UnblockDueTasks` | FreeRTOS/tasks.c:1973-2046 | the loop unblocks the due tasks from the head on and reports whether one ranks with the running task |
| `Scheduler.TaskKernel.IncrementTick` | FreeRTOS/tasks.c:1939-2103 | the tick is processed or held back, and the answer is the one `KernelYields.TickAnswer` and `KernelYields.TickHeldBack` characterise |
| `Scheduler.TaskKernel.SuspendAll` | FreeRTOS/tasks.c:1633-1640 | suspensions nest |
| `Scheduler.TaskKernel.DrainPendingReady` | FreeRTOS/tasks.c:1693-1715 | every pending task is moved to its ready list |
| `Scheduler.TaskKernel.ReplayPendedTicks` | FreeRTOS/tasks.c:1720-1737 | every held-back tick is processed |
| `Scheduler.TaskKernel.ResumeAll` | FreeRTOS/tasks.c:1671-1761 | the outermost resume drains, replays and yields; an inner one only counts |
| `Scheduler.TaskKernel.SwitchContext` | FreeRTOS/tasks.c:2203-2259 | the generic scan ends at the list selected and its next task runs |
| `Scheduler.TaskKernel.SwitchContextOptimised` | FreeRTOS/tasks.c:340-348 | the bitmap leads to the same task as the generic scan |
| `Scheduler.TaskKernel.SetPriority` | FreeRTOS/tasks.c:1120-1277 | base and, unless inherited, current priority change, a ready task is re-filed, and a yield is asked for when the running task is rivalled or lowers itself |
| `Scheduler.TaskKernel.InheritPriority` | FreeRTOS/tasks.c:3418-3477 | a holder of lower priority is raised to that of the running task |
| `Scheduler.TaskKernel.DisinheritPriority` | FreeRTOS/tasks.c:3484-3558 | with its last mutex the holder returns to its base priority |
| `Scheduler.TaskKernel.IncrementMutexHeldCount` | FreeRTOS/tasks.c:3884-3894 | the running task's count goes up by one |
| `Scheduler.TaskKernel.ListTasksWithinSingleList` | FreeRTOS/tasks.c:3178-3256 | one list is reported by a full turn of its index, which ends one step on |
| `Scheduler.TaskKernel.GetSystemState` | FreeRTOS/tasks.c:1835-1902 | the whole report, or nothing when there is no room for all tasks; the index of every list that holds a task moves on by one |
| `Kernels.ScanDown` | FreeRTOS/tasks.c:307-315 | the downward scan stops at the highest non-empty ready list not above its start |
| `Kernels.ExpireShrinks` | FreeRTOS/tasks.c:1976-2046 | the unblocking loop terminates: each turn shortens the delayed list |
| `Kernels.TurnedAt` | FreeRTOS/tasks.c:1843-1872 | the report turns the index of each non-empty list on by one and changes nothing else |
| `KernelSteps.StepHoused` | FreeRTOS/tasks.c:649-709 | every step keeps each task in exactly one state list, a ready one in that of its priority, and waiters blocked |
| `KernelSteps.WakeDueHoused` | FreeRTOS/tasks.c:1976-2046 | the unblocking loop keeps that partition |
| `KernelSteps.ResumeAllHoused` | FreeRTOS/tasks.c:1671-1761 | so does resuming the scheduler |
| `SystemState.ReportExact` | FreeRTOS/tasks.c:3178-3256 | reporting lists names exactly the tasks in them, each once, with its true state |
| `SystemState.EveryTaskOnce` | FreeRTOS/tasks.c:1835-1902 | every task is reported exactly once and the list sizes add up to the number of tasks |
| `SystemState.StatusTrue` | FreeRTOS/tasks.c:3183-3247 | the state reported is ready, blocked, suspended or deleted exactly when the task is, and the priorities are its own |
| `KernelSelection.StepIndexed` | FreeRTOS/tasks.c:289-363 | through every step the top priority bounds every non-empty ready list and the bitmap is exact |
| `KernelSelection.HighestBit` | FreeRTOS/tasks.c:345-347 | the most significant bit of the bitmap |
| `KernelSelection.SwitchAlwaysEnabled` | FreeRTOS/tasks.c:307-319 | a context switch always finds a task |
| `KernelSelection.IndexesAgree` | FreeRTOS/tasks.c:289-363 | the scan and the bitmap select the same list, the highest ready priority |
| `KernelSelection.HighestRuns` | FreeRTOS/tasks.c:2203-2249 | after a context switch no ready task outranks the running one |
| `KernelSelection.ChangeYieldsWhenOutranked` | FreeRTOS/tasks.c:1158-1193 | a priority change that leaves the running task outranked always yields |
| `KernelOrder.StepOrdered` | FreeRTOS/tasks.c:3071-3098 | through every step both delayed lists stay in wake order |
| `KernelTime.WakeDueExact` | FreeRTOS/tasks.c:1973-2046 | the loop moves exactly the tasks whose wake time has come, out of event lists too, and leaves a lower bound for the rest |
| `KernelTime.WakeDueNext` | FreeRTOS/tasks.c:1976-2001 | the loop and every reset leave the next unblock time at exactly the wake time of the head, or at the longest |
| `KernelTime.EmptyAtSwitch` | FreeRTOS/tasks.c:374-375 | the assertion that the retired delayed list is empty never fails |
| `KernelTime.AdvancedTicking` | FreeRTOS/tasks.c:1951-1966 | the increment and the list switch keep every deadline, across the wrap |
| `KernelTime.TickExact` | FreeRTOS/tasks.c:1939-2066 | a processed tick readies exactly the tasks whose absolute deadline it is |
| `KernelTime.ReplayExact` | FreeRTOS/tasks.c:1720-1737 | replayed ticks ready exactly the tasks whose deadlines they reach |
| `KernelTime.DelayTimed` | FreeRTOS/tasks.c:3071-3098 | filing under the machine sum records the absolute deadline |
| `KernelTime.ReplayIsTicking` | FreeRTOS/tasks.c:1720-1737 | replay leaves what processing the same ticks one by one leaves |
| `KernelTime.ResumeIsTicking` | FreeRTOS/tasks.c:1671-1761 | resuming is draining, then processing every held-back tick |
| `KernelTime.ResumeCatchesUp` | FreeRTOS/tasks.c:1671-1761 | after resuming, the tick is that of all interrupts received and exactly the tasks due by then are ready |
| `KernelTime.ZeroWaitAtLastTick` | FreeRTOS/tasks.c:3076-3084 | the empty-at-switch assertion can be broken only by a wait of no ticks at the last tick of an epoch |
| `KernelTime.DelayUntilExact` | FreeRTOS/tasks.c:826-868 | vTaskDelayUntil blocks exactly when the next wake-up lies ahead, and until precisely that time |
| `KernelRuns.InitialSound` | FreeRTOS/tasks.c:1591-1593 | the starting state satisfies the whole invariant |
| `KernelRuns.StepSound` | FreeRTOS/tasks.c:1671-1761 | every enabled step of the kernel keeps the whole invariant |
| `KernelRuns.ReachableSound` | FreeRTOS/tasks.c:1939-2103 | the invariant holds in every state any run can reach |
| `KernelRuns.BlockedFor` | FreeRTOS/tasks.c:922-982 | blocking for n ticks sets a deadline n processed ticks ahead |
| `KernelRuns.SleepExact` | FreeRTOS/tasks.c:1939-2066 | in any run that does not wake it early a task sleeps until its deadline and becomes ready in the very step that reaches it |
| `KernelRuns.SuspensionsNest` | FreeRTOS/tasks.c:1633-1761 | in every run the scheduler is suspended as often as it was suspended and not resumed |
| `KernelRuns.OverflowsCounted` | FreeRTOS/tasks.c:379 | the overflow count is the number of wraps of absolute time |
| `KernelTurns.StepActs` | FreeRTOS/list.c:116-238 | every step of the kernel acts on every ready list as at most one departure and then arrivals, or as one selection or one report |
| `KernelTurns.StepWaits` | FreeRTOS/tasks.c:307-319 | a step that neither moves nor selects a ready task lets it wait, and displaces it exactly when it is a report and the task is next, or takes away the task under the index behind it |
| `KernelTurns.DisplacedExactly` | FreeRTOS/list.c:224-228 | in every step a waiting task comes under the index if and only if the step displaces it |
| `KernelTurns.ReportSendsLast` | FreeRTOS/tasks.c:3183-3247 | a report sends the task that was next to the end of its list's turn |
| `KernelTurns.RunActs` | FreeRTOS/tasks.c:2203-2249 | so does every run, and its selections are the context switches made at that priority |
| `KernelTurns.SelectedInTime` | FreeRTOS/tasks.c:307-319 | in every run a ready task that is k-th is selected within k context switches at its priority unless it is moved or displaced |
| `KernelYields.TickAnswer` | FreeRTOS/tasks.c:2026-2101 | with a well-chosen running task the tick asks for a switch if and only if a yield is pending or another task that is ready after it has no lower priority |
| `KernelYields.TickHeldBack` | FreeRTOS/tasks.c:2083-2101 | while the scheduler is suspended the tick is only counted and reports only a yield already pending |
| `KernelYields.ResumeAnswer` | FreeRTOS/tasks.c:1693-1752 | resuming leaves a yield pending if and only if there was one, a pending task ranks with the running one, or ticks were held back and a rival is ready after them |
| `KernelYields.SignalAnswer` | FreeRTOS/tasks.c:2505-2521 | a signal leaves a yield pending if and only if there was one or the task woken outranks the running one |
| `KernelYields.GroupAnswer` | FreeRTOS/tasks.c:2556-2572 | so does waking a task of an event group |
| `KernelYields.SwitchAnswer` | FreeRTOS/tasks.c:2203-2259 | a switch asked for while suspended only leaves the yield pending; otherwise the highest priority runs, is recorded as top, and no yield is left |
| `KernelYields.StepAsks` | FreeRTOS/tasks.c:1419-1537 | every step leaves the running task a highest ready one, or a yield pending, or answers that a switch is called for |
| `KernelYields.NoPreemptionLost` | FreeRTOS/tasks.c:1939-2259 | in every run the running task is ready and not outranked unless a yield is pending or a switch has been asked for since the last one |
| `KernelWaiters.JoinKeepsOrder` | FreeRTOS/tasks.c:2276 | a waiter joins in priority order behind its equals |
| `KernelWaiters.LeaveKeepsOrder` | FreeRTOS/list.c:212-238 | leaving, at the head or elsewhere, keeps the order of the others |
| `KernelWaiters.PrioritySetRewrites` | FreeRTOS/tasks.c:1224-1233 | changing a priority rewrites that one waiter's value and re-sorts nothing |
| `KernelWaiters.RewriteKeepsOrder` | FreeRTOS/tasks.c:3432-3440 | a sorted list of codes with one rewritten is in order exactly when the new one fits between its neighbours |
| `KernelWaiters.StepCoded` | FreeRTOS/tasks.c:1224-1233 | every step keeps each item coding its task's priority, if and only if it is not a priority change of a task that inherits to a base other than its old one and the priority in use |
| `KernelWaiters.StepInOrder` | FreeRTOS/tasks.c:3432-3440 | every step keeps a queue's waiters in order, if and only if it does not rewrite a waiter's code with one that does not fit where the waiter stands |
| `KernelWaiters.StepRanked` | FreeRTOS/tasks.c:2262-2306 | both together, for every step |
| `KernelWaiters.SignalWakesHead` | FreeRTOS/tasks.c:2465-2530 | a signal wakes the head and leaves every other waiter where it is |
| `KernelWaiters.HighestWaiterFirst` | FreeRTOS/tasks.c:2470-2485 | in every orderly run from the start of the scheduler a signal wakes a waiter that no other waiter of the list outranks |
| `KernelWaiters.MiscodedOutranksHead` | FreeRTOS/tasks.c:1203-1229 | a task that inherits and lowers its base then waits behind a task it outranks, though no waiter's priority ever changed |
| `KernelWaiters.InstanceOutranked` | FreeRTOS/tasks.c:1203-1229 | an instance of that |
| `KernelWaiters.RaisedOutranksHead` | FreeRTOS/tasks.c:1224-1233 | a waiter raised above the head stays behind it |
| `Mutexes.MutexQueue.constructor` | FreeRTOS/queue.c:391-448 | a mutex is created free |
| `Mutexes.MutexQueue.TryTake` | FreeRTOS/queue.c:1404-1411 | a free mutex gets the running task as holder, and its count of mutexes goes up |
| `Mutexes.MutexQueue.Contend` | FreeRTOS/queue.c:1504-1517 | a task about to block raises the holder |
| `Mutexes.MutexQueue.Give` | FreeRTOS/queue.c:1787-1797 | giving frees the mutex and disinherits; giving a free one is refused |
| `Mutexes.MutexQueue.TakeRecursively` | FreeRTOS/queue.c:540-575 | the holder only nests deeper; anybody else takes the mutex |
| `Mutexes.MutexQueue.GiveRecursively` | FreeRTOS/queue.c:485-534 | the mutex is given back when the nesting ends, and refused to others |
| `MutexRuns.KernelStepRanks` | FreeRTOS/tasks.c:1120-1277 | no other step, vTaskPrioritySet included, changes a held count or parts a task holding nothing from its base priority |
| `MutexRuns.StepAccounted` | FreeRTOS/queue.c:1404-1411 | every step keeps mutexes either free or held, held counts exact, and tasks holding nothing at base priority |
| `MutexRuns.StartAccounted` | FreeRTOS/queue.c:391-448 | so it is at the start |
| `MutexRuns.RunAccounted` | FreeRTOS/queue.c:1787-1797 | and in every state of every run |
| `MutexRuns.GiveAgainAlways` | FreeRTOS/queue.c:499-504 | a holder's recursion count is never zero, so no underflow check is needed |
| `MutexRuns.RecursionCounts` | FreeRTOS/queue.c:485-575 | over any run the count is takes less gives, and the mutex is free exactly when it is zero |
| `MutexRuns.StepNesting` | FreeRTOS/queue.c:485-575 | the holder changes only when nesting starts or ends |
| `MutexRuns.InheritsHighest` | FreeRTOS/tasks.c:3418-3477 | a task about to block lends the holder its priority if that is higher, and nothing else changes |
| `MutexRuns.GivesBackLast` | FreeRTOS/tasks.c:3484-3558 | giving the last mutex back restores the base priority, and giving back one of several does not |
| `MutexRuns.ChangeTakesEffect` | FreeRTOS/tasks.c:1120-1277 | the requested priority, limited to the highest there is, becomes the base, and the priority in use unless that is inherited |
| `MutexRuns.PriorityBelowBase` | FreeRTOS/tasks.c:1206-1216 | a priority change leaves a task below its base exactly when the task inherits and the new base exceeds what it inherited |
| `MutexRuns.StepNoneBelow` | FreeRTOS/tasks.c:3418-3558 | no other kernel step and no mutex operation does |
| `MutexRuns.RunNoneBelow` | FreeRTOS/tasks.c:1120-1277 | in every run without such a call no task is ever below its base priority |
| `MutexRuns.BelowBaseReached` | FreeRTOS/tasks.c:1206-1216 | a run from the start of the scheduler that makes such a call and ends with a task below its base |
| `TimeOuts.TimeOut.SetState` | FreeRTOS/tasks.c:2578-2583 | the mark is the overflow count and the tick |
| `TimeOuts.TimeOut.Check` | FreeRTOS/tasks.c:2586-2632 | the answer, the remaining wait and the new mark |
| `TimeOuts.CheckExact` | FreeRTOS/tasks.c:2609-2617 | the answer is right exactly unless the clock wrapped twice and stopped short of the entry value within the wait |
| `TimeOuts.TwoWrapsMissed` | FreeRTOS/tasks.c:2609-2617 | an instance of that exception |
| `TimeOuts.CheckElapsed` | FreeRTOS/tasks.c:2609-2625 | with at most one overflow between checks the answer and the remainder are exact |
| `TimeOuts.BlockingCall` | FreeRTOS/queue.c:678-805 | one call has one deadline: it times out exactly when the elapsed time reaches the wait, and every re-block uses the same absolute wake time |
| `QueueStorage.Storage.constructor` | FreeRTOS/queue.c:260-273 | the pointers of an empty queue |
| `QueueStorage.Storage.CopyIn` | FreeRTOS/queue.c:1807 | exactly one slot of the byte area is replaced |
| `QueueStorage.Storage.CopyOut` | FreeRTOS/queue.c:1870 | exactly one slot is read |
| `QueueStorage.Storage.CopyToBack` | FreeRTOS/queue.c:1805-1816 | a send to the back appends |
| `QueueStorage.Storage.CopyToFront` | FreeRTOS/queue.c:1818-1829 | a send to the front prepends |
| `QueueStorage.Storage.CopyOver` | FreeRTOS/queue.c:1818-1852 | an overwrite of a queue of length one leaves just the new item |
| `QueueStorage.Storage.CopyDataToQueue` | FreeRTOS/queue.c:1784-1855 | the three positions, and items without bytes, which are only counted, also beyond the length |
| `QueueStorage.Storage.CopyDataFromQueue` | FreeRTOS/queue.c:1858-1873 | the head item is copied out |
| `QueueStorage.Storage.Send` | FreeRTOS/queue.c:637-642 | a send is refused exactly when the queue is full and not to be overwritten; overwriting a semaphore counts once more |
| `QueueStorage.Storage.Receive` | FreeRTOS/queue.c:1389-1441 | a receive pops the head, a peek changes nothing, and an empty queue refuses both |
| `QueueStorage.SlotWritten` | FreeRTOS/queue.c:1807-1820 | replacing the bytes of one slot replaces no other slot |
| `QueueStorage.BackHeld` | FreeRTOS/queue.c:1805-1816 | the slot after the last item is where an appended one belongs |
| `QueueStorage.FrontHeld` | FreeRTOS/queue.c:1818-1829 | the slot under the read pointer is where a prepended one belongs |
| `QueueStorage.HeadHeld` | FreeRTOS/queue.c:1858-1870 | the slot after the read pointer holds the head |
| `QueueStorage.NextOffset` | FreeRTOS/queue.c:1808-1812 | comparing byte pointers with the tail wraps at the right slot |
| `QueueStorage.BeforeHead` | FreeRTOS/queue.c:1821-1825 | comparing byte pointers with the head wraps at the right slot |
| `QueueStorage.CountStaysBounded` | FreeRTOS/queue.c:1831-1852 | the count exceeds the length exactly when a full semaphore is overwritten |
| `QueueProtocol.QueueControl.TrySend` | FreeRTOS/queue.c:637-710 | the critical section of a send wakes a receiver |
| `QueueProtocol.QueueControl.TryReceive` | FreeRTOS/queue.c:1389-1455 | the critical section of a receive wakes a sender, that of a peek another receiver |
| `QueueProtocol.QueueControl.SendFromISR` | FreeRTOS/queue.c:1054-1200 | an interrupt wakes a receiver or, with the queue locked, counts |
| `QueueProtocol.QueueControl.ReceiveFromISR` | FreeRTOS/queue.c:1551-1635 | an interrupt wakes a sender or, with the queue locked, counts |
| `QueueProtocol.QueueControl.LockBoth` | FreeRTOS/queue.c:245-257 | locking starts both counts at zero |
| `QueueProtocol.QueueControl.UnlockBoth` | FreeRTOS/queue.c:1876-1988 | the two unlock loops run to their ends |
| `QueueProtocol.UnlockWakes` | FreeRTOS/queue.c:1887-1957 | unlocking wakes as many tasks as events were counted or as are waiting, from the head on |
| `QueueProtocol.PerformSafe` | FreeRTOS/queue.c:1389-1455 | a task's critical section leaves nobody waiting in vain, on either side |
| `QueueProtocol.IsrSendSafe` | FreeRTOS/queue.c:1054-1200 | nor does an interrupt's send |
| `QueueProtocol.IsrReceiveSafe` | FreeRTOS/queue.c:1551-1635 | nor an interrupt's receive |
| `QueueProtocol.UnlockTurnSafe` | FreeRTOS/queue.c:1887-1957 | nor any single turn of an unlock loop |
| `QueueProtocol.JoinSafe` | FreeRTOS/queue.c:1499-1523 | a task that saw the queue empty under the lock may join: what came since is counted |
| `QueueProtocol.IsrLocksFit` | FreeRTOS/queue.c:1054-1200 | what an interrupt makes available to a task about to join is counted by the lock |
| `QueueProtocol.StepKept` | FreeRTOS/queue.c:609-806 | every step of every task and interrupt keeps the invariant |
| `QueueProtocol.NoLostWakeup` | FreeRTOS/queue.c:1364-1548 | in every interleaving a receiver waits only for messages owed to woken receivers or counted by the lock, and senders likewise |
| `QueueProtocol.NeverStuck` | FreeRTOS/queue.c:1876-1988 | an unlocked queue with nobody woken in flight holds no message while a receiver waits, and no room while a sender does |
| `QueueProtocol.MessagesConserved` | FreeRTOS/queue.c:609-1635 | in every run the messages are those sent and not received, and never more than fit |
| `QueueCalls.CriticalReturns` | FreeRTOS/queue.c:637-735 | a call's critical section is its end exactly if it succeeds or the call may not wait |
| `QueueCalls.ReturnsWhenDone` | FreeRTOS/queue.c:609-806 | in every run a call that has not timed out returns from a critical section that succeeded, unless it may not wait |
| `QueueCalls.TimedOutReturns` | FreeRTOS/queue.c:793-804 | in every run a call that has timed out makes no further attempt, joins no list, and returns with the next resumption |
| `QueueCalls.BlocksIfNothingThere` | FreeRTOS/queue.c:760-791 | whatever happens meanwhile, a call that looked again under the lock blocks if there was nothing and tries again if there was something |
| `QueueCalls.TimedOutWaiterTriesAgain` | FreeRTOS/queue.c:629-634 | a waiter that times out is off the list and makes one more attempt |
| `QueueCalls.ExpiredPass` | FreeRTOS/queue.c:754-805 | an undisturbed call that has timed out leaves the queue as it was and returns |
| `QueueCalls.RetryingPass` | FreeRTOS/queue.c:754-791 | one that finds something there leaves the queue as it was and tries again |
| `QueueCalls.BlockingPass` | FreeRTOS/queue.c:754-783 | one that still finds nothing is blocked in its place of the waiting list, with the queue unlocked and the scheduler running |
| `QueueProtocol.IsrCountsOne` | FreeRTOS/queue.c:1100-1166 | an interrupt adds exactly one to the lock count and wakes nobody, or wakes the head waiter |
| `Timers.TimerDaemon.InsertTimerInActiveList` | FreeRTOS/timers.c:554-593 | the timer is filed in the current or overflow list, or reported as expired |
| `Timers.TimerDaemon.ProcessExpiredTimer` | FreeRTOS/timers.c:381-418 | an expired timer is called back and filed again or restarted by command |
| `Timers.TimerDaemon.SwitchTimerLists` | FreeRTOS/timers.c:721-777 | the drain loop terminates and the lists change roles |
| `Timers.TimerDaemon.SampleTimeNow` | FreeRTOS/timers.c:531-551 | the lists are switched exactly when the tick is seen to have wrapped |
| `Timers.TimerDaemon.ProcessTimerOrBlockTask` | FreeRTOS/timers.c:445-502 | a timer phase processes one expired timer, or decides whether, how long and how to block |
| `Timers.TimerDaemon.ProcessReceivedCommand` | FreeRTOS/timers.c:595-718 | the effect of every command |
| `Timers.TimerDaemon.ProcessReceivedCommands` | FreeRTOS/timers.c:602-717 | the command loop |
| `Timers.PlacementExact` | FreeRTOS/timers.c:554-593 | a timer is processed at once exactly when its true expiry has come, and otherwise filed by the epoch of that expiry |
| `Timers.DrainShrinks` | FreeRTOS/timers.c:732-772 | the drain loop terminates by a real measure despite re-insertion |
| `Timers.Drain` | FreeRTOS/timers.c:732-772 | it ends with the current list empty and the overflow list as it was |
| `TimerRuns.DrainOnTime` | FreeRTOS/timers.c:732-772 | the drain keeps the count of the timer's callbacks and its next expiry on record |
| `TimerRuns.SwitchCallsBack` | FreeRTOS/timers.c:721-777 | when the tick has wrapped a filed timer is called back at once for every expiry up to the last tick of the epoch, and not for later ones |
| `TimerRuns.PhasesServeAll` | FreeRTOS/timers.c:445-502 | as many timer phases as timers have expired call back each of them, and leave none expired |
| `TimerRuns.SampleWatching` | FreeRTOS/timers.c:531-551 | sampling keeps the record across a wrap |
| `TimerRuns.PhaseWatching` | FreeRTOS/timers.c:445-502 | so does a timer phase |
| `TimerRuns.CommandWatching` | FreeRTOS/timers.c:595-718 | so does a command, the timer's own restart included |
| `TimerRuns.CallbacksExact` | FreeRTOS/timers.c:465-490 | when the daemon goes to sleep the callbacks are the periods that have passed, or for a one-shot timer one if its time has come, after which it is on record nowhere |
| `TimerRuns.AutoReloadExact` | FreeRTOS/timers.c:381-418 | so for every run from the start command on, however late the daemon |
| `TimerRuns.OneShotExact` | FreeRTOS/timers.c:393-417 | a one-shot timer has had exactly one callback once its time has come and none before, in every run, and is then forgotten |
| `TimerRuns.ChangeRestarts` | FreeRTOS/timers.c:692-704 | after a new period at time N the timer is as if started at N with it |
| `TimerRuns.ChangedExact` | FreeRTOS/timers.c:692-704 | so in every run its callbacks from then on are exact, the first one new period after N |
| `TimerRuns.StartRestarts` | FreeRTOS/timers.c:656-684 | a start or reset sent at time C restarts the timer from C whatever it was doing |
| `TimerRuns.StopSilences` | FreeRTOS/timers.c:686-710 | a stop or delete leaves the timer silent if and only if nothing that starts it is queued behind |
| `TimerRuns.NoCallbackAfterStop` | FreeRTOS/timers.c:602-717 | then no callback follows in any run in which nobody starts it again |
| `TimerRuns.StopOvertaken` | FreeRTOS/timers.c:656-690 | the exception is real: a late timer's own restart behind the stop still calls back |
| `TimerRuns.DeleteFrees` | FreeRTOS/timers.c:706-710 | a delete removes its timer and no other command removes one |
| `TimerRuns.ServesUntilEmpty` | FreeRTOS/timers.c:602-717 | the command loop serves command after command until the queue is empty |
| `TimerRuns.NeverOversleeps` | FreeRTOS/timers.c:472-484 | the daemon does not sleep past the next expiry |
| `TimerRuns.SleepsUntil` | FreeRTOS/timers.c:465-490 | it sleeps exactly until the next expiry of the epoch, or until the tick wraps when there is none |
| `TimerRuns.LateByAWrap` | FreeRTOS/timers.c:531-551 | a daemon that sleeps through a whole wrap sees the same tick, does nothing, and goes back to sleep with at least one callback missing |
| `TimerRuns.DaemonMayWait` | FreeRTOS/timers.c:472-484 | the daemon asks for a wait of no ticks at tick zero alone, so its waits are all permitted |
| `EventGroups.EventGroup.constructor` | FreeRTOS/event_groups.c:138-155 | a new group has no bits and no waiters |
| `EventGroups.EventGroup.ConditionMet` | FreeRTOS/event_groups.c:512-536 | the two ways of matching agree with the wait condition |
| `EventGroups.EventGroup.ScanOne` | FreeRTOS/event_groups.c:508-562 | one turn of the scan, which removes while it walks |
| `EventGroups.EventGroup.SetBitsInGroup` | FreeRTOS/event_groups.c:480-571 | the whole broadcast, as `EventGroups.SetDelivers` and `EventGroups.SetLeaves` characterise it |
| `EventGroups.EventGroup.ClearBitsInGroup` | FreeRTOS/event_groups.c:422-446 | the bits before, and what `EventGroups.ClearLeaves` says is left |
| `EventGroups.EventGroup.WaitForBits` | FreeRTOS/event_groups.c:294-358 | return at once, refuse, or join with mask and control bits |
| `EventGroups.EventGroup.SyncOnBits` | FreeRTOS/event_groups.c:174-216 | set, then return, refuse or join |
| `EventGroups.EventGroup.FinishWait` | FreeRTOS/event_groups.c:361-416 | the delivered value, or after a timeout the current one |
| `EventGroups.EncodeMeans` | FreeRTOS/event_groups.c:325-349 | an item gives back the mask and the flags it was made from |
| `EventGroups.SetDelivers` | FreeRTOS/event_groups.c:508-562 | exactly the waiters satisfied by old and new bits together are woken, all with that value |
| `EventGroups.SetLeaves` | FreeRTOS/event_groups.c:508-566 | bit by bit: after a broadcast a bit is set if and only if it was or was added and no woken waiter that clears on exit wanted it |
| `EventGroups.ClearLeaves` | FreeRTOS/event_groups.c:422-446 | after clearing a bit is set if and only if it was and is not in the mask |
| `EventGroups.WaitLeaves` | FreeRTOS/event_groups.c:302-358 | a wait returns the bits at once if they meet the condition or it may not wait, and clears exactly the bits wanted, only when asked and met |
| `EventGroups.SyncLeaves` | FreeRTOS/event_groups.c:174-216 | a sync returns the union and clears the mask if the union covers it, and otherwise leaves what the broadcast left |
| `EventGroups.ExpiredLeaves` | FreeRTOS/event_groups.c:375-410 | a task whose wait has expired returns the bits as they are, and clears those wanted if they meet the condition after all |
| `EventGroups.ConditionBits` | FreeRTOS/event_groups.c:613-645 | a condition for all holds when every bit wanted is set, one for any when some is |
| `EventGroups.ClearMaskExact` | FreeRTOS/event_groups.c:541-566 | bit by bit |
| `EventGroups.WokenReturns` | FreeRTOS/event_groups.c:375-416 | a woken task returns the value that satisfied it |
| `EventGroups.SetQuiet` | FreeRTOS/event_groups.c:480-571 | after a broadcast no waiter is left whose condition holds |
| `EventGroups.StepQuiet` | FreeRTOS/event_groups.c:158-446 | every operation keeps it so |
| `EventGroups.NeverLeftWaiting` | FreeRTOS/event_groups.c:158-571 | in every run no queued waiter's condition holds between operations |
| `EventGroups.SetReleases` | FreeRTOS/event_groups.c:508-566 | whoever else waits, setting bits releases a task that syncs with the union of the bits and clears its whole mask, if and only if the union covers the mask |
| `EventGroups.StepReleases` | FreeRTOS/event_groups.c:158-571 | so does every step of anybody else, by the value it offers |
| `EventGroups.RunReleases` | FreeRTOS/event_groups.c:158-571 | through any run a blocked task waits until the mask is covered, and no longer |
| `EventGroups.SyncReturns` | FreeRTOS/event_groups.c:158-271 | one caller, in any run: it returns the first value offered from its own call on that covers its mask, with the mask left cleared, and blocks exactly as long as there is none |
| `EventGroups.Rendezvous` | FreeRTOS/event_groups.c:158-271 | tasks that sync on one mask in the course of any run, with any other callers in between, all block until the mask is covered and then all return the same covering value, with the mask left cleared |
| `EventGroups.CompletesOnceSet` | FreeRTOS/event_groups.c:176-189 | once all bits of the mask have been set, in whatever portions and order, and none taken away before, the mask has been covered |
| `EventGroups.PartyMeets` | FreeRTOS/event_groups.c:158-271 | tasks by themselves that between them set the whole mask always meet |
| `Ws2812.Driver.EncodeLeds` | ws2812.c:103-116 | the pulses of as many LEDs as fit, and what was sent |
| `Ws2812.Driver.FillBitBuffer` | ws2812.c:89-121 | one half becomes LED data followed by zeros, the other is untouched |
| `Ws2812.Driver.ClearBitBuffer` | ws2812.c:123-127 | all zeros |
| `Ws2812.Driver.Send` | ws2812.c:61-69 | both halves are filled and the DMA started |
| `Ws2812.Driver.RefillOrStop` | ws2812.c:194-205 | the emitted half is refilled, or everything stops |
| `Ws2812.Driver.InterruptHandler` | ws2812.c:190-225 | the two interrupt flags select the half; with both set the halves are served in turn, with neither nothing happens |
| `Ws2812.Driver.Transmit` | ws2812.c:61-225 | a whole transmission emits, in order and once, what belongs on the wire, and stops |
| `Ws2812.ShiftReadsWire` | ws2812.c:105-106 | shifting the word reads green, red and blue, each most significant bit first |
| `Ws2812.FillIsWire` | ws2812.c:103-120 | the j-th fill is the j-th half-buffer of the wire |
| `Ws2812.HalvesSuffice` | ws2812.c:194-205 | the half-buffers emitted hold every LED and at least one LED's worth of silence |
| `Ws2812.WireIsEncoding` | ws2812.c:61-225 | the stream is a pulse of 900 ns for every one and of 350 ns for every zero, in order, followed only by silence, for any count |
| `Ws2812.PulseWidths` | ws2812.c:19-23 | at 50 million counts a second a one lasts 900 ns and a zero 350 ns, to the count, and both are told from silence and from each other |
| `Ws2812.ReceivesLeds` | ws2812.c:103-116 | a receiver with any threshold between the two gets back green, red and blue of every LED, in order |
| `Ws2812.IdleBeforeLastLeds` | ws2812.c:71-73 | the stage is idle exactly while the last half-buffer is emitted, and LED data is then still to come exactly when the count exceeds 3 and is not a multiple of it |
| `FormatString.Printer.ParseFlags` | FormatString.c:178-218 | the flags, in any order, with their overriding rules |
| `FormatString.Printer.ParseInteger` | FormatString.c:245-263 | a number, or an argument for an asterisk |
| `FormatString.Printer.ParseSizes` | FormatString.c:220-243 | width and precision; a negative width argument is a minus flag |
| `FormatString.Printer.ParseLengthModifier` | FormatString.c:265-293 | l, ll, h and hh |
| `FormatString.Printer.ParseOne` | FormatString.c:62-70 | a whole directive, or the end of the format |
| `FormatString.Printer.GenerateDigits` | FormatString.c:378-389 | the digits, generated backwards, are the numeral |
| `FormatString.Printer.OutputUnsignedInteger` | FormatString.c:363-414 | the digits and extra zeros printed |
| `FormatString.Printer.OutputSignedInteger` | FormatString.c:343-361 | the signed conversion of the standard, which `ReadBack.SignedReadsBack` reads back |
| `FormatString.Printer.OutputDigitString` | FormatString.c:562-609 | padding, prefix, zeros and digits in order, and their number |
| `FormatString.Printer.OutputString` | FormatString.c:298-338 | a string cut at the precision and padded to the width |
| `FormatString.Printer.ConvertUnsigned` | FormatString.c:112-152 | the conversions u, o, x and X of the standard |
| `FormatString.Printer.Convert` | FormatString.c:73-164 | what each conversion character prints and whether it takes an argument |
| `FormatString.Printer.FormatOne` | FormatString.c:47-174 | one literal character or directive |
| `FormatString.Printer.Run` | FormatString.c:43-176 | the output is the meaning of the format, and the cursor never passes the terminator |
| `Numerals.NumeralDenotes` | FormatString.c:378-389 | the digits denote the value and start with no zero |
| `Numerals.DigitsDenote` | FormatString.c:367-389 | the digits shown denote the value, and are as many as the value needs or the precision asks for |
| `ReadBack.SignedReadsBack` | FormatString.c:343-361 | a reader that knows nothing of the printer gets the value of d and i back, for every value, flags, width and precision; minus, plus and space are there exactly as value and flags ask |
| `ReadBack.DecimalReadsBack` | FormatString.c:131-134 | the same for u, without any sign |
| `ReadBack.OctalReadsBack` | FormatString.c:136-139 | the same for o, whose alternative form starts with a zero |
| `ReadBack.HexReadsBack` | FormatString.c:141-149 | the same for x and X, with 0x or 0X exactly when asked for and letters of one case |
| `ReadBack.FlagsPlace` | FormatString.c:562-609 | where a number stands in its field, from the flags - and 0 and the precision |
| `ReadBack.ArgumentWidths` | FormatString.c:92-127 | each length modifier reads its argument as that many bits |
| `ReadBack.ConversionsReadBack` | FormatString.c:73-164 | each conversion character prints what can be read back as its argument, and other characters print nothing |
| `ReadBack.ConversionsPlaced` | FormatString.c:73-164 | in the place its directive asks for |
| `ReadBack.StringShown` | FormatString.c:298-338 | a string, cut at the precision, on the side asked for and filled up to the width |
| `ReadBack.TextsPrinted` | FormatString.c:75-89 | the text itself, (null) for none, and a character, or nothing for the zero character |
| `Numerals.FieldLength` | FormatString.c:578-583 | the length printed is the width or the content, whichever is more |
| `FormatString.PrefixedAgrees` | FormatString.c:392-413 | the printer's arithmetic gives the field the standard describes |
| `FormatString.OctalAgrees` | FormatString.c:136-139 | the alternative octal form starts with a zero, and no more zeros than needed |
| `FormatString.BufferSuffices` | FormatString.c:367-389 | 21 digits suffice exactly unless an octal value is 2^63 or more |
| `FormatString.BufferOverrun` | FormatString.c:367-389 | an input that needs 22 |
| `FormatString.ParseDirective` | FormatString.c:62-70 | a parsed directive ends on its conversion character, inside the format |
| `Directives.ReadsWhatIsWritten` | FormatString.c:178-293 | every directive written by the grammar of the standard, a precision with leading zeros or without digits included, is read back as what it means, whatever surrounds it |
| `Directives.ReadsNumbers` | FormatString.c:245-263 | a width and a precision are read as the numbers they denote, whatever zeros the precision starts with |
| `Directives.PrintsWhatIsWritten` | FormatString.c:43-176 | a format prints its ordinary characters, then what its first directive means for its argument, then the rest with the arguments left |
| `ReadBack.PercentPrints` | FormatString.c:52-58 | two percent signs print one |

## Left out

- Scheduler.TaskKernel.ResetNextTaskUnblockTime: after a deletion or suspension it runs in a critical section of its own, so it is a step of its own in the step machine.
- Scheduler.TaskKernel.CreateTask: the choice of the running task before the scheduler starts is not modelled.
- Scheduler.TaskKernel.DeleteTask: the pre-delete hook, the task counters for debuggers and uxTasksDeleted are not modelled.
- Scheduler.TaskKernel.IncrementTick: its precondition is the assertion of the list switch, which `KernelTime.EmptyAtSwitch` shows always to hold; the tick hook is not modelled.
- Scheduler.TaskKernel.ListTasksWithinSingleList: names, stack marks and run-time counters of the report are not modelled.
- Scheduler.TaskKernel.PlaceOnUnorderedEventList: the in-use flag of an event item is a constructor of the item's value instead of a bit; `EventGroups` has the bits.
- Mutexes.MutexQueue.Give: giving by a task that is not the holder is excluded, as the source asserts; the wake-up of a waiter is a step of the kernel of its own.
- QueueProtocol.StepKept: waiting is with or without a timeout, and when it expires is left open; which waiter is first is left open too.
- QueueProtocol.QueueControl.UnlockBoth: the two critical sections follow each other at once; the step machine lets interrupts in between any two turns.
- Timers.TimerDaemon.ProcessReceivedCommand: callbacks that call the timer API count as posts by others; the command queue has no bound; pended function calls are left out.
- Timers.TimerDaemon.ProcessReceivedCommands: pended function calls are left out.
- EventGroups.Rendezvous: a task whose wait expires, or that makes another call, has left the rendezvous.
- EventGroups.EventGroup.SetBitsInGroup: readying the woken tasks is the kernel's `RemoveFromUnorderedEventList`.
- Ws2812.Driver.Transmit: half and complete interrupts alternate, and each is served before the next.
- Ws2812.Driver.Send: the product of the LED count and 24 is assumed not to overflow.
- FormatString.Printer.OutputUnsignedInteger: values of more than 21 digits, exactly the octal ones from 2^63 on by `FormatString.BufferSuffices`, are excluded, because the source then writes beyond its buffer.
- FormatString.Printer.ConvertUnsigned: the same values are excluded.
- FormatString.Printer.Convert: the same values are excluded.
- FormatString.Printer.FormatOne: the same values are excluded.
- FormatString.Printer.OutputSignedInteger: negating the most negative value wraps in C and is the true absolute value here.
- FormatString.Printer.ParseInteger: numbers do not overflow, and negating the least width is not modelled.
- FormatString.Printer.Run: the same values are excluded; the returned count, which omits integer output, is not modelled; floating-point output is a parameter.
- KernelList: the scheduler is modelled on the sequence view of the lists, not on the heap objects; the two are connected by the contracts of `KernelList` and `Rings`.
- Widths other than the tick: the overflow count, queue counts and lock counts are unbounded.
- Port layer, assembly, context switching proper, the MPU, memory allocation and stack set-up.
- Co-routines, queue sets, the alternative queue API, tickless idle, run-time statistics, application tags.
- Task notifications, pended function calls, names, trace numbering, the queue registry and text reports.
- Resets of live queues, deletion of mutex holders, deletion or suspension of just-woken tasks, and resets or new periods racing with catch-up of the same timer (`TimerRuns.StopSilences` says exactly when a stop wins).
- Hardware set-up in ws2812.c, and the board files other than ws2812.c and FormatString.c.
