/**
 The scheduler as the kernel keeps it: static variables updated in place, lists drained in loops.  Each
 operation is proved to have exactly the effect that Kernels gives it.
 */
module Scheduler {
  import opened Ticks
  import opened Rings
  import opened Families
  import opened Kernels
  import opened KernelSteps
  import opened KernelSelection
  import opened KernelOrder
  import opened KernelTime
  import opened KernelRuns
  import opened SystemState

  class TaskKernel {
    var tcbs: map<TaskId, Tcb>
    var states: Family<StateList>
    var events: Family<EventList>
    var current: TaskId
    var top: nat
    var bits: set<nat>
    var tick: Tick
    var nextUnblock: Tick
    var overflows: nat
    var firstIsCurrent: bool
    var suspended: nat
    var pended: nat
    var yieldPending: bool

    ghost function State(): Kernel
      reads this
    {
      Kernel(tcbs, states, events, current, top, bits, tick, nextUnblock, overflows, firstIsCurrent, suspended,
             pended, yieldPending)
    }

    ghost predicate Valid()
      reads this
    {
      Coherent(State())
    }

    function DelayedNow(): StateList
      reads this
    {
      if firstIsCurrent then FirstDelayed else SecondDelayed
    }

    function OverflowNow(): StateList
      reads this
    {
      if firstIsCurrent then SecondDelayed else FirstDelayed
    }

    /** prvInitialiseTaskLists and the start of the scheduler, with the idle task as the only one. */
    constructor (idle: TaskId)
      ensures State() == Initial(idle)
    {
      tcbs := map[idle := Tcb(0, 0, 0, 0, CodedPriority(0))];
      states, events := Family(map[], map[]), Family(map[], map[]);
      current, top, bits := idle, 0, {};
      tick, nextUnblock, overflows, firstIsCurrent := 0, MAX_DELAY, 0, true;
      suspended, pended, yieldPending := 0, 0, false;
      new;
      AddTaskToReadyList(idle);
      assert states.lists[Ready(0)].items == [idle];
    }

    // -------------------------------------------------------------------------
    // Ready lists
    // -------------------------------------------------------------------------

    /** The reset macro of the port-optimised scheduler, which looks at the ready list first. */
    method ResetReadyPriority(p: nat)
      modifies this`bits
      ensures bits == if At(states, Ready(p)).items == [] then old(bits) - {p} else old(bits)
    {
      if |At(states, Ready(p)).items| == 0 {
        bits := bits - {p};
      }
    }

    method AddTaskToReadyList(t: TaskId)
      requires Valid() && t in tcbs && t !in states.home
      modifies this`states, this`top, this`bits
      ensures State() == MakeReady(old(State()), t)
      ensures top == if tcbs[t].priority > old(top) then tcbs[t].priority else old(top)
    {
      var p := tcbs[t].priority;
      if p > top {
        top := p;
      }
      bits := bits + {p};
      states := Append(states, Ready(p), t);
    }

    /** uxListRemove of a state item, with the reset macro when it leaves an empty list behind. */
    method RemoveStateItem(t: TaskId)
      requires Valid() && t in states.home
      modifies this`states, this`bits
      ensures State() == UnlinkReset(old(State()), t)
    {
      var l := states.home[t];
      states := Take(states, t);
      if |At(states, l).items| == 0 {
        ResetReadyPriority(tcbs[t].priority);
      }
    }

    /** The running task leaves its ready list; the port macro is called without looking again. */
    method RemoveRunningTask()
      requires Valid() && current in states.home && states.home[current] == Ready(tcbs[current].priority)
      modifies this`states, this`bits
      ensures State() == UnlinkReset(old(State()), current)
    {
      var p := tcbs[current].priority;
      states := Take(states, current);
      if |At(states, Ready(p)).items| == 0 {
        bits := bits - {p};
      }
    }

    /** uxListRemove of a blocked task's state item, then prvAddTaskToReadyList. */
    method UnblockTask(t: TaskId)
      requires Valid() && t in states.home
      modifies this`states, this`top, this`bits
      ensures State() == MakeReady(Unlink(old(State()), t), t)
    {
      states := Take(states, t);
      AddTaskToReadyList(t);
    }

    /** vListInsert of a state item: in the order of the wake times. */
    method InsertByWakeTime(l: StateList, t: TaskId)
      requires Valid() && t in tcbs && t !in states.home
      modifies this`states
      ensures State() == FileSorted(old(State()), l, t)
    {
      var s := At(states, l).items;
      states := Place(states, l, Slot(Wakes(tcbs, s), tcbs[t].wake), t);
    }

    method RemoveEventItem(t: TaskId)
      requires Valid()
      modifies this`events
      ensures State() == LeaveEvent(old(State()), t)
    {
      if t in events.home {
        events := Take(events, t);
      }
    }

    // -------------------------------------------------------------------------
    // Creating, deleting, suspending, resuming
    // -------------------------------------------------------------------------

    method CreateTask(t: TaskId, priority: nat) returns (yieldRequired: bool)
      requires Valid() && t !in tcbs && priority < PRIORITIES
      modifies this`tcbs, this`states, this`top, this`bits
      ensures State() == Create(old(State()), t, priority)
      ensures yieldRequired <==> priority > old(tcbs[current].priority)
    {
      tcbs := tcbs[t := Tcb(priority, priority, 0, 0, CodedPriority(priority))];
      AddTaskToReadyList(t);
      yieldRequired := tcbs[current].priority < priority;
    }

    method DeleteTask(t: TaskId)
      requires Valid() && t in states.home
      modifies this`states, this`bits, this`events
      ensures State() == Delete(old(State()), t)
    {
      RemoveStateItem(t);
      RemoveEventItem(t);
      states := Append(states, Terminating, t);
    }

    /** The idle task's critical section that removes one deleted task for good. */
    method ReapTask() returns (t: TaskId)
      requires Valid() && At(states, Terminating).items != [] && At(states, Terminating).items[0] != current
      modifies this`tcbs, this`states
      ensures State() == Reap(old(State()))
    {
      t := At(states, Terminating).items[0];
      assert t in states.home;
      states := Take(states, t);
      tcbs := tcbs - {t};
    }

    method SuspendTask(t: TaskId)
      requires Valid() && t in states.home
      modifies this`states, this`bits, this`events
      ensures State() == Suspend(old(State()), t)
    {
      RemoveStateItem(t);
      RemoveEventItem(t);
      states := Append(states, Suspended, t);
    }

    method TaskIsSuspended(t: TaskId) returns (r: bool)
      requires Valid()
      ensures r == IsSuspended(State(), t)
    {
      r := false;
      if t in states.home && states.home[t] == Suspended {
        if !(t in events.home && events.home[t] == PendingReady) {
          if t !in events.home {
            r := true;
          }
        }
      }
    }

    method ResumeTask(t: TaskId) returns (yieldRequired: bool)
      requires Valid()
      modifies this`states, this`top, this`bits
      ensures State() == Resume(old(State()), t)
      ensures yieldRequired <==> t != current && IsSuspended(old(State()), t) && Rivals(old(State()), t)
    {
      yieldRequired := false;
      if t != current {
        var wasSuspended := TaskIsSuspended(t);
        if wasSuspended {
          UnblockTask(t);
          yieldRequired := tcbs[t].priority >= tcbs[current].priority;
        }
      }
    }

    method ResumeTaskFromISR(t: TaskId) returns (yieldRequired: bool)
      requires Valid()
      modifies this`states, this`events, this`top, this`bits
      ensures State() == ResumeFromISR(old(State()), t)
      ensures yieldRequired <==> suspended == 0 && IsSuspended(old(State()), t) && Rivals(old(State()), t)
    {
      yieldRequired := false;
      var wasSuspended := TaskIsSuspended(t);
      if wasSuspended {
        if suspended == 0 {
          yieldRequired := tcbs[t].priority >= tcbs[current].priority;
          UnblockTask(t);
        } else {
          events := Append(events, PendingReady, t);
        }
      }
    }

    // -------------------------------------------------------------------------
    // Blocking and waking
    // -------------------------------------------------------------------------

    method AddCurrentTaskToDelayedList(wake: Tick)
      requires Valid() && current !in states.home
      modifies this`tcbs, this`states, this`nextUnblock
      ensures State() == AddDelayed(old(State()), current, wake)
    {
      tcbs := tcbs[current := tcbs[current].(wake := wake)];
      if wake < tick {
        InsertByWakeTime(OverflowNow(), current);
      } else {
        InsertByWakeTime(DelayedNow(), current);
        if wake < nextUnblock {
          nextUnblock := wake;
        }
      }
    }

    predicate RunningReady()
      reads this
    {
      current in tcbs && current in states.home && states.home[current] == Ready(tcbs[current].priority)
    }

    method DelayTaskUntil(wake: Tick)
      requires Valid() && RunningReady()
      modifies this`tcbs, this`states, this`bits, this`nextUnblock
      ensures State() == Kernels.DelayUntil(old(State()), wake)
    {
      RemoveRunningTask();
      AddCurrentTaskToDelayedList(wake);
    }

    /** The part of vTaskDelay between suspending and resuming the scheduler. */
    method DelayTask(n: Tick)
      requires Valid() && RunningReady()
      modifies this`tcbs, this`states, this`bits, this`nextUnblock
      ensures State() == Kernels.Delay(old(State()), n)
    {
      DelayTaskUntil(Add(tick, n));
    }

    method BlockTask(n: Tick, forever: bool)
      requires Valid() && RunningReady()
      modifies this`tcbs, this`states, this`bits, this`nextUnblock
      ensures State() == Kernels.Block(old(State()), n, forever)
    {
      RemoveRunningTask();
      if forever {
        states := Append(states, Suspended, current);
      } else {
        AddCurrentTaskToDelayedList(Add(tick, n));
      }
    }

    method SetEventItemValue(t: TaskId, value: nat)
      requires Valid() && t in tcbs
      modifies this`tcbs
      ensures State() == WithTcb(old(State()), t, old(tcbs[t]).(eventValue := Borrowed(value)))
    {
      tcbs := tcbs[t := tcbs[t].(eventValue := Borrowed(value))];
    }

    method PlaceOnEventList(e: nat, n: Tick)
      requires Valid() && RunningReady() && current !in events.home
      modifies this`tcbs, this`states, this`events, this`bits, this`nextUnblock
      ensures State() == Kernels.PlaceOnEventList(old(State()), e, n)
    {
      var s := At(events, Event(e)).items;
      events := Place(events, Event(e), Slot(EventValues(tcbs, s), tcbs[current].eventValue.value), current);
      BlockTask(n, n == MAX_DELAY);
    }

    method PlaceOnUnorderedEventList(e: nat, value: nat, n: Tick)
      requires Valid() && RunningReady() && current !in events.home
      modifies this`tcbs, this`states, this`events, this`bits, this`nextUnblock
      ensures State() == Kernels.PlaceOnUnorderedEventList(old(State()), e, value, n)
    {
      hide At, Consistent, Block;
      SetEventItemValue(current, value);
      events := Append(events, Event(e), current);
      BlockTask(n, n == MAX_DELAY);
    }

    method PlaceOnEventListRestricted(e: nat, n: Tick, forever: bool)
      requires Valid() && RunningReady() && current !in events.home
      modifies this`tcbs, this`states, this`events, this`bits, this`nextUnblock
      ensures State() == Kernels.PlaceOnEventListRestricted(old(State()), e, n, forever)
    {
      events := Append(events, Event(e), current);
      BlockTask(n, forever);
    }

    method RemoveFromEventList(e: nat) returns (woken: bool)
      requires Valid() && At(events, Event(e)).items != []
      requires suspended == 0 ==> At(events, Event(e)).items[0] in states.home
      modifies this`states, this`events, this`top, this`bits, this`yieldPending
      ensures State() == Kernels.RemoveFromEventList(old(State()), e)
      ensures woken <==> Outranks(old(State()), old(At(events, Event(e)).items[0]))
    {
      var t := At(events, Event(e)).items[0];
      assert t in events.home;
      RemoveEventItem(t);
      if suspended == 0 {
        UnblockTask(t);
      } else {
        events := Append(events, PendingReady, t);
      }
      woken := tcbs[t].priority > tcbs[current].priority;
      if woken {
        yieldPending := true;
      }
    }

    method RemoveFromUnorderedEventList(t: TaskId, value: nat) returns (woken: bool)
      requires Valid() && t in events.home && t in states.home
      modifies this`tcbs, this`states, this`events, this`top, this`bits, this`yieldPending
      ensures State() == Kernels.RemoveFromUnorderedEventList(old(State()), t, value)
      ensures woken <==> Outranks(old(State()), t)
    {
      hide At, Consistent, Unlink, MakeReady, LeaveEvent;
      SetEventItemValue(t, value);
      RemoveEventItem(t);
      UnblockTask(t);
      woken := tcbs[t].priority > tcbs[current].priority;
      if woken {
        yieldPending := true;
      }
    }
  
    method ResetEventItemValue() returns (value: nat)
      requires Valid()
      modifies this`tcbs
      ensures State() == ResetEventValue(old(State()))
      ensures value == old(tcbs[current].eventValue.value)
    {
      value := tcbs[current].eventValue.value;
      tcbs := tcbs[current := tcbs[current].(eventValue := CodedPriority(tcbs[current].priority))];
    }

    // -------------------------------------------------------------------------
    // Time
    // -------------------------------------------------------------------------

    method ResetNextTaskUnblockTime()
      requires Valid()
      modifies this`nextUnblock
      ensures State() == ResetNextUnblock(old(State()))
    {
      var s := At(states, DelayedNow()).items;
      if |s| == 0 {
        nextUnblock := MAX_DELAY;
      } else {
        assert s[0] in tcbs;
        nextUnblock := tcbs[s[0]].wake;
      }
    }

    /** The switch asserts that the list being retired is empty; KernelTime.EmptyAtSwitch discharges it. */
    method SwitchDelayedTaskLists()
      requires Valid() && At(states, DelayedNow()).items == []
      modifies this`firstIsCurrent, this`overflows, this`nextUnblock
      ensures State() == SwitchDelayedLists(old(State()))
    {
      firstIsCurrent := !firstIsCurrent;
      overflows := overflows + 1;
      ResetNextTaskUnblockTime();
    }

    /** One turn of the wake-up loop: the head task is no longer blocked. */
    method ExpireHead(t: TaskId)
      requires Valid() && t in states.home
      modifies this`states, this`events, this`top, this`bits
      ensures State() == Expire(old(State()), t)
    {
      states := Take(states, t);
      RemoveEventItem(t);
      AddTaskToReadyList(t);
    }

    /** The loop of xTaskIncrementTick. */
    method UnblockDueTasks() returns (switchRequired: bool)
      requires Valid()
      modifies this`states, this`events, this`top, this`bits, this`nextUnblock
      ensures State() == WakeDue(old(State()))
      ensures switchRequired == WakesRival(old(State()))
    {
      hide Expire, At, Consistent;
      switchRequired := false;
      ghost var k0 := State();
      while true
        invariant Valid()
        invariant WakeDue(State()) == WakeDue(k0)
        invariant (switchRequired || WakesRival(State())) == WakesRival(k0)
        decreases |At(states, DelayedList(State())).items|
      {
        if |At(states, DelayedNow()).items| == 0 {
          nextUnblock := MAX_DELAY;
          break;
        }
        ExpireShrinks(State());
        var t := At(states, DelayedNow()).items[0];
        var value := tcbs[t].wake;
        if tick < value {
          nextUnblock := value;
          break;
        }
        ExpireHead(t);
        if tcbs[t].priority >= tcbs[current].priority {
          switchRequired := true;
        }
      }
    }

    /** The tick interrupt; outside the suspended state the delayed list must be empty when the tick wraps. */
    method IncrementTick() returns (switchRequired: bool)
      requires Valid()
      requires suspended == 0 && tick == MAX_DELAY ==> At(states, DelayedNow()).items == []
      modifies this
      ensures State() == Kernels.IncrementTick(old(State()))
      ensures switchRequired == TickWantsSwitch(old(State()))
    {
      hide WakeDue, WakesRival, ResetNextUnblock, At, Consistent;
      switchRequired := false;
      if suspended == 0 {
        tick := Add(tick, 1);
        if tick == 0 {
          SwitchDelayedTaskLists();
        }
        if tick >= nextUnblock {
          switchRequired := UnblockDueTasks();
        }
        if |At(states, Ready(tcbs[current].priority)).items| > 1 {
          switchRequired := true;
        }
      } else {
        pended := pended + 1;
      }
      if yieldPending {
        switchRequired := true;
      }
    }

    // -------------------------------------------------------------------------
    // Suspending and resuming the scheduler
    // -------------------------------------------------------------------------

    method SuspendAll()
      modifies this`suspended
      ensures State() == Kernels.SuspendAll(old(State()))
    {
      suspended := suspended + 1;
    }

    /** One turn of the first loop of xTaskResumeAll. */
    method ReadyPendingHead()
      requires Valid() && PendingHoused(State()) && At(events, PendingReady).items != []
      modifies this`states, this`events, this`top, this`bits, this`yieldPending
      ensures State() == DrainOne(old(State()))
    {
      hide At, Consistent, Unlink, MakeReady, LeaveEvent;
      PendingHead(State());
      var t := At(events, PendingReady).items[0];
      RemoveEventItem(t);
      UnblockTask(t);
      if tcbs[t].priority >= tcbs[current].priority {
        yieldPending := true;
      }
    }

    method DrainPendingReady()
      requires Valid() && PendingHoused(State())
      modifies this`states, this`events, this`top, this`bits, this`yieldPending
      ensures State() == Drain(old(State()))
    {
      hide At, Coherent, PendingHoused, DrainOne;
      ghost var k0 := State();
      while |At(events, PendingReady).items| > 0
        invariant Valid() && PendingHoused(State())
        invariant Drain(State()) == Drain(k0)
        decreases |At(events, PendingReady).items|
      {
        ReadyPendingHead();
      }
    }

    /** One turn of the second loop of xTaskResumeAll: a tick held back is processed. */
    method ReplayTick(ghost h: History)
      requires Valid() && suspended == 0 && pended > 0 && Timed(State(), h)
      modifies this
      ensures State() == ReplayOne(old(State()))
    {
      hide At, Consistent, Kernels.IncrementTick, TickWantsSwitch, Timed;
      if tick == MAX_DELAY {
        EmptyAtSwitch(State(), h);
      }
      ReplayKeepsRunning(State());
      var switchRequired := IncrementTick();
      if switchRequired {
        yieldPending := true;
      }
      pended := pended - 1;
    }

    method ReplayPendedTicks(ghost h: History)
      requires Valid() && suspended == 0 && Ordered(State()) && Timed(State(), h)
      modifies this
      ensures State() == Replay(old(State()))
    {
      hide At, Coherent, Ordered, Timed, ReplayOne;
      ghost var k0, h1 := State(), h;
      while pended > 0
        invariant Valid() && suspended == 0 && Ordered(State()) && Timed(State(), h1)
        invariant Replay(State()) == Replay(k0)
        decreases pended
      {
        ReplayOneTimed(State(), h1);
        ReplayTick(h1);
        h1 := h1.(now := h1.now + 1);
      }
    }

    method ResumeAll(ghost h: History, ghost idle: TaskId) returns (alreadyYielded: bool)
      requires Invariant(State(), h, idle) && suspended > 0
      modifies this
      ensures State() == Kernels.ResumeAll(old(State()))
      ensures alreadyYielded <==> old(suspended) == 1 && yieldPending
    {
      hide At, Consistent, OrderedLists, Drain, Replay, DeadlinesKept;
      alreadyYielded := false;
      suspended := suspended - 1;
      if suspended == 0 {
        DrainTimed(State(), h);
        DrainOrdered(State());
        DrainPendingReady();
        ReplayPendedTicks(h);
        if yieldPending {
          alreadyYielded := true;
        }
      }
    }

    // -------------------------------------------------------------------------
    // Selecting the task to run
    // -------------------------------------------------------------------------

    method FindTopReady()
      requires At(states, Ready(ScanDown(states, top))).items != []
      modifies this`top
      ensures top == ScanDown(states, old(top))
    {
      while |At(states, Ready(top)).items| == 0
        invariant ScanDown(states, top) == ScanDown(states, old(top))
        decreases top
      {
        assert top > 0;
        top := top - 1;
      }
    }

    /** The generic selection: scan downwards from the recorded top priority. */
    method SwitchContext()
      requires Valid() && At(states, Ready(ScanDown(states, top))).items != []
      modifies this`states, this`top, this`current, this`yieldPending
      ensures State() == Kernels.SwitchContext(old(State()))
    {
      if suspended > 0 {
        yieldPending := true;
      } else {
        hide ScanDown, Consistent;
        yieldPending := false;
        FindTopReady();
        states := Advance(states, Ready(top));
        current := Selected(At(states, Ready(top)));
      }
    }
  
    /** The port-optimised selection: the highest bit of the ready map leads to the same task. */
    method SwitchContextOptimised(ghost idle: TaskId)
      requires Housed(State(), idle) && Indexed(State()) && suspended == 0
      modifies this`states, this`current, this`yieldPending
      ensures At(old(states), Ready(ScanDown(old(states), top))).items != []
      ensures State() == Kernels.SwitchContext(old(State())).(top := top)
    {
      hide Consistent, At;
      IndexesAgree(State(), idle);
      SwitchAlwaysEnabled(State(), idle);
      var p := HighestBit(bits, PRIORITIES);
      SelectedIn(State(), Ready(p));
      yieldPending := false;
      states := Advance(states, Ready(p));
      current := Selected(At(states, Ready(p)));
    }

    // -------------------------------------------------------------------------
    // Priorities
    // -------------------------------------------------------------------------

    /** Moves a task whose priority has just changed from one ready list to another. */
    method RefileReadyTask(t: TaskId, priorityUsedOnEntry: nat, ghost before: Kernel)
      requires Coherent(before) && State() == before.(tcbs := tcbs) && t in before.tcbs
      requires priorityUsedOnEntry == before.tcbs[t].priority
      requires t in tcbs && tcbs == before.tcbs[t := tcbs[t]] && tcbs[t].priority < PRIORITIES && tcbs[t].base < PRIORITIES
      modifies this`states, this`top, this`bits
      ensures State() == Refile(before, t, tcbs[t])
    {
      if t in states.home && states.home[t] == Ready(priorityUsedOnEntry) {
        states := Take(states, t);
        if |At(states, Ready(priorityUsedOnEntry)).items| == 0 {
          bits := bits - {priorityUsedOnEntry};
        }
        assert State() == WithTcb(UnlinkReset(before, t), t, tcbs[t]);
        hide UnlinkReset, MakeReady, At, Consistent;
        AddTaskToReadyList(t);
      }
    }

    /** Whether a change to priority p may leave the running task outranked. */
    method ChangeNeedsYield(t: TaskId, p: nat) returns (yieldRequired: bool)
      requires Valid() && t in tcbs && p < PRIORITIES
      ensures yieldRequired <==> ChangeYields(State(), t, p)
    {
      yieldRequired := false;
      if tcbs[t].base != p {
        if p > tcbs[t].base {
          yieldRequired := t != current && p >= tcbs[current].priority;
        } else {
          yieldRequired := t == current;
        }
      }
    }

    method SetPriority(t: TaskId, requested: nat) returns (yieldRequired: bool)
      requires Valid() && t in tcbs
      modifies this`tcbs, this`states, this`top, this`bits
      ensures State() == PrioritySet(old(State()), t, requested)
      ensures yieldRequired <==> ChangeYields(old(State()), t, requested)
    {
      hide Consistent, At, Refile;
      hide ChangeYields;
      var p := requested;
      if p >= PRIORITIES {
        p := PRIORITIES - 1;
      }
      SameYield(State(), t, requested);
      yieldRequired := ChangeNeedsYield(t, p);
      var base := tcbs[t].base;
      if base != p {
        ghost var before := State();
        var priorityUsedOnEntry := tcbs[t].priority;
        var tcb := tcbs[t];
        if tcb.base == tcb.priority {
          tcb := tcb.(priority := p);
        }
        tcb := tcb.(base := p);
        if tcb.eventValue.Coded? {
          tcb := tcb.(eventValue := CodedPriority(p));
        }
        tcbs := tcbs[t := tcb];
        RefileReadyTask(t, priorityUsedOnEntry, before);
      }
    }

    /** A mutex without a holder inherits nothing. */
    method InheritPriority(holder: TaskId)
      requires Valid() && holder in tcbs
      modifies this`tcbs, this`states, this`top, this`bits
      ensures State() == Inherit(old(State()), holder)
    {
      hide Consistent, At, Refile;
      var p := tcbs[current].priority;
      var tcb := tcbs[holder];
      if tcb.priority < p {
        ghost var before := State();
        if tcb.eventValue.Coded? {
          tcb := tcb.(eventValue := CodedPriority(p));
        }
        var priorityUsedOnEntry := tcb.priority;
        tcbs := tcbs[holder := tcb.(priority := p)];
        RefileReadyTask(holder, priorityUsedOnEntry, before);
      }
    }

    method DisinheritPriority() returns (switchRequired: bool)
      requires Valid() && current in states.home && tcbs[current].held > 0
      modifies this`tcbs, this`states, this`top, this`bits
      ensures State() == Disinherit(old(State()), current)
      ensures switchRequired <==> old(tcbs[current].priority) != tcbs[current].priority
    {
      hide Consistent, At, UnlinkReset, MakeReady;
      switchRequired := false;
      tcbs := tcbs[current := tcbs[current].(held := tcbs[current].held - 1)];
      var tcb := tcbs[current];
      if tcb.priority != tcb.base {
        if tcb.held == 0 {
          RemoveStateItem(current);
          tcbs := tcbs[current := tcb.(priority := tcb.base, eventValue := CodedPriority(tcb.base))];
          AddTaskToReadyList(current);
          switchRequired := true;
        }
      }
    }

    method IncrementMutexHeldCount()
      requires Valid()
      modifies this`tcbs
      ensures State() == HoldMutex(old(State()))
    {
      tcbs := tcbs[current := tcbs[current].(held := tcbs[current].held + 1)];
    }

    // -------------------------------------------------------------------------
    // Reporting
    // -------------------------------------------------------------------------

    /** listGET_OWNER_OF_NEXT_ENTRY, and the status of the task found. */
    method ReportNextEntry(l: StateList, state: TaskState) returns (next: TaskId, status: Status)
      requires Valid() && state == StateNamed(l) && At(states, l).items != []
      modifies this`states
      ensures states == Advance(old(states), l)
      ensures 0 < At(states, l).at <= |At(states, l).items| && next == Selected(At(states, l)) && next in tcbs
      ensures status == StatusOf(old(State()), l, next)
    {
      SelectedIn(State(), l);
      states := Advance(states, l);
      next := Selected(At(states, l));
      var nextState := state;
      if state == StateSuspended {
        if next in events.home {
          nextState := StateBlocked;
        }
      }
      status := Status(next, nextState, tcbs[next].priority, tcbs[next].base);
    }

    /** The walk over list l of k, begun and i tasks on. */
    ghost predicate Walking(k: Kernel, l: StateList, i: nat)
      reads this
    {
      && Coherent(k) && At(k.states, l).items != [] && i <= |At(k.states, l).items|
      && Rings.Valid(At(k.states, l))
      && State() == k.(states := k.states.(lists := k.states.lists[l := Turned(At(k.states, l), i)]))
    }

    method WalkOne(l: StateList, state: TaskState, ghost k: Kernel, ghost i: nat) returns (next: TaskId, status: Status)
      requires Walking(k, l, i) && i < |At(k.states, l).items| && state == StateNamed(l)
      modifies this`states
      ensures Walking(k, l, i + 1)
      ensures next == Turn(At(k.states, l))[i] && status == ListReport(k, l)[i]
    {
      hide Consistent, At, ListReport, Turn, Turned, Next, Selected;
      ghost var r := At(k.states, l);
      TurnStep(r, i);
      AdvancedTo(k, states, l, Turned(r, i));
      next, status := ReportNextEntry(l, state);
      AdvancedTo(k, states, l, Turned(r, i + 1));
      ListReportAt(k, l, i);
    }

    /** The loop of prvListTaskWithinSingleList: until the first task met comes round again. */
    method WalkList(l: StateList, state: TaskState, first: TaskId, ghost k: Kernel) returns (report: seq<Status>)
      requires Walking(k, l, 0) && state == StateNamed(l)
      requires first == Turn(At(k.states, l))[|At(k.states, l).items| - 1]
      modifies this`states
      ensures report == ListReport(k, l)
      ensures Walking(k, l, |At(k.states, l).items|)
    {
      hide Consistent, At, ListReport, Turn, Turned;
      report := [];
      ghost var n := |At(k.states, l).items|;
      var more := true;
      while more
        invariant |report| <= n && (more <==> |report| < n)
        invariant Walking(k, l, |report|)
        invariant report == ListReport(k, l)[..|report|]
        decreases n - |report|
      {
        ghost var i := |report|;
        TurnStep(At(k.states, l), i);
        var next, status := WalkOne(l, state, k, i);
        assert ListReport(k, l)[..i + 1] == ListReport(k, l)[..i] + [status];
        report := report + [status];
        more := next != first;
      }
    }

    method ListTasksWithinSingleList(l: StateList, state: TaskState) returns (report: seq<Status>)
      requires Valid() && state == StateNamed(l)
      modifies this`states
      ensures report == ListReport(old(State()), l)
      ensures states == if At(old(states), l).items == [] then old(states) else Advance(old(states), l)
    {
      report := [];
      if |At(states, l).items| > 0 {
        ghost var k := State();
        states := Advance(states, l);
        var first := Selected(At(states, l));
        TurnEnd(At(k.states, l));
        report := WalkList(l, state, first, k);
      }
    }

    /** The lists whose share is still to come are untouched by the walks so far. */
    ghost predicate Reporting(k: Kernel, done: seq<StateList>, report: seq<Status>)
      reads this
    {
      && Coherent(k) && Consistent(states) && State() == k.(states := states) && states.home == k.states.home
      && report == Report(k, done) && states == TurnedLists(k.states, done)
      && forall l :: l !in done ==> At(states, l) == At(k.states, l)
    }

    method ReportList(l: StateList, state: TaskState, report: seq<Status>, ghost k: Kernel, ghost done: seq<StateList>)
      returns (report': seq<Status>)
      requires Reporting(k, done, report) && l !in done && state == StateNamed(l)
      modifies this`states
      ensures Reporting(k, done + [l], report')
    {
      hide Report, ListReport, Consistent;
      SameListReport(k, State(), l);
      ReportExtends(k, done, l);
      assert (done + [l])[..|done|] == done;
      var share := ListTasksWithinSingleList(l, state);
      report' := report + share;
    }

    method ReportReadyLists(ghost k: Kernel) returns (report: seq<Status>)
      requires Valid() && State() == k
      modifies this`states
      ensures Reporting(k, ReadyLists(0), report)
    {
      report := [];
      assert ReadyLists(PRIORITIES) == [];
      var p := PRIORITIES;
      while p > 0
        invariant 0 <= p <= PRIORITIES
        invariant Reporting(k, ReadyLists(p), report)
      {
        hide Reporting;
        p := p - 1;
        assert ReadyLists(p) == ReadyLists(p + 1) + [Ready(p)];
        report := ReportList(Ready(p), StateReady, report, k, ReadyLists(p + 1));
      }
    }

    method ReportOtherLists(report: seq<Status>, ghost k: Kernel) returns (report': seq<Status>)
      requires Reporting(k, ReadyLists(0), report)
      modifies this`states
      ensures Reporting(k, AllLists(k), report')
    {
      OrderOfLists(k);
      hide ReadyLists, AllLists, Reporting;
      ghost var done := ReadyLists(0);
      ReportingNames(k, done, report);
      report' := ReportList(DelayedNow(), StateBlocked, report, k, done);
      report' := ReportList(OverflowNow(), StateBlocked, report', k, done + [DelayedList(k)]);
      done := done + [DelayedList(k)] + [OverflowList(k)];
      report' := ReportList(Terminating, StateDeleted, report', k, done);
      report' := ReportList(Suspended, StateSuspended, report', k, done + [Terminating]);
    }

    lemma ReportingNames(k: Kernel, done: seq<StateList>, report: seq<Status>)
      requires Reporting(k, done, report)
      ensures firstIsCurrent == k.firstIsCurrent
    {
    }

    /** The body of uxTaskGetSystemState, run with the scheduler suspended. */
    method GetSystemState(room: nat) returns (report: seq<Status>)
      requires Valid()
      modifies this`states
      ensures Valid() && State() == if room >= |tcbs| then ReportAll(old(State())) else old(State())
      ensures report == if room >= |tcbs| then Report(old(State()), AllLists(old(State()))) else []
    {
      hide Consistent, At, Report, AllLists, TurnedLists;
      report := [];
      if room >= |tcbs| {
        ghost var k := State();
        report := ReportReadyLists(k);
        report := ReportOtherLists(report, k);
      }
    }
  }

  /** The list after the first task has been noted and i more have been visited. */
  ghost function Turned(r: Ring<TaskId>, i: nat): (r': Ring<TaskId>)
    requires r.at <= |r.items| && i <= |r.items| && r.items != []
    ensures r'.items == r.items && 0 < r'.at <= |r.items|
  {
    var a, n := Next(r).at, |r.items|;
    r.(at := if a + i <= n then a + i else a + i - n)
  }

  lemma SameYield(k: Kernel, t: TaskId, requested: nat)
    requires Coherent(k) && t in k.tcbs
    ensures ChangeYields(k, t, Clamped(requested)) <==> ChangeYields(k, t, requested)
  {
  }

  lemma TurnStep(r: Ring<TaskId>, i: nat)
    requires Valid(r) && i < |r.items|
    ensures Next(Turned(r, i)) == Turned(r, i + 1)
    ensures Selected(Turned(r, i + 1)) == Turn(r)[i]
    ensures Turn(r)[i] == Turn(r)[|r.items| - 1] <==> i == |r.items| - 1
  {
    TurnVisitsAll(r);
  }

  lemma TurnEnd(r: Ring<TaskId>)
    requires Valid(r) && r.items != []
    ensures Next(r) == Turned(r, 0) == Turned(r, |r.items|)
    ensures Selected(Next(r)) == Turn(r)[|r.items| - 1]
  {
  }

  lemma AdvancedTo(k: Kernel, states: Family<StateList>, l: StateList, r: Ring<TaskId>)
    requires Coherent(k) && Valid(r) && r.items == At(k.states, l).items && r.items != []
    requires states == k.states.(lists := k.states.lists[l := r])
    ensures Consistent(states) && At(states, l) == r
    ensures Advance(states, l) == k.states.(lists := k.states.lists[l := Next(r)])
  {
    assert forall m :: At(states, m) == if m == l then r else At(k.states, m);
  }
}
