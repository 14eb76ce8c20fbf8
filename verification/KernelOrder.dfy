/**
 Both delayed lists stay in order of wake time through every step, so that the head of the current one is
 always the next task to wake.
 */
module KernelOrder {
  import opened Ticks
  import opened Rings
  import opened Families
  import opened Kernels
  import opened KernelSteps
  import opened KernelSelection

  ghost predicate InWakeOrder(tcbs: map<TaskId, Tcb>, states: Family<StateList>, l: StateList) {
    Sorted(Wakes(tcbs, At(states, l).items))
  }

  ghost predicate OrderedLists(tcbs: map<TaskId, Tcb>, states: Family<StateList>) {
    InWakeOrder(tcbs, states, FirstDelayed) && InWakeOrder(tcbs, states, SecondDelayed)
  }

  ghost predicate Ordered(k: Kernel) {
    OrderedLists(k.tcbs, k.states)
  }

  predicate IsDelayedList(l: StateList) {
    l == FirstDelayed || l == SecondDelayed
  }

  /** Order depends on nothing but the two lists and the wake times of their members. */
  lemma SameOrder(k: Kernel, k': Kernel)
    requires Ordered(k)
    requires forall l :: IsDelayedList(l) ==> At(k'.states, l).items == At(k.states, l).items
    requires forall t :: t in At(k.states, FirstDelayed).items ==> WakeOf(k'.tcbs, t) == WakeOf(k.tcbs, t)
    requires forall t :: t in At(k.states, SecondDelayed).items ==> WakeOf(k'.tcbs, t) == WakeOf(k.tcbs, t)
    ensures Ordered(k')
  {
    assert Wakes(k'.tcbs, At(k'.states, FirstDelayed).items) == Wakes(k.tcbs, At(k.states, FirstDelayed).items);
    assert Wakes(k'.tcbs, At(k'.states, SecondDelayed).items) == Wakes(k.tcbs, At(k.states, SecondDelayed).items);
  }

  /** Changing the control block of a task that is not delayed, or without touching its wake time. */
  lemma TcbOrdered(k: Kernel, t: TaskId, tcb: Tcb)
    requires Coherent(k) && Ordered(k)
    requires t in k.states.home && IsDelayedList(k.states.home[t]) ==> tcb.wake == k.tcbs[t].wake
    ensures Ordered(k.(tcbs := k.tcbs[t := tcb]))
  {
    SameOrder(k, k.(tcbs := k.tcbs[t := tcb]));
  }

  lemma UnlinkOrdered(k: Kernel, t: TaskId)
    requires Coherent(k) && Ordered(k) && t in k.states.home
    ensures Ordered(Unlink(k, t))
  {
    hide Take;
    TakenOrder(k, t, FirstDelayed);
    TakenOrder(k, t, SecondDelayed);
  }

  lemma TakenOrder(k: Kernel, t: TaskId, l: StateList)
    requires Coherent(k) && InWakeOrder(k.tcbs, k.states, l) && t in k.states.home
    ensures InWakeOrder(k.tcbs, Unlink(k, t).states, l)
  {
    hide Take;
    var s := At(k.states, l).items;
    TakeAt(k.states, t, l);
    if l == k.states.home[t] {
      var p := IndexOf(s, t);
      DropSorted(Wakes(k.tcbs, s), p);
      assert Wakes(k.tcbs, DropAt(s, p)) == DropAt(Wakes(k.tcbs, s), p);
    }
  }

  lemma AppendOrdered(k: Kernel, l: StateList, t: TaskId)
    requires Coherent(k) && Ordered(k) && t !in k.states.home && !IsDelayedList(l)
    ensures Ordered(k.(states := Append(k.states, l, t)))
  {
    hide Append;
    AppendAt(k.states, l, t, FirstDelayed);
    AppendAt(k.states, l, t, SecondDelayed);
    SameOrder(k, k.(states := Append(k.states, l, t)));
  }

  lemma FileSortedOrdered(k: Kernel, l: StateList, t: TaskId)
    requires Coherent(k) && Ordered(k) && t in k.tcbs && t !in k.states.home
    ensures Ordered(FileSorted(k, l, t))
  {
    PlacedOrder(k, l, t, FirstDelayed);
    PlacedOrder(k, l, t, SecondDelayed);
  }

  lemma PlacedOrder(k: Kernel, l: StateList, t: TaskId, m: StateList)
    requires Coherent(k) && InWakeOrder(k.tcbs, k.states, m) && t in k.tcbs && t !in k.states.home
    ensures InWakeOrder(k.tcbs, FileSorted(k, l, t).states, m)
  {
    hide Place;
    var s := At(k.states, l).items;
    var p := Slot(Wakes(k.tcbs, s), k.tcbs[t].wake);
    PlaceAt(k.states, l, p, t, m);
    if m == l {
      InsertSortedStable(Wakes(k.tcbs, s), k.tcbs[t].wake);
      WakesInserted(k.tcbs, s, p, t);
    }
  }

  lemma WakesInserted(tcbs: map<TaskId, Tcb>, s: seq<TaskId>, p: nat, t: TaskId)
    requires p <= |s|
    ensures Wakes(tcbs, InsertAt(s, p, t)) == InsertAt(Wakes(tcbs, s), p, WakeOf(tcbs, t))
  {
    assert forall i :: 0 <= i < |s| + 1 ==> Wakes(tcbs, InsertAt(s, p, t))[i] == InsertAt(Wakes(tcbs, s), p, WakeOf(tcbs, t))[i];
  }

  // ---------------------------------------------------------------------------
  // Building blocks
  // ---------------------------------------------------------------------------

  lemma UnlinkResetOrdered(k: Kernel, t: TaskId)
    requires Coherent(k) && Ordered(k) && t in k.states.home
    ensures Ordered(UnlinkReset(k, t))
  {
    hide Unlink, Consistent, At;
    UnlinkOrdered(k, t);
  }

  lemma AddDelayedOrdered(k: Kernel, t: TaskId, wake: Tick)
    requires Coherent(k) && Ordered(k) && t in k.tcbs && t !in k.states.home
    ensures Ordered(AddDelayed(k, t, wake))
  {
    hide FileSorted, Consistent, At, OrderedLists;
    var k1 := WithTcb(k, t, k.tcbs[t].(wake := wake));
    TcbOrdered(k, t, k.tcbs[t].(wake := wake));
    FileSortedOrdered(k1, if wake < k.tick then OverflowList(k) else DelayedList(k), t);
  }

  lemma DelayUntilOrdered(k: Kernel, wake: Tick)
    requires Coherent(k) && Ordered(k) && k.current in k.states.home
    ensures Ordered(DelayUntil(k, wake))
  {
    hide UnlinkReset, AddDelayed, Consistent, At, OrderedLists;
    UnlinkResetOrdered(k, k.current);
    AddDelayedOrdered(UnlinkReset(k, k.current), k.current, wake);
  }

  lemma BlockOrdered(k: Kernel, n: Tick, forever: bool)
    requires Coherent(k) && Ordered(k) && k.current in k.states.home
    ensures Ordered(Block(k, n, forever))
  {
    hide UnlinkReset, DelayUntil, Append, Consistent, At, OrderedLists;
    if forever {
      UnlinkResetOrdered(k, k.current);
      AppendOrdered(UnlinkReset(k, k.current), Suspended, k.current);
    } else {
      DelayUntilOrdered(k, Add(k.tick, n));
    }
  }

  lemma RelocateOrdered(k: Kernel, t: TaskId, l: StateList)
    requires Coherent(k) && Ordered(k) && t in k.states.home && !IsDelayedList(l)
    ensures Ordered(Park(LeaveEvent(UnlinkReset(k, t), t), l, t))
  {
    hide UnlinkReset, Append, Consistent, At, OrderedLists;
    UnlinkResetOrdered(k, t);
    AppendOrdered(LeaveEvent(UnlinkReset(k, t), t), l, t);
  }

  lemma MakeReadyOrdered(k: Kernel, t: TaskId)
    requires Coherent(k) && Ordered(k) && t in k.tcbs && t !in k.states.home
    ensures Ordered(MakeReady(k, t))
  {
    hide Append, Consistent, At;
    AppendOrdered(k, Ready(k.tcbs[t].priority), t);
  }

  lemma ReadiedOrdered(k: Kernel, t: TaskId)
    requires Coherent(k) && Ordered(k) && t in k.states.home && t in k.tcbs
    ensures Ordered(MakeReady(Unlink(k, t), t))
  {
    hide Unlink, MakeReady, Consistent, At, OrderedLists;
    UnlinkOrdered(k, t);
    MakeReadyOrdered(Unlink(k, t), t);
  }

  // ---------------------------------------------------------------------------
  // Steps
  // ---------------------------------------------------------------------------

  lemma LifeOrdered(k: Kernel, idle: TaskId, s: LifeStep)
    requires Housed(k, idle) && Ordered(k) && LifeEnabled(k, idle, s)
    ensures Ordered(DoLife(k, idle, s))
  {
    hide UnlinkReset, Unlink, MakeReady, Park, LeaveEvent, JoinEnd, Consistent, At, OrderedLists;
    match s
    case TaskCreate(t, p) =>
      var tcb := Tcb(p, p, 0, 0, CodedPriority(p));
      TcbOrdered(k, t, tcb);
      MakeReadyOrdered(WithTcb(k, t, tcb), t);
    case TaskDelete(t) => RelocateOrdered(k, t, Terminating);
    case IdleReap => ReapOrdered(k);
    case TaskSuspend(t) => RelocateOrdered(k, t, Suspended);
    case TaskResume(t) => if IsSuspended(k, t) { ReadiedOrdered(k, t); }
    case IsrResume(t) => if IsSuspended(k, t) { ReadiedOrdered(k, t); }
  }

  lemma ReapOrdered(k: Kernel)
    requires Coherent(k) && Ordered(k) && At(k.states, Terminating).items != []
    ensures Ordered(Reap(k))
  {
    hide Unlink;
    var t := At(k.states, Terminating).items[0];
    ListHead(k, Terminating);
    UnlinkOrdered(k, t);
    SameOrder(Unlink(k, t), Reap(k));
  }

  lemma WaitOrdered(k: Kernel, idle: TaskId, s: WaitStep)
    requires Housed(k, idle) && Ordered(k) && WaitEnabled(k, idle, s)
    ensures Ordered(DoWait(k, idle, s))
  {
    hide Block, DelayUntil, JoinEnd, JoinSorted, Consistent, At, OrderedLists;
    match s
    case TaskDelay(n) => DelayUntilOrdered(k, Add(k.tick, n));
    case TaskDelayUntil(wake) => DelayUntilOrdered(k, wake);
    case QueueWait(e, n) => BlockOrdered(JoinSorted(k, Event(e), k.current), n, n == MAX_DELAY);
    case GroupWait(e, v, n) =>
      var tcb := k.tcbs[k.current].(eventValue := Borrowed(v));
      TcbOrdered(k, k.current, tcb);
      BlockOrdered(JoinEnd(WithTcb(k, k.current, tcb), Event(e), k.current), n, n == MAX_DELAY);
    case DaemonWait(e, n, forever) => BlockOrdered(JoinEnd(k, Event(e), k.current), n, forever);
  }

  lemma WakeOrdered(k: Kernel, idle: TaskId, s: WakeStep)
    requires Housed(k, idle) && Ordered(k) && WakeEnabled(k, s)
    ensures Ordered(DoWake(k, idle, s))
  {
    hide Unlink, MakeReady, JoinEnd, LeaveEvent, Consistent, At, OrderedLists;
    match s
    case QueueSignal(e) =>
      EventHead(k, idle, Event(e));
      var t := At(k.events, Event(e)).items[0];
      if k.suspended == 0 { ReadiedOrdered(LeaveEvent(k, t), t); }
    case GroupSignal(t, v) =>
      var tcb := k.tcbs[t].(eventValue := Borrowed(v));
      TcbOrdered(k, t, tcb);
      ReadiedOrdered(LeaveEvent(WithTcb(k, t, tcb), t), t);
    case ItemReset =>
      TcbOrdered(k, k.current, k.tcbs[k.current].(eventValue := CodedPriority(k.tcbs[k.current].priority)));
  }

  lemma ExpireOrdered(k: Kernel, t: TaskId)
    requires Coherent(k) && Ordered(k) && t in k.states.home
    ensures Ordered(Expire(k, t))
  {
    hide Unlink, MakeReady, LeaveEvent, Consistent, At, OrderedLists;
    UnlinkOrdered(k, t);
    MakeReadyOrdered(LeaveEvent(Unlink(k, t), t), t);
  }

  lemma {:induction false} WakeDueOrdered(k: Kernel)
    requires Coherent(k) && Ordered(k)
    ensures Ordered(WakeDue(k))
    decreases |At(k.states, DelayedList(k)).items|
  {
    hide Expire, Consistent, At, OrderedLists;
    var s := At(k.states, DelayedList(k)).items;
    if s != [] {
      ExpireShrinks(k);
      if k.tick >= k.tcbs[s[0]].wake {
        ExpireOrdered(k, s[0]);
        WakeDueOrdered(Expire(k, s[0]));
      }
    }
  }

  lemma IncrementTickOrdered(k: Kernel)
    requires Coherent(k) && Ordered(k)
    ensures Ordered(IncrementTick(k))
  {
    hide WakeDue, Consistent, At, OrderedLists;
    WakeDueOrdered(Advanced(k));
  }

  lemma {:induction false} ReplayOrdered(k: Kernel)
    requires Coherent(k) && Ordered(k) && k.suspended == 0
    ensures Ordered(Replay(k))
    decreases k.pended
  {
    hide IncrementTick, TickWantsSwitch, Coherent, OrderedLists;
    if k.pended > 0 {
      IncrementTickOrdered(k);
      ReplayKeepsRunning(k);
      ReplayOrdered(ReplayOne(k));
    }
  }

  lemma {:induction false} DrainOrdered(k: Kernel)
    requires Coherent(k) && PendingHoused(k) && Ordered(k)
    ensures Ordered(Drain(k))
    decreases |At(k.events, PendingReady).items|
  {
    hide Unlink, MakeReady, LeaveEvent, Consistent, At, OrderedLists;
    if At(k.events, PendingReady).items != [] {
      PendingHead(k);
      var t := At(k.events, PendingReady).items[0];
      ReadiedOrdered(LeaveEvent(k, t), t);
      DrainOrdered(DrainOne(k));
    }
  }

  lemma ClockOrdered(k: Kernel, idle: TaskId, s: ClockStep)
    requires Housed(k, idle) && Ordered(k) && ClockEnabled(k, s)
    ensures Ordered(DoClock(k, idle, s))
  {
    hide IncrementTick, Drain, Replay, Advance, ReportAll, Consistent, At, OrderedLists;
    match s
    case TickInterrupt => IncrementTickOrdered(k);
    case SchedulerResume =>
      if k.suspended == 1 {
        DrainOrdered(k.(suspended := 0));
        ReplayOrdered(Drain(k.(suspended := 0)));
      }
    case ContextSwitch => SwitchOrdered(k);
    case SystemReport => ReportOrdered(k);
    case _ =>
  }

  lemma ReportOrdered(k: Kernel)
    requires Coherent(k) && Ordered(k)
    ensures Ordered(ReportAll(k))
  {
    hide ReportAll, AllLists, Consistent, At, OrderedLists;
    ReportedAt(k, FirstDelayed);
    ReportedAt(k, SecondDelayed);
    SameOrder(k, ReportAll(k));
  }

  lemma SwitchOrdered(k: Kernel)
    requires Coherent(k) && Ordered(k) && ClockEnabled(k, ContextSwitch)
    ensures Ordered(SwitchContext(k))
  {
    hide Advance, Consistent, At, OrderedLists;
    if k.suspended == 0 {
      var l := Ready(ScanDown(k.states, k.top));
      AdvanceItems(k, l, FirstDelayed);
      AdvanceItems(k, l, SecondDelayed);
      SameOrder(k, SwitchContext(k));
    }
  }

  lemma RefileOrdered(k: Kernel, t: TaskId, tcb: Tcb)
    requires Coherent(k) && Ordered(k) && t in k.tcbs && tcb.priority < PRIORITIES && tcb.base < PRIORITIES
    requires tcb.wake == k.tcbs[t].wake
    ensures Ordered(Refile(k, t, tcb))
  {
    hide UnlinkReset, MakeReady, Consistent, At, OrderedLists;
    if t in k.states.home && k.states.home[t] == Ready(k.tcbs[t].priority) {
      UnlinkResetOrdered(k, t);
      TcbOrdered(UnlinkReset(k, t), t, tcb);
      MakeReadyOrdered(WithTcb(UnlinkReset(k, t), t, tcb), t);
    } else {
      TcbOrdered(k, t, tcb);
    }
  }

  lemma DisinheritOrdered(k: Kernel, t: TaskId)
    requires Coherent(k) && Ordered(k) && t in k.states.home && k.tcbs[t].held > 0
    ensures Ordered(Disinherit(k, t))
  {
    hide UnlinkReset, MakeReady, Consistent, At, OrderedLists;
    var tcb := k.tcbs[t].(held := k.tcbs[t].held - 1);
    var k1 := WithTcb(k, t, tcb);
    TcbOrdered(k, t, tcb);
    if tcb.priority != tcb.base && tcb.held == 0 {
      var last := tcb.(priority := tcb.base, eventValue := CodedPriority(tcb.base));
      UnlinkResetOrdered(k1, t);
      TcbOrdered(UnlinkReset(k1, t), t, last);
      MakeReadyOrdered(WithTcb(UnlinkReset(k1, t), t, last), t);
    }
  }

  lemma RankOrdered(k: Kernel, idle: TaskId, s: RankStep)
    requires Housed(k, idle) && Ordered(k) && RankEnabled(k, s)
    ensures Ordered(DoRank(k, idle, s))
  {
    hide Refile, Disinherit, Consistent, At, OrderedLists;
    match s
    case PriorityChange(t, requested) =>
      var p := Clamped(requested);
      var tcb := k.tcbs[t];
      RefileOrdered(k, t, tcb.(priority := if tcb.base == tcb.priority then p else tcb.priority, base := p,
                               eventValue := Recoded(tcb.eventValue, p)));
    case PriorityInherit(t) =>
      var p := k.tcbs[k.current].priority;
      RefileOrdered(k, t, k.tcbs[t].(priority := p, eventValue := Recoded(k.tcbs[t].eventValue, p)));
    case PriorityDisinherit => DisinheritOrdered(k, k.current);
    case MutexTaken => TcbOrdered(k, k.current, k.tcbs[k.current].(held := k.tcbs[k.current].held + 1));
  }

  lemma StepOrdered(k: Kernel, idle: TaskId, s: Step)
    requires Housed(k, idle) && Ordered(k) && Enabled(k, idle, s)
    ensures Ordered(Do(k, idle, s))
  {
    hide DoLife, DoWait, DoWake, DoClock, DoRank, Housed, Ordered;
    match s
    case Life(l) => LifeOrdered(k, idle, l);
    case Wait(w) => WaitOrdered(k, idle, w);
    case Wake(w) => WakeOrdered(k, idle, w);
    case Clock(c) => ClockOrdered(k, idle, c);
    case Rank(r) => RankOrdered(k, idle, r);
  }
}
