/**
 The kernel as a step machine: every API call, interrupt and context switch is one atomic step, enabled as
 the API demands.  The first invariant of every run says that the task lists partition the tasks.
 */
module KernelSteps {
  import opened Ticks
  import opened Rings
  import opened Families
  import opened Kernels

  datatype LifeStep =
    | TaskCreate(t: TaskId, priority: nat)
    | TaskDelete(t: TaskId)
    | IdleReap
    | TaskSuspend(t: TaskId)
    | TaskResume(t: TaskId)
    | IsrResume(t: TaskId)

  datatype WaitStep =
    | TaskDelay(n: Tick)
    | TaskDelayUntil(wake: Tick)
    | QueueWait(e: nat, n: Tick)
    | GroupWait(e: nat, value: nat, n: Tick)
    | DaemonWait(e: nat, n: Tick, forever: bool)

  datatype WakeStep =
    | QueueSignal(e: nat)
    | GroupSignal(t: TaskId, value: nat)
    | ItemReset

  datatype ClockStep =
    | TickInterrupt
    | UnblockReset
    | SchedulerSuspend
    | SchedulerResume
    | ContextSwitch
    | MissedYield
    | SystemReport

  datatype RankStep =
    | PriorityChange(t: TaskId, priority: nat)
    | PriorityInherit(t: TaskId)
    | PriorityDisinherit
    | MutexTaken

  datatype Step = Life(life: LifeStep) | Wait(wait: WaitStep) | Wake(wake: WakeStep) | Clock(clock: ClockStep) | Rank(rank: RankStep)

  predicate IsBlockedList(l: StateList) {
    l == FirstDelayed || l == SecondDelayed || l == Suspended
  }

  /**
   The task lists partition the tasks: each existing task's state item is in exactly one list, a ready one in
   the list of its own priority; a task whose event item is queued is blocked; and tasks are pending ready
   only while the scheduler is suspended.
   */
  ghost predicate Housed(k: Kernel, idle: TaskId) {
    Coherent(k) && HousedMaps(k.tcbs, k.states.home, k.events.home, k.suspended, idle)
  }

  ghost predicate HousedMaps(tcbs: map<TaskId, Tcb>, home: map<TaskId, StateList>, waiting: map<TaskId, EventList>,
                             suspended: nat, idle: TaskId) {
    && home.Keys == tcbs.Keys
    && (forall t :: t in home && home[t].Ready? ==> home[t].priority == tcbs[t].priority)
    && (forall t :: t in waiting ==> t in home && IsBlockedList(home[t]))
    && (forall t :: t in waiting && waiting[t] == PendingReady ==> suspended > 0)
    && idle in home && home[idle].Ready?
  }

  // ---------------------------------------------------------------------------
  // Life cycle
  // ---------------------------------------------------------------------------

  /** A live task other than the idle task; the running one only while the scheduler is not suspended. */
  predicate MayStop(k: Kernel, idle: TaskId, t: TaskId) {
    && t != idle && t in k.states.home && k.states.home[t] != Terminating
    && (t == k.current ==> k.suspended == 0)
  }

  ghost predicate LifeEnabled(k: Kernel, idle: TaskId, s: LifeStep) {
    match s
    case TaskCreate(t, p) => t !in k.tcbs && p < PRIORITIES
    case TaskDelete(t) => MayStop(k, idle, t)
    case IdleReap => At(k.states, Terminating).items != [] && At(k.states, Terminating).items[0] != k.current
    case TaskSuspend(t) => MayStop(k, idle, t)
    case TaskResume(t) => true
    case IsrResume(t) => true
  }

  function DoLife(k: Kernel, idle: TaskId, s: LifeStep): Kernel
    requires Housed(k, idle) && LifeEnabled(k, idle, s)
  {
    match s
    case TaskCreate(t, p) => Create(k, t, p)
    case TaskDelete(t) => Delete(k, t)
    case IdleReap => Reap(k)
    case TaskSuspend(t) => Suspend(k, t)
    case TaskResume(t) => Resume(k, t)
    case IsrResume(t) => ResumeFromISR(k, t)
  }

  lemma LifeHoused(k: Kernel, idle: TaskId, s: LifeStep)
    requires Housed(k, idle) && LifeEnabled(k, idle, s)
    ensures Housed(DoLife(k, idle, s), idle)
  {
    hide Create, Delete, Suspend, Reap, Resume, ResumeFromISR, Consistent, At;
  }

  // ---------------------------------------------------------------------------
  // Blocking
  // ---------------------------------------------------------------------------

  /** The running task may block: it is ready, waits for nothing, and is not the idle task. */
  predicate MayBlock(k: Kernel, idle: TaskId) {
    && k.suspended > 0 && k.current != idle
    && k.current in k.states.home && k.states.home[k.current].Ready?
    && k.current !in k.events.home
  }

  /** Every wait is for at least one tick; only the timer daemon may ask for none, before the last tick. */
  predicate WaitEnabled(k: Kernel, idle: TaskId, s: WaitStep) {
    MayBlock(k, idle) &&
    match s
    case TaskDelay(n) => n > 0
    case TaskDelayUntil(wake) => wake != k.tick
    case QueueWait(_, n) => n > 0
    case GroupWait(_, _, n) => n > 0
    case DaemonWait(_, n, forever) => forever || n > 0 || k.tick < MAX_DELAY
  }

  function DoWait(k: Kernel, idle: TaskId, s: WaitStep): Kernel
    requires Housed(k, idle) && WaitEnabled(k, idle, s)
  {
    match s
    case TaskDelay(n) => Delay(k, n)
    case TaskDelayUntil(wake) => DelayUntil(k, wake)
    case QueueWait(e, n) => PlaceOnEventList(k, e, n)
    case GroupWait(e, v, n) => PlaceOnUnorderedEventList(k, e, v, n)
    case DaemonWait(e, n, forever) => PlaceOnEventListRestricted(k, e, n, forever)
  }

  lemma WaitHoused(k: Kernel, idle: TaskId, s: WaitStep)
    requires Housed(k, idle) && WaitEnabled(k, idle, s)
    ensures Housed(DoWait(k, idle, s), idle)
  {
    hide DelayUntil, PlaceOnEventList, PlaceOnUnorderedEventList, PlaceOnEventListRestricted, Consistent, At;
  }

  // ---------------------------------------------------------------------------
  // Waking
  // ---------------------------------------------------------------------------

  ghost predicate WakeEnabled(k: Kernel, s: WakeStep) {
    match s
    case QueueSignal(e) => At(k.events, Event(e)).items != []
    case GroupSignal(t, _) => k.suspended > 0 && t in k.events.home && k.events.home[t].Event?
    case ItemReset => true
  }

  lemma EventHead(k: Kernel, idle: TaskId, e: EventList)
    requires Housed(k, idle) && At(k.events, e).items != []
    ensures At(k.events, e).items[0] in k.events.home && k.events.home[At(k.events, e).items[0]] == e
    ensures At(k.events, e).items[0] in k.states.home
  {
    assert At(k.events, e).items[0] in At(k.events, e).items;
  }

  function DoWake(k: Kernel, idle: TaskId, s: WakeStep): Kernel
    requires Housed(k, idle) && WakeEnabled(k, s)
  {
    match s
    case QueueSignal(e) => EventHead(k, idle, Event(e)); RemoveFromEventList(k, e)
    case GroupSignal(t, v) => RemoveFromUnorderedEventList(k, t, v)
    case ItemReset => ResetEventValue(k)
  }

  lemma WakeHoused(k: Kernel, idle: TaskId, s: WakeStep)
    requires Housed(k, idle) && WakeEnabled(k, s)
    ensures Housed(DoWake(k, idle, s), idle)
  {
    hide RemoveFromEventList, RemoveFromUnorderedEventList, Consistent, At;
    if s.QueueSignal? {
      EventHead(k, idle, Event(s.e));
    }
  }

  // ---------------------------------------------------------------------------
  // Time and selection
  // ---------------------------------------------------------------------------

  ghost predicate ClockEnabled(k: Kernel, s: ClockStep) {
    match s
    case SchedulerResume => k.suspended > 0
    case SystemReport => k.suspended > 0
    case ContextSwitch => ReadyAt(k, ScanDown(k.states, k.top)).items != []
    case _ => true
  }

  function DoClock(k: Kernel, idle: TaskId, s: ClockStep): Kernel
    requires Housed(k, idle) && ClockEnabled(k, s)
  {
    match s
    case TickInterrupt => IncrementTick(k)
    case UnblockReset => ResetNextUnblock(k)
    case SchedulerSuspend => SuspendAll(k)
    case SchedulerResume => ResumeAll(k)
    case ContextSwitch => SwitchContext(k)
    case MissedYield => RaiseYield(k, true)
    case SystemReport => ReportAll(k)
  }

  lemma {:induction false} WakeDueHoused(k: Kernel, idle: TaskId)
    requires Housed(k, idle)
    ensures Housed(WakeDue(k), idle)
    decreases |At(k.states, DelayedList(k)).items|
  {
    hide Expire, Consistent, At;
    var s := At(k.states, DelayedList(k)).items;
    if s != [] {
      ExpireShrinks(k);
      if k.tick >= k.tcbs[s[0]].wake {
        WakeDueHoused(Expire(k, s[0]), idle);
      }
    }
  }

  lemma IncrementTickHoused(k: Kernel, idle: TaskId)
    requires Housed(k, idle)
    ensures Housed(IncrementTick(k), idle)
  {
    hide WakeDue, Consistent, At;
    WakeDueHoused(Advanced(k), idle);
  }

  lemma {:induction false} ReplayHoused(k: Kernel, idle: TaskId)
    requires Housed(k, idle) && k.suspended == 0
    ensures Housed(Replay(k), idle)
    decreases k.pended
  {
    hide IncrementTick, TickWantsSwitch, Coherent;
    if k.pended > 0 {
      IncrementTickHoused(k, idle);
      ReplayKeepsRunning(k);
      ReplayHoused(ReplayOne(k), idle);
    }
  }

  /** Housed, but for tasks still pending although the scheduler has just resumed. */
  ghost predicate Draining(k: Kernel, idle: TaskId) {
    k.suspended == 0 && Coherent(k) && HousedMaps(k.tcbs, k.states.home, k.events.home, 1, idle)
  }

  lemma {:induction false} DrainHoused(k: Kernel, idle: TaskId)
    requires Draining(k, idle)
    ensures Housed(Drain(k), idle)
    decreases |At(k.events, PendingReady).items|
  {
    hide Unlink, MakeReady, LeaveEvent, Consistent, At;
    if At(k.events, PendingReady).items == [] {
      NothingPending(k);
    } else {
      PendingHead(k);
      DrainHoused(DrainOne(k), idle);
    }
  }

  lemma NothingPending(k: Kernel)
    requires Coherent(k)
    requires At(k.events, PendingReady).items == []
    ensures forall t :: t in k.events.home ==> k.events.home[t] != PendingReady
  {
    forall t | t in k.events.home
      ensures k.events.home[t] != PendingReady
    {
      assert t in At(k.events, k.events.home[t]).items;
    }
  }

  lemma ResumeAllHoused(k: Kernel, idle: TaskId)
    requires Housed(k, idle) && k.suspended > 0
    ensures Housed(ResumeAll(k), idle)
  {
    hide Drain, Replay, Consistent, At;
    if k.suspended == 1 {
      var k1 := k.(suspended := 0);
      DrainHoused(k1, idle);
      ReplayHoused(Drain(k1), idle);
    }
  }

  lemma SwitchHoused(k: Kernel, idle: TaskId)
    requires Housed(k, idle) && ClockEnabled(k, ContextSwitch)
    ensures Housed(SwitchContext(k), idle)
  {
    hide Advance, Consistent;
    var l := Ready(ScanDown(k.states, k.top));
    SelectedIn(k, l);
  }

  lemma SelectedIn(k: Kernel, l: StateList)
    requires Coherent(k) && At(k.states, l).items != []
    ensures 0 < At(Advance(k.states, l), l).at <= |At(Advance(k.states, l), l).items|
    ensures Selected(At(Advance(k.states, l), l)) in k.states.home
    ensures k.states.home[Selected(At(Advance(k.states, l), l))] == l
  {
    assert Selected(At(Advance(k.states, l), l)) in At(k.states, l).items;
  }

  lemma ClockHoused(k: Kernel, idle: TaskId, s: ClockStep)
    requires Housed(k, idle) && ClockEnabled(k, s)
    ensures Housed(DoClock(k, idle, s), idle)
  {
    hide IncrementTick, ResumeAll, SwitchContext, ReportAll, Consistent, At;
    match s
    case TickInterrupt => IncrementTickHoused(k, idle);
    case SchedulerResume => ResumeAllHoused(k, idle);
    case ContextSwitch => SwitchHoused(k, idle);
    case _ =>
  }

  // ---------------------------------------------------------------------------
  // Priorities
  // ---------------------------------------------------------------------------

  predicate RankEnabled(k: Kernel, s: RankStep) {
    match s
    case PriorityChange(t, _) => t in k.tcbs
    case PriorityInherit(t) => t in k.tcbs
    case PriorityDisinherit =>
      && k.current in k.states.home && k.states.home[k.current].Ready?
      && k.current in k.tcbs && k.tcbs[k.current].held > 0
    case MutexTaken => true
  }

  function DoRank(k: Kernel, idle: TaskId, s: RankStep): Kernel
    requires Housed(k, idle) && RankEnabled(k, s)
  {
    match s
    case PriorityChange(t, p) => PrioritySet(k, t, p)
    case PriorityInherit(t) => Inherit(k, t)
    case PriorityDisinherit => Disinherit(k, k.current)
    case MutexTaken => HoldMutex(k)
  }

  lemma RankHoused(k: Kernel, idle: TaskId, s: RankStep)
    requires Housed(k, idle) && RankEnabled(k, s)
    ensures Housed(DoRank(k, idle, s), idle)
  {
    hide Refile, Disinherit, Consistent, At;
  }

  // ---------------------------------------------------------------------------
  // Every step
  // ---------------------------------------------------------------------------

  ghost predicate Enabled(k: Kernel, idle: TaskId, s: Step) {
    match s
    case Life(l) => LifeEnabled(k, idle, l)
    case Wait(w) => WaitEnabled(k, idle, w)
    case Wake(w) => WakeEnabled(k, w)
    case Clock(c) => ClockEnabled(k, c)
    case Rank(r) => RankEnabled(k, r)
  }

  function Do(k: Kernel, idle: TaskId, s: Step): Kernel
    requires Housed(k, idle) && Enabled(k, idle, s)
  {
    match s
    case Life(l) => DoLife(k, idle, l)
    case Wait(w) => DoWait(k, idle, w)
    case Wake(w) => DoWake(k, idle, w)
    case Clock(c) => DoClock(k, idle, c)
    case Rank(r) => DoRank(k, idle, r)
  }

  lemma StepHoused(k: Kernel, idle: TaskId, s: Step)
    requires Housed(k, idle) && Enabled(k, idle, s)
    ensures Housed(Do(k, idle, s), idle)
  {
    hide DoLife, DoWait, DoWake, DoClock, DoRank, Housed;
    match s
    case Life(l) => LifeHoused(k, idle, l);
    case Wait(w) => WaitHoused(k, idle, w);
    case Wake(w) => WakeHoused(k, idle, w);
    case Clock(c) => ClockHoused(k, idle, c);
    case Rank(r) => RankHoused(k, idle, r);
  }
}
