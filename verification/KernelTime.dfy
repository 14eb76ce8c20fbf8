/**
 The wrapping tick and the two delayed lists refine a clock over unbounded time.  The history is a ghost
 companion of the kernel: absolute time, tick interrupts received, and the absolute time at which each
 delayed task is due.
 */
module KernelTime {
  import opened Ticks
  import opened Rings
  import opened Families
  import opened Kernels
  import opened KernelSteps
  import opened KernelSelection
  import opened KernelOrder

  datatype History = History(now: nat, received: nat, deadline: map<TaskId, nat>)

  // ---------------------------------------------------------------------------
  // What the wake-up loop does
  // ---------------------------------------------------------------------------

  /** The head of the current delayed list has the least wake time in it. */
  lemma HeadIsLeast(k: Kernel, t: TaskId)
    requires Coherent(k) && Ordered(k)
    requires t in k.states.home && k.states.home[t] == DelayedList(k)
    ensures At(k.states, DelayedList(k)).items != [] && At(k.states, DelayedList(k)).items[0] in k.tcbs
    ensures k.tcbs[At(k.states, DelayedList(k)).items[0]].wake <= k.tcbs[t].wake
  {
    var s := At(k.states, DelayedList(k)).items;
    assert t in s;
    ListHead(k, DelayedList(k));
    var i := IndexOf(s, t);
    assert Wakes(k.tcbs, s)[0] <= Wakes(k.tcbs, s)[i];
  }

  predicate Woken(k: Kernel, t: TaskId) {
    t in k.states.home && t in k.tcbs && k.states.home[t] == DelayedList(k) && k.tcbs[t].wake <= k.tick
  }

  /** The loop moves exactly the due tasks to the ready lists of their priorities, and out of event lists. */
  lemma {:induction false} WakeDueExact(k: Kernel)
    requires Coherent(k) && Ordered(k)
    ensures WakeDue(k).states.home.Keys == k.states.home.Keys && WakeDue(k).tcbs == k.tcbs
    ensures forall t :: t in k.states.home ==>
              WakeDue(k).states.home[t] == if Woken(k, t) then Ready(k.tcbs[t].priority) else k.states.home[t]
    ensures forall t :: t in WakeDue(k).events.home <==> t in k.events.home && !Woken(k, t)
    ensures forall t :: t in WakeDue(k).events.home ==> WakeDue(k).events.home[t] == k.events.home[t]
    ensures forall t :: t in k.states.home && k.states.home[t] == DelayedList(k) && !Woken(k, t)
                        ==> WakeDue(k).nextUnblock <= k.tcbs[t].wake
    decreases |At(k.states, DelayedList(k)).items|
  {
    hide Expire, Consistent, At, OrderedLists;
    var s := At(k.states, DelayedList(k)).items;
    forall t | t in k.states.home && k.states.home[t] == DelayedList(k)
      ensures s != [] && s[0] in k.tcbs && k.tcbs[s[0]].wake <= k.tcbs[t].wake
    {
      HeadIsLeast(k, t);
    }
    if s != [] {
      ExpireShrinks(k);
      ListHead(k, DelayedList(k));
      if k.tick >= k.tcbs[s[0]].wake {
        ExpireOrdered(k, s[0]);
        WakeDueExact(Expire(k, s[0]));
      }
    }
  }

  /** The wake time of the head of the current delayed list, or the longest when it is empty. */
  predicate NextIsHead(k: Kernel) {
    var s := At(k.states, DelayedList(k)).items;
    k.nextUnblock == if s != [] && s[0] in k.tcbs then k.tcbs[s[0]].wake else MAX_DELAY
  }

  /** The loop, and every reset, leave xNextTaskUnblockTime at exactly the wake time of the next task to wake. */
  lemma {:induction false} WakeDueNext(k: Kernel)
    requires Coherent(k)
    ensures NextIsHead(WakeDue(k)) && NextIsHead(ResetNextUnblock(k))
    decreases |At(k.states, DelayedList(k)).items|
  {
    hide Expire, Consistent, At;
    var s := At(k.states, DelayedList(k)).items;
    if s != [] {
      ExpireShrinks(k);
      if k.tick >= k.tcbs[s[0]].wake {
        WakeDueNext(Expire(k, s[0]));
      }
    }
  }

  // ---------------------------------------------------------------------------
  // The invariant
  // ---------------------------------------------------------------------------

  /** A delayed task's deadline, from its wake time and the list it is in. */
  function DueTime(now: nat, tick: Tick, overflow: bool, wake: Tick): nat {
    if overflow then EpochStart(now) + TICKS + wake
    else EpochStart(now) + if wake == tick then wake + 1 else wake
  }

  ghost predicate DeadlinesKept(home: map<TaskId, StateList>, tcbs: map<TaskId, Tcb>, cur: StateList, over: StateList,
                                tick: Tick, next: Tick, now: nat, deadline: map<TaskId, nat>) {
    && Of(now) == tick
    && (forall t :: t in home && home[t] == over ==>
          t in tcbs && t in deadline && deadline[t] == DueTime(now, tick, true, tcbs[t].wake))
    && (forall t :: t in home && home[t] == cur ==>
          t in tcbs && t in deadline && deadline[t] == DueTime(now, tick, false, tcbs[t].wake)
          && tick <= tcbs[t].wake && next <= tcbs[t].wake && (tcbs[t].wake == tick ==> tick < MAX_DELAY))
  }

  /**
   The tick is the wrapped absolute time, the overflow count its epoch; no received tick is lost; every
   delayed task sits in the list of the epoch of its deadline; and xNextTaskUnblockTime is a lower bound.
   */
  ghost predicate Timed(k: Kernel, h: History) {
    && DeadlinesKept(k.states.home, k.tcbs, DelayedList(k), OverflowList(k), k.tick, k.nextUnblock, h.now, h.deadline)
    && EpochStart(h.now) == WrapTime(k.overflows)
    && h.now + k.pended == h.received
  }

  ghost predicate Invariant(k: Kernel, h: History, idle: TaskId) {
    Housed(k, idle) && Ordered(k) && Timed(k, h) && (k.suspended == 0 ==> k.pended == 0)
  }

  lemma DeadlineAhead(k: Kernel, h: History, t: TaskId)
    requires Timed(k, h) && t in k.states.home && IsDelayedList(k.states.home[t])
    ensures t in h.deadline && h.now < h.deadline[t]
  {
  }

  // ---------------------------------------------------------------------------
  // A processed tick
  // ---------------------------------------------------------------------------

  /** taskSWITCH_DELAYED_LISTS never meets a task in the list it retires. */
  lemma EmptyAtSwitch(k: Kernel, h: History)
    requires Coherent(k) && Timed(k, h) && k.tick == MAX_DELAY
    ensures At(k.states, DelayedList(k)).items == []
  {
    if At(k.states, DelayedList(k)).items != [] {
      ListHead(k, DelayedList(k));
    }
  }

  /** Between the increment and the wake-up loop: a task in the current list is due no earlier than now. */
  ghost predicate Ticking(k: Kernel, now: nat, deadline: map<TaskId, nat>) {
    && Of(now) == k.tick && EpochStart(now) == WrapTime(k.overflows)
    && (forall t :: t in k.states.home && k.states.home[t] == OverflowList(k) ==>
          t in k.tcbs && t in deadline && deadline[t] == EpochStart(now) + TICKS + k.tcbs[t].wake)
    && (forall t :: t in k.states.home && k.states.home[t] == DelayedList(k) ==>
          && t in k.tcbs && t in deadline && k.nextUnblock <= k.tcbs[t].wake
          && deadline[t] == EpochStart(now) + if k.tcbs[t].wake < k.tick then k.tick else k.tcbs[t].wake)
  }

  lemma ResetBound(k: Kernel, t: TaskId)
    requires Coherent(k) && Ordered(k) && t in k.states.home && k.states.home[t] == DelayedList(k) && t in k.tcbs
    ensures ResetNextUnblock(k).nextUnblock <= k.tcbs[t].wake
  {
    HeadIsLeast(k, t);
  }

  lemma ResetOnly(k: Kernel)
    requires Coherent(k)
    ensures ResetNextUnblock(k) == k.(nextUnblock := ResetNextUnblock(k).nextUnblock)
  {
  }

  lemma AdvancedTicking(k: Kernel, h: History)
    requires Coherent(k) && Ordered(k) && Timed(k, h)
    ensures Ticking(Advanced(k), h.now + 1, h.deadline)
  {
    hide Consistent, At, OrderedLists, WrapTime;
    AddDuration(h.now, 1);
    if k.tick == MAX_DELAY {
      SwitchedTicking(k, h);
    }
  }

  lemma SwitchedTicking(k: Kernel, h: History)
    requires Coherent(k) && Ordered(k) && Timed(k, h) && k.tick == MAX_DELAY
    requires Of(h.now + 1) == 0 && EpochStart(h.now + 1) == EpochStart(h.now) + TICKS
    ensures Ticking(Advanced(k), h.now + 1, h.deadline)
  {
    hide Consistent, At, OrderedLists, WrapTime, Of, EpochStart;
    WrapTimeNext(k.overflows);
    var k1 := k.(tick := 0, firstIsCurrent := !k.firstIsCurrent, overflows := k.overflows + 1);
    EmptyAtSwitch(k, h);
    hide ResetNextUnblock;
    assert Coherent(k1) && Ordered(k1);
    hide Coherent;
    forall t | t in k.states.home
      ensures k.states.home[t] != DelayedList(k)
      ensures k.states.home[t] == DelayedList(k1) && t in k.tcbs ==> ResetNextUnblock(k1).nextUnblock <= k.tcbs[t].wake
    {
      NobodyIn(k, DelayedList(k), t);
      if k.states.home[t] == DelayedList(k1) && t in k.tcbs {
        ResetBound(k1, t);
      }
    }
    ResetOnly(k1);
  }

  lemma NobodyIn(k: Kernel, l: StateList, t: TaskId)
    requires Coherent(k) && At(k.states, l).items == [] && t in k.states.home
    ensures k.states.home[t] != l
  {
    assert t in At(k.states, k.states.home[t]).items;
  }

  /** What a processed tick does to the tasks: exactly those whose deadline has come become ready. */
  ghost predicate TickedExactly(k: Kernel, k': Kernel, now: nat, deadline: map<TaskId, nat>) {
    && k'.states.home.Keys == k.states.home.Keys && k'.tcbs == k.tcbs
    && (forall t :: t in k.states.home ==>
          if IsDelayedList(k.states.home[t]) && t in deadline && deadline[t] <= now
          then t in k.tcbs && k'.states.home[t] == Ready(k.tcbs[t].priority)
          else k'.states.home[t] == k.states.home[t])
    && (forall t :: t in k'.events.home <==>
          t in k.events.home && !(t in k.states.home && IsDelayedList(k.states.home[t]) && t in deadline && deadline[t] <= now))
    && (forall t :: t in k'.events.home ==> k'.events.home[t] == k.events.home[t])
  }

  function AfterWake(k: Kernel): (k': Kernel)
    requires Coherent(k)
    ensures Coherent(k') && k' == k.(states := k'.states, events := k'.events, top := k'.top, bits := k'.bits,
                                     nextUnblock := k'.nextUnblock)
  {
    if k.nextUnblock <= k.tick then WakeDue(k) else k
  }

  lemma AfterWakeExact(k: Kernel, now: nat, deadline: map<TaskId, nat>)
    requires Coherent(k) && Ordered(k) && Ticking(k, now, deadline)
    ensures TickedExactly(k, AfterWake(k), now, deadline)
  {
    hide WakeDue, Consistent, At, OrderedLists;
    if k.nextUnblock <= k.tick {
      WakeDueExact(k);
    }
  }

  lemma AfterWakeKept(k: Kernel, now: nat, deadline: map<TaskId, nat>)
    requires Coherent(k) && Ordered(k) && Ticking(k, now, deadline)
    ensures var k' := AfterWake(k);
            DeadlinesKept(k'.states.home, k'.tcbs, DelayedList(k'), OverflowList(k'), k'.tick, k'.nextUnblock, now, deadline)
  {
    hide WakeDue, Consistent, At, OrderedLists;
    if k.nextUnblock <= k.tick {
      WakeDueExact(k);
    }
  }

  /** A tick processed now: time moves on by one and exactly the tasks due at the new time become ready. */
  lemma TickExact(k: Kernel, h: History)
    requires Coherent(k) && Ordered(k) && Timed(k, h) && k.suspended == 0
    ensures Timed(IncrementTick(k), h.(now := h.now + 1, received := h.received + 1))
    ensures TickedExactly(k, IncrementTick(k), h.now + 1, h.deadline)
  {
    hide WakeDue, Consistent, At, OrderedLists, Ticking, TickedExactly, DeadlinesKept;
    var k1 := Advanced(k);
    AdvancedTicking(k, h);
    AfterWakeExact(k1, h.now + 1, h.deadline);
    AfterWakeKept(k1, h.now + 1, h.deadline);
    TickingEpoch(k1, h.now + 1, h.deadline);
    TickedFrom(k, k1, IncrementTick(k), h.now + 1, h.deadline);
  }

  lemma TickingEpoch(k: Kernel, now: nat, deadline: map<TaskId, nat>)
    requires Ticking(k, now, deadline)
    ensures EpochStart(now) == WrapTime(k.overflows)
  {
  }

  lemma TickedFrom(k: Kernel, k1: Kernel, k': Kernel, now: nat, deadline: map<TaskId, nat>)
    requires TickedExactly(k1, k', now, deadline)
    requires k1.states == k.states && k1.events == k.events && k1.tcbs == k.tcbs
    ensures TickedExactly(k, k', now, deadline)
  {
  }

  lemma TickedChain(k: Kernel, k1: Kernel, k2: Kernel, now1: nat, now2: nat, deadline: map<TaskId, nat>)
    requires now1 <= now2 && TickedExactly(k, k1, now1, deadline) && TickedExactly(k1, k2, now2, deadline)
    ensures TickedExactly(k, k2, now2, deadline)
  {
  }

  /** Replaying the held-back ticks: the same as processing each of them at its own time. */
  lemma {:induction false} ReplayExact(k: Kernel, h: History)
    requires Coherent(k) && Ordered(k) && Timed(k, h) && k.suspended == 0
    ensures Timed(Replay(k), h.(now := h.now + k.pended))
    ensures TickedExactly(k, Replay(k), h.now + k.pended, h.deadline)
    decreases k.pended
  {
    hide IncrementTick, TickWantsSwitch, Coherent, OrderedLists, TickedExactly, DeadlinesKept;
    if k.pended == 0 {
      NothingTicked(k, h);
    } else {
      var k1, h1 := ReplayOne(k), h.(now := h.now + 1);
      TickExact(k, h);
      IncrementTickOrdered(k);
      ReplayKeepsRunning(k);
      TickedTo(k, IncrementTick(k), k1, h1.now, h.deadline);
      ReplayExact(k1, h1);
      TickedChain(k, k1, Replay(k1), h1.now, h1.now + k1.pended, h.deadline);
    }
  }

  lemma ReplayOneTimed(k: Kernel, h: History)
    requires Coherent(k) && Ordered(k) && Timed(k, h) && k.suspended == 0 && k.pended > 0
    ensures Ordered(ReplayOne(k)) && Timed(ReplayOne(k), h.(now := h.now + 1))
    ensures ReplayOne(k).suspended == 0 && ReplayOne(k).pended == k.pended - 1
  {
    hide IncrementTick, TickWantsSwitch, Coherent, OrderedLists, DeadlinesKept;
    TickExact(k, h);
    IncrementTickOrdered(k);
    ReplayKeepsRunning(k);
  }

  lemma TickedTo(k: Kernel, k1: Kernel, k': Kernel, now: nat, deadline: map<TaskId, nat>)
    requires TickedExactly(k, k1, now, deadline)
    requires k1.states == k'.states && k1.events == k'.events && k1.tcbs == k'.tcbs
    ensures TickedExactly(k, k', now, deadline)
  {
  }

  lemma NothingTicked(k: Kernel, h: History)
    requires Timed(k, h)
    ensures TickedExactly(k, k, h.now, h.deadline)
  {
  }

  // ---------------------------------------------------------------------------
  // Steps that do not move time
  // ---------------------------------------------------------------------------

  /** Time is undisturbed while no task joins a delayed list and no delayed task's wake time changes. */
  lemma StaysTimed(k: Kernel, k': Kernel, h: History)
    requires Timed(k, h)
    requires k'.tick == k.tick && k'.nextUnblock == k.nextUnblock && k'.overflows == k.overflows
    requires k'.firstIsCurrent == k.firstIsCurrent && k'.pended == k.pended
    requires forall t :: t in k'.states.home && IsDelayedList(k'.states.home[t]) ==>
               && t in k.states.home && k.states.home[t] == k'.states.home[t]
               && t in k'.tcbs && t in k.tcbs && k'.tcbs[t].wake == k.tcbs[t].wake
    ensures Timed(k', h)
  {
  }

  lemma LifeTimed(k: Kernel, h: History, idle: TaskId, s: LifeStep)
    requires Housed(k, idle) && Timed(k, h) && LifeEnabled(k, idle, s)
    ensures Timed(DoLife(k, idle, s), h)
  {
    hide Create, Delete, Suspend, Reap, Resume, ResumeFromISR, Consistent, At, Timed;
    StaysTimed(k, DoLife(k, idle, s), h);
  }

  lemma WakeTimed(k: Kernel, h: History, idle: TaskId, s: WakeStep)
    requires Housed(k, idle) && Timed(k, h) && WakeEnabled(k, s)
    ensures Timed(DoWake(k, idle, s), h)
  {
    hide RemoveFromEventList, RemoveFromUnorderedEventList, Consistent, At, Timed;
    if s.QueueSignal? {
      EventHead(k, idle, Event(s.e));
    }
    StaysTimed(k, DoWake(k, idle, s), h);
  }

  lemma RankTimed(k: Kernel, h: History, idle: TaskId, s: RankStep)
    requires Housed(k, idle) && Timed(k, h) && RankEnabled(k, s)
    ensures Timed(DoRank(k, idle, s), h)
  {
    hide Refile, Disinherit, Consistent, At, Timed;
    StaysTimed(k, DoRank(k, idle, s), h);
  }

  // ---------------------------------------------------------------------------
  // Blocking
  // ---------------------------------------------------------------------------

  /** The number of processed ticks a wait lasts; a wait for none still lasts until the next tick. */
  function WaitTicks(k: Kernel, s: WaitStep): nat {
    match s
    case TaskDelay(n) => n
    case TaskDelayUntil(wake) => Sub(wake, k.tick)
    case QueueWait(_, n) => n
    case GroupWait(_, _, n) => n
    case DaemonWait(_, n, _) => if n == 0 then 1 else n
  }

  /** Filing the running task under the machine sum of the tick and the duration. */
  lemma DelayTimed(k: Kernel, k': Kernel, h: History, wake: Tick, n: nat)
    requires Timed(k, h) && k.current in k.tcbs && 1 <= n < TICKS
    requires wake == Add(k.tick, n) || (n == 1 && wake == k.tick && k.tick < MAX_DELAY)
    requires k' == k.(states := k'.states, events := k'.events, bits := k'.bits, nextUnblock := k'.nextUnblock, tcbs := k'.tcbs)
    requires k'.states.home == k.states.home[k.current := if wake < k.tick then OverflowList(k) else DelayedList(k)]
    requires k'.tcbs.Keys == k.tcbs.Keys && forall t :: t in k.tcbs ==> k'.tcbs[t].wake == if t == k.current then wake else k.tcbs[t].wake
    requires k'.nextUnblock == if k.tick <= wake < k.nextUnblock then wake else k.nextUnblock
    ensures Timed(k', h.(deadline := h.deadline[k.current := h.now + n]))
  {
  }

  predicate WaitsForever(s: WaitStep) {
    match s
    case QueueWait(_, n) => n == MAX_DELAY
    case GroupWait(_, _, n) => n == MAX_DELAY
    case DaemonWait(_, _, forever) => forever
    case _ => false
  }

  lemma AddOrder(a: Tick, b: Tick)
    ensures b == Add(a, Sub(b, a)) && (b != a ==> 1 <= Sub(b, a))
    ensures 1 <= b ==> Sub(Add(a, b), a) == b
  {
  }

  lemma BlockTimed(k: Kernel, k': Kernel, h: History, n: Tick, forever: bool)
    requires Coherent(k) && Timed(k, h) && (n > 0 || forever || k.tick < MAX_DELAY)
    requires k' == k.(states := k'.states, events := k'.events, bits := k'.bits, nextUnblock := BlockNext(k, n, forever), tcbs := k'.tcbs)
    requires k'.states.home == k.states.home[k.current := BlockList(k, n, forever)]
    requires k'.tcbs.Keys == k.tcbs.Keys
    requires forall t :: t in k.tcbs ==> k'.tcbs[t].wake == if t == k.current then BlockWake(k, n, forever) else k.tcbs[t].wake
    ensures forever ==> Timed(k', h)
    ensures !forever ==> Timed(k', h.(deadline := h.deadline[k.current := h.now + if n == 0 then 1 else n]))
  {
    hide Timed, Consistent, At;
    if forever {
      StaysTimed(k, k', h);
    } else {
      DelayTimed(k, k', h, Add(k.tick, n), if n == 0 then 1 else n);
    }
  }

  function WaitHistory(k: Kernel, h: History, s: WaitStep): History {
    if WaitsForever(s) then h else h.(deadline := h.deadline[k.current := h.now + WaitTicks(k, s)])
  }

  lemma WaitTimed(k: Kernel, h: History, idle: TaskId, s: WaitStep)
    requires Housed(k, idle) && Timed(k, h) && WaitEnabled(k, idle, s)
    ensures Timed(DoWait(k, idle, s), WaitHistory(k, h, s))
  {
    hide DelayUntil, PlaceOnEventList, PlaceOnUnorderedEventList, PlaceOnEventListRestricted, Consistent, At, Timed, BlockNext, BlockList;
    var k' := DoWait(k, idle, s);
    match s
    case TaskDelay(n) => DelayTimed(k, k', h, Add(k.tick, n), n);
    case TaskDelayUntil(wake) => AddOrder(k.tick, wake); DelayTimed(k, k', h, wake, Sub(wake, k.tick));
    case QueueWait(e, n) => BlockTimed(k, k', h, n, n == MAX_DELAY);
    case GroupWait(e, v, n) => BlockTimed(k, k', h, n, n == MAX_DELAY);
    case DaemonWait(e, n, forever) => BlockTimed(k, k', h, n, forever);
  }

  // ---------------------------------------------------------------------------
  // Resuming and switching
  // ---------------------------------------------------------------------------

  predicate Pending(k: Kernel, t: TaskId) {
    t in k.events.home && k.events.home[t] == PendingReady
  }

  /** Draining makes exactly the pending tasks ready. */
  lemma {:induction false} DrainExact(k: Kernel)
    requires Coherent(k) && PendingHoused(k)
    ensures Drain(k).states.home.Keys == k.states.home.Keys
    ensures forall t :: t in k.states.home ==>
              if Pending(k, t) then t in k.tcbs && Drain(k).states.home[t] == Ready(k.tcbs[t].priority)
              else Drain(k).states.home[t] == k.states.home[t]
    decreases |At(k.events, PendingReady).items|
  {
    hide Unlink, MakeReady, LeaveEvent, Consistent, At;
    if At(k.events, PendingReady).items == [] {
      NothingPending(k);
    } else {
      PendingHead(k);
      DrainExact(DrainOne(k));
    }
  }

  lemma DrainTimed(k: Kernel, h: History)
    requires Coherent(k) && PendingHoused(k) && Timed(k, h)
    ensures Timed(Drain(k), h)
  {
    hide Drain, Consistent, At, Timed;
    DrainExact(k);
    StaysTimed(k, Drain(k), h);
  }

  function ClockHistory(k: Kernel, h: History, s: ClockStep): History {
    match s
    case TickInterrupt =>
      h.(received := h.received + 1, now := if k.suspended == 0 then h.now + 1 else h.now)
    case SchedulerResume => if k.suspended == 1 then h.(now := h.now + k.pended) else h
    case _ => h
  }

  lemma ResumeTimed(k: Kernel, h: History, idle: TaskId)
    requires Housed(k, idle) && Ordered(k) && Timed(k, h) && k.suspended > 0
    ensures Timed(ResumeAll(k), ClockHistory(k, h, SchedulerResume))
    ensures ResumeAll(k).suspended == 0 ==> ResumeAll(k).pended == 0
  {
    hide Drain, Replay, Consistent, At, OrderedLists, DeadlinesKept;
    if k.suspended == 1 {
      var k1 := k.(suspended := 0);
      DrainTimed(k1, h);
      DrainOrdered(k1);
      ReplayExact(Drain(k1), h);
    }
  }

  lemma ClockTimed(k: Kernel, h: History, idle: TaskId, s: ClockStep)
    requires Invariant(k, h, idle) && ClockEnabled(k, s)
    ensures Timed(DoClock(k, idle, s), ClockHistory(k, h, s))
    ensures DoClock(k, idle, s).suspended == 0 ==> DoClock(k, idle, s).pended == 0
  {
    hide IncrementTick, ResumeAll, Advance, ReportAll, ScanDown, ResetNextUnblock, Consistent, At, OrderedLists, DeadlinesKept;
    match s
    case TickInterrupt => TickTimed(k, h);
    case UnblockReset => ResetTimed(k, h);
    case SchedulerResume => ResumeTimed(k, h, idle);
    case _ =>
  }

  lemma TickTimed(k: Kernel, h: History)
    requires Coherent(k) && Ordered(k) && Timed(k, h)
    ensures Timed(IncrementTick(k), ClockHistory(k, h, TickInterrupt))
    ensures k.suspended == 0 ==> IncrementTick(k).pended == k.pended
    ensures IncrementTick(k).suspended == k.suspended
  {
    hide Consistent, At, OrderedLists, DeadlinesKept;
    if k.suspended == 0 {
      TickExact(k, h);
    }
  }

  lemma ResetTimed(k: Kernel, h: History)
    requires Coherent(k) && Ordered(k) && Timed(k, h)
    ensures Timed(ResetNextUnblock(k), h)
    ensures ResetNextUnblock(k).suspended == k.suspended && ResetNextUnblock(k).pended == k.pended
  {
    hide Consistent, At, OrderedLists;
    forall t | t in k.states.home && k.states.home[t] == DelayedList(k)
      ensures ResetNextUnblock(k).nextUnblock <= k.tcbs[t].wake
    {
      ResetBound(k, t);
    }
  }

  // ---------------------------------------------------------------------------
  // Replaying held-back ticks
  // ---------------------------------------------------------------------------

  /** n ticks processed one after the other, as their interrupts would. */
  function Ticked(k: Kernel, n: nat): (k': Kernel)
    requires Coherent(k)
    ensures Coherent(k')
    decreases n
  {
    if n == 0 then k else Ticked(IncrementTick(k), n - 1)
  }

  function Flagged(k: Kernel, pended: nat, yieldPending: bool): Kernel {
    k.(pended := pended, yieldPending := yieldPending)
  }

  lemma {:induction false} WakeDueIgnoresFlags(k: Kernel, p: nat, y: bool)
    requires Coherent(k)
    ensures WakeDue(Flagged(k, p, y)) == Flagged(WakeDue(k), p, y)
    decreases |At(k.states, DelayedList(k)).items|
  {
    hide Unlink, LeaveEvent, MakeReady, Consistent, At;
    var s := At(k.states, DelayedList(k)).items;
    if s != [] {
      ExpireShrinks(k);
      ListHead(k, DelayedList(k));
      ExpireIgnoresFlags(k, s[0], p, y);
      if k.tick >= k.tcbs[s[0]].wake {
        WakeDueIgnoresFlags(Expire(k, s[0]), p, y);
      }
    }
  }

  lemma ExpireIgnoresFlags(k: Kernel, t: TaskId, p: nat, y: bool)
    requires Coherent(k) && t in k.states.home
    ensures Expire(Flagged(k, p, y), t) == Flagged(Expire(k, t), p, y)
  {
    hide Consistent, At, Take, Append;
  }

  lemma AdvancedIgnoresFlags(k: Kernel, p: nat, y: bool)
    requires Coherent(k)
    ensures Advanced(Flagged(k, p, y)) == Flagged(Advanced(k), p, y)
  {
    hide Consistent, At, ResetNextUnblock;
    ResetIgnoresFlags(k.(tick := 0, firstIsCurrent := !k.firstIsCurrent, overflows := k.overflows + 1), p, y);
  }

  lemma ResetIgnoresFlags(k: Kernel, p: nat, y: bool)
    requires Coherent(k)
    ensures ResetNextUnblock(Flagged(k, p, y)) == Flagged(ResetNextUnblock(k), p, y)
  {
    hide Consistent, At;
  }

  lemma TickIgnoresFlags(k: Kernel, p: nat, y: bool)
    requires Coherent(k) && k.suspended == 0
    ensures IncrementTick(Flagged(k, p, y)) == Flagged(IncrementTick(k), p, y)
  {
    hide WakeDue, Advanced, Coherent;
    AdvancedIgnoresFlags(k, p, y);
    WakeDueIgnoresFlags(Advanced(k), p, y);
  }

  lemma {:induction false} TickedIgnoresFlags(k: Kernel, n: nat, p: nat, y: bool)
    requires Coherent(k) && k.suspended == 0
    ensures Ticked(Flagged(k, p, y), n) == Flagged(Ticked(k, n), p, y)
    decreases n
  {
    hide IncrementTick, Coherent;
    if n > 0 {
      TickIgnoresFlags(k, p, y);
      ReplayKeepsRunning(k);
      TickedIgnoresFlags(IncrementTick(k), n - 1, p, y);
    }
  }

  /** Replaying the held-back ticks leaves what processing as many ticks one by one leaves, but for the yield flag. */
  lemma {:induction false} ReplayIsTicking(k: Kernel)
    requires Coherent(k) && k.suspended == 0
    ensures Replay(k) == Flagged(Ticked(k, k.pended), 0, Replay(k).yieldPending)
    decreases k.pended
  {
    hide IncrementTick, TickWantsSwitch, Coherent;
    if k.pended > 0 {
      var k1 := IncrementTick(k);
      var y := k1.yieldPending || TickWantsSwitch(k);
      ReplayKeepsRunning(k);
      TickedIgnoresFlags(k1, k.pended - 1, k.pended - 1, y);
      ReplayIsTicking(ReplayOne(k));
    }
  }

  /** The kernel once xTaskResumeAll has emptied the pending-ready list. */
  function Drained(k: Kernel, idle: TaskId): (k': Kernel)
    requires Housed(k, idle)
    ensures Coherent(k') && k'.suspended == 0 && k'.pended == k.pended
  {
    Drain(k.(suspended := 0))
  }

  /** Resuming the scheduler catches up: the pending tasks drained, every tick received is processed as above. */
  lemma ResumeIsTicking(k: Kernel, idle: TaskId)
    requires Housed(k, idle) && k.suspended == 1
    ensures ResumeAll(k) == Flagged(Ticked(Drained(k, idle), k.pended), 0, ResumeAll(k).yieldPending)
  {
    hide Replay, Ticked, Consistent, At;
    ReplayIsTicking(Drained(k, idle));
  }

  lemma ResumeTicked(k: Kernel, h: History, idle: TaskId)
    requires Invariant(k, h, idle) && k.suspended == 1
    ensures TickedExactly(Drained(k, idle), ResumeAll(k), h.received, h.deadline)
    ensures ResumeAll(k).tick == Of(h.received)
  {
    hide Drain, Replay, Consistent, At, OrderedLists, TickedExactly;
    var k1 := k.(suspended := 0);
    DrainTimed(k1, h);
    DrainOrdered(k1);
    ReplayExact(Drain(k1), h);
  }

  /** So no due task is left asleep, and no other task is woken. */
  lemma ResumeCatchesUp(k: Kernel, h: History, idle: TaskId)
    requires Invariant(k, h, idle) && k.suspended == 1
    ensures ResumeAll(k).tick == Of(h.received)
    ensures ResumeAll(k).states.home.Keys == k.states.home.Keys
    ensures forall t :: t in k.states.home ==> ResumeAll(k).states.home[t] == CaughtUpList(k, h, t)
  {
    hide Drain, ResumeAll, Consistent, At, OrderedLists, Timed;
    DrainExact(k.(suspended := 0));
    ResumeTicked(k, h, idle);
  }

  /** Where a task is once the scheduler has caught up. */
  function CaughtUpList(k: Kernel, h: History, t: TaskId): StateList
    requires t in k.states.home
  {
    var due := IsDelayedList(k.states.home[t]) && t in h.deadline && h.deadline[t] <= h.received;
    if t in k.tcbs && (Pending(k, t) || due) then Ready(k.tcbs[t].priority) else k.states.home[t]
  }

  // ---------------------------------------------------------------------------
  // Waits of zero ticks, and periodic delays
  // ---------------------------------------------------------------------------

  /** A wait for no ticks at the last tick of an epoch is what the empty-at-switch assertion would catch. */
  lemma ZeroWaitAtLastTick(k: Kernel, wake: Tick)
    requires Coherent(k) && k.tick == MAX_DELAY && k.current in k.states.home
    requires At(k.states, DelayedList(k)).items == []
    ensures At(DelayUntil(k, wake).states, DelayedList(k)).items != [] <==> wake == k.tick
  {
    hide UnlinkReset, AddDelayed;
    var k' := DelayUntil(k, wake);
    if wake == k.tick {
      if At(k'.states, DelayedList(k)).items == [] {
        NobodyIn(k', DelayedList(k), k.current);
      }
    } else if At(k'.states, DelayedList(k)).items != [] {
      ListHead(k', DelayedList(k));
      NobodyIn(k, DelayedList(k), At(k'.states, DelayedList(k)).items[0]);
    }
  }

  /** Whether vTaskDelayUntil blocks, from the machine tick and the machine time of the previous wake-up. */
  predicate ShouldDelay(tick: Tick, previous: Tick, increment: Tick) {
    var wake := Add(previous, increment);
    if tick < previous then wake < previous && wake > tick
    else wake < previous || wake > tick
  }

  /** It blocks exactly when the next wake-up lies ahead, and then until precisely that absolute time. */
  lemma DelayUntilExact(previous: nat, increment: Tick, now: nat)
    requires increment > 0 && previous <= now < previous + TICKS
    ensures ShouldDelay(Of(now), Of(previous), increment) <==> previous + increment > now
    ensures Add(Of(previous), increment) == Of(previous + increment)
    ensures previous + increment > now ==>
              && Of(previous + increment) != Of(now)
              && now + Sub(Of(previous + increment), Of(now)) == previous + increment
  {
    AddDuration(previous, increment);
    SubDuration(previous, now);
    if previous + increment > now {
      SubDuration(now, previous + increment);
    }
  }
}
