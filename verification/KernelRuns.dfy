/**
 Whole runs of the kernel: everything proved of single steps holds in every reachable state, and a task that
 blocks for n ticks sleeps for exactly n processed ticks.
 */
module KernelRuns {
  import Division
  import opened Ticks
  import opened Rings
  import opened Families
  import opened Kernels
  import opened KernelSteps
  import opened KernelSelection
  import opened KernelOrder
  import opened KernelTime
  import opened TimeOuts

  /** The whole invariant: the lists partition the tasks, both indexes are exact, and time is kept. */
  ghost predicate Sound(k: Kernel, h: History, idle: TaskId) {
    Invariant(k, h, idle) && Indexed(k)
  }

  /** The kernel when the scheduler starts, with the idle task alone. */
  function Initial(idle: TaskId): Kernel {
    Kernel(map[idle := Tcb(0, 0, 0, 0, CodedPriority(0))],
           Family(map[Ready(0) := Ring([idle], 0)], map[idle := Ready(0)]), Family(map[], map[]),
           idle, 0, {0}, 0, MAX_DELAY, 0, true, 0, 0, false)
  }

  lemma InitialSound(idle: TaskId)
    ensures Sound(Initial(idle), History(0, 0, map[]), idle)
  {
    hide Consistent, At, Of;
    var k := Initial(idle);
    InitialLists(idle);
    InitialIndexed(idle);
    assert Housed(k, idle);
    assert Wakes(k.tcbs, At(k.states, FirstDelayed).items) == Wakes(k.tcbs, At(k.states, SecondDelayed).items) == [];
    assert Ordered(k);
    hide Housed, Ordered, Indexed;
    InitialTimed(idle);
  }

  lemma InitialTimed(idle: TaskId)
    ensures Timed(Initial(idle), History(0, 0, map[]))
  {
    hide Of, EpochStart, WrapTime;
    TimeZero();
    WrapTimeNext(0);
  }

  lemma TimeZero()
    ensures Of(0) == 0 && EpochStart(0) == 0
  {
    Division.Unique(0, TICKS, 0, 0);
  }

  lemma InitialIndexed(idle: TaskId)
    ensures Indexed(Initial(idle))
  {
    var k := Initial(idle);
    assert ReadyAt(k, 0).items[0] == idle;
    assert forall p: nat :: p > 0 ==> At(k.states, Ready(p)).items == [];
  }

  lemma InitialLists(idle: TaskId)
    ensures Consistent(Initial(idle).states) && Consistent(Initial(idle).events)
    ensures forall l :: At(Initial(idle).states, l) == if l == Ready(0) then Ring([idle], 0) else Ring([], 0)
  {
  }

  function NextHistory(k: Kernel, h: History, s: Step): History {
    match s
    case Wait(w) => WaitHistory(k, h, w)
    case Clock(c) => ClockHistory(k, h, c)
    case _ => h
  }

  lemma StepCaughtUp(k: Kernel, h: History, idle: TaskId, s: Step)
    requires Invariant(k, h, idle) && Enabled(k, idle, s)
    ensures Timed(Do(k, idle, s), NextHistory(k, h, s))
    ensures Do(k, idle, s).suspended == 0 ==> Do(k, idle, s).pended == 0
  {
    hide DoClock, Create, Delete, Suspend, Reap, Resume, ResumeFromISR, DelayUntil, PlaceOnEventList,
         PlaceOnUnorderedEventList, PlaceOnEventListRestricted, RemoveFromEventList, RemoveFromUnorderedEventList,
         Refile, Disinherit, Consistent, At, Timed, OrderedLists;
    match s
    case Life(l) => LifeTimed(k, h, idle, l);
    case Wait(w) => WaitTimed(k, h, idle, w);
    case Wake(w) => WakeTimed(k, h, idle, w);
    case Clock(c) => ClockTimed(k, h, idle, c);
    case Rank(r) => RankTimed(k, h, idle, r);
  }

  lemma StepSound(k: Kernel, h: History, idle: TaskId, s: Step)
    requires Sound(k, h, idle) && Enabled(k, idle, s)
    ensures Sound(Do(k, idle, s), NextHistory(k, h, s), idle)
  {
    hide Do, Timed, Housed, Ordered, Indexed, NextHistory;
    StepHoused(k, idle, s);
    StepIndexed(k, idle, s);
    StepOrdered(k, idle, s);
    StepCaughtUp(k, h, idle, s);
  }

  /** A run: enabled steps, one after the other. */
  ghost predicate Executes(k: Kernel, h: History, idle: TaskId, steps: seq<Step>, k': Kernel, h': History)
    decreases |steps|
  {
    if steps == [] then k' == k && h' == h
    else Housed(k, idle) && Enabled(k, idle, steps[0])
         && Executes(Do(k, idle, steps[0]), NextHistory(k, h, steps[0]), idle, steps[1..], k', h')
  }

  lemma {:induction false} RunSound(k: Kernel, h: History, idle: TaskId, steps: seq<Step>, k': Kernel, h': History)
    requires Sound(k, h, idle) && Executes(k, h, idle, steps, k', h')
    ensures Sound(k', h', idle)
    decreases |steps|
  {
    hide Housed, Timed, Ordered, Indexed, Do, Enabled, NextHistory;
    if steps != [] {
      StepSound(k, h, idle, steps[0]);
      RunSound(Do(k, idle, steps[0]), NextHistory(k, h, steps[0]), idle, steps[1..], k', h');
    }
  }

  /** In every reachable state the lists partition the tasks, both indexes are exact and time is kept. */
  lemma ReachableSound(idle: TaskId, steps: seq<Step>, k: Kernel, h: History)
    requires Executes(Initial(idle), History(0, 0, map[]), idle, steps, k, h)
    ensures Sound(k, h, idle)
  {
    hide Sound;
    InitialSound(idle);
    RunSound(Initial(idle), History(0, 0, map[]), idle, steps, k, h);
  }

  // ---------------------------------------------------------------------------
  // Suspensions of the scheduler nest
  // ---------------------------------------------------------------------------

  function Suspends(s: Step): int {
    if s == Clock(SchedulerSuspend) then 1 else if s == Clock(SchedulerResume) then -1 else 0
  }

  /** Calls of vTaskSuspendAll less calls of xTaskResumeAll. */
  function Suspensions(steps: seq<Step>): int {
    if steps == [] then 0 else Suspends(steps[0]) + Suspensions(steps[1..])
  }

  lemma {:induction false} ReplayNesting(k: Kernel)
    requires Coherent(k) && k.suspended == 0
    ensures Replay(k).suspended == 0
    decreases k.pended
  {
    if k.pended > 0 {
      ReplayKeepsRunning(k);
      ReplayNesting(ReplayOne(k));
    }
  }

  lemma ClockNesting(k: Kernel, idle: TaskId, c: ClockStep)
    requires Housed(k, idle) && ClockEnabled(k, c)
    ensures DoClock(k, idle, c).suspended == k.suspended + Suspends(Clock(c))
  {
    hide Replay, Drain, WakeDue, ScanDown, Consistent, At, AllLists;
    if c == SchedulerResume && k.suspended == 1 {
      ReplayNesting(Drain(k.(suspended := 0)));
    }
  }

  lemma StepNesting(k: Kernel, idle: TaskId, s: Step)
    requires Housed(k, idle) && Enabled(k, idle, s)
    ensures Do(k, idle, s).suspended == k.suspended + Suspends(s)
  {
    hide Replay, Drain, WakeDue, ScanDown, Consistent, At, MakeReady, AddDelayed, UnlinkReset, Unlink, Park, Refile, JoinSorted, JoinEnd, HousedMaps;
    if s.Clock? {
      ClockNesting(k, idle, s.clock);
    }
  }

  /** In every run the scheduler is suspended as often as it was suspended and not resumed. */
  lemma {:induction false} SuspensionsNest(k: Kernel, h: History, idle: TaskId, steps: seq<Step>, k': Kernel, h': History)
    requires Executes(k, h, idle, steps, k', h')
    ensures k'.suspended == k.suspended + Suspensions(steps)
    decreases |steps|
  {
    hide Housed, Do, Enabled, NextHistory;
    if steps != [] {
      StepNesting(k, idle, steps[0]);
      SuspensionsNest(Do(k, idle, steps[0]), NextHistory(k, h, steps[0]), idle, steps[1..], k', h');
    }
  }

  // ---------------------------------------------------------------------------
  // Sleeping for an exact number of ticks
  // ---------------------------------------------------------------------------

  /** Blocked with a deadline, and not yet woken by an event. */
  predicate Asleep(k: Kernel, t: TaskId) {
    t in k.states.home && IsDelayedList(k.states.home[t]) && !Pending(k, t)
  }

  /** The steps that end a task's sleep before its deadline: an event, a suspension, a deletion. */
  ghost predicate EndsSleep(k: Kernel, s: Step, t: TaskId) {
    match s
    case Life(TaskDelete(u)) => u == t
    case Life(TaskSuspend(u)) => u == t
    case Wake(QueueSignal(e)) => At(k.events, Event(e)).items != [] && At(k.events, Event(e)).items[0] == t
    case Wake(GroupSignal(u, _)) => u == t
    case _ => false
  }

  /** A task asleep stays asleep with its deadline before that time, and is ready from then on. */
  ghost predicate Sleeps(k: Kernel, h: History, k': Kernel, h': History, t: TaskId) {
    && t in h.deadline
    && (h'.now < h.deadline[t] ==> Asleep(k', t) && t in h'.deadline && h'.deadline[t] == h.deadline[t])
    && (h'.now >= h.deadline[t] ==> t in k'.states.home && k'.states.home[t].Ready?)
  }

  lemma LifeAsleep(k: Kernel, idle: TaskId, s: LifeStep, t: TaskId)
    requires Housed(k, idle) && LifeEnabled(k, idle, s) && Asleep(k, t) && !EndsSleep(k, Life(s), t)
    ensures Asleep(DoLife(k, idle, s), t)
  {
    hide Create, Delete, Suspend, Reap, Resume, ResumeFromISR, Consistent, At;
  }

  lemma WaitAsleep(k: Kernel, idle: TaskId, s: WaitStep, t: TaskId)
    requires Housed(k, idle) && WaitEnabled(k, idle, s) && Asleep(k, t)
    ensures Asleep(DoWait(k, idle, s), t) && t != k.current
  {
    hide DelayUntil, PlaceOnEventList, PlaceOnUnorderedEventList, PlaceOnEventListRestricted, Consistent, At;
  }

  lemma WakeAsleep(k: Kernel, idle: TaskId, s: WakeStep, t: TaskId)
    requires Housed(k, idle) && WakeEnabled(k, s) && Asleep(k, t) && !EndsSleep(k, Wake(s), t)
    ensures Asleep(DoWake(k, idle, s), t)
  {
    hide RemoveFromEventList, RemoveFromUnorderedEventList, Consistent, At;
  }

  lemma RankAsleep(k: Kernel, idle: TaskId, s: RankStep, t: TaskId)
    requires Housed(k, idle) && RankEnabled(k, s) && Asleep(k, t)
    ensures Asleep(DoRank(k, idle, s), t)
  {
    hide Refile, Disinherit, Consistent, At;
  }

  lemma QuietStepSleeps(k: Kernel, h: History, idle: TaskId, s: Step, t: TaskId)
    requires Sound(k, h, idle) && Enabled(k, idle, s) && Asleep(k, t) && !EndsSleep(k, s, t) && !s.Clock?
    ensures Sleeps(k, h, Do(k, idle, s), NextHistory(k, h, s), t)
  {
    hide DoLife, DoWait, DoWake, DoRank, Asleep, EndsSleep, Housed, Timed, Ordered, Indexed;
    DeadlineOf(k, h, idle, t);
    match s
    case Life(l) => LifeAsleep(k, idle, l, t);
    case Wait(w) => WaitAsleep(k, idle, w, t);
    case Wake(w) => WakeAsleep(k, idle, w, t);
    case Rank(r) => RankAsleep(k, idle, r, t);
  }

  lemma ResumeSleeps(k: Kernel, h: History, idle: TaskId, t: TaskId)
    requires Invariant(k, h, idle) && Asleep(k, t) && k.suspended > 0
    ensures Sleeps(k, h, ResumeAll(k), ClockHistory(k, h, SchedulerResume), t)
  {
    hide Drain, Replay, Consistent, At, Timed, OrderedLists;
    DeadlineAhead(k, h, t);
    if k.suspended == 1 {
      var k1 := k.(suspended := 0);
      assert Timed(k1, h) by { StaysTimed(k, k1, h); }
      DrainExact(k1);
      DrainTimed(k1, h);
      DrainOrdered(k1);
      NothingPending(Drain(k1));
      ReplayExact(Drain(k1), h);
    }
  }

  lemma ClockStepSleeps(k: Kernel, h: History, idle: TaskId, s: ClockStep, t: TaskId)
    requires Invariant(k, h, idle) && ClockEnabled(k, s) && Asleep(k, t)
    ensures Sleeps(k, h, DoClock(k, idle, s), ClockHistory(k, h, s), t)
  {
    hide ResumeAll, Advanced, WakeDue, Advance, ReportAll, ScanDown, Consistent, At, Timed, OrderedLists;
    DeadlineAhead(k, h, t);
    match s
    case TickInterrupt => if k.suspended == 0 { TickExact(k, h); }
    case SchedulerResume => ResumeSleeps(k, h, idle, t);
    case _ =>
  }

  lemma StepSleeps(k: Kernel, h: History, idle: TaskId, s: Step, t: TaskId)
    requires Sound(k, h, idle) && Enabled(k, idle, s) && Asleep(k, t) && !EndsSleep(k, s, t)
    ensures Sleeps(k, h, Do(k, idle, s), NextHistory(k, h, s), t)
  {
    hide DoClock, Asleep, Sleeps, Timed, OrderedLists, IndexedLists, ClockHistory;
    if s.Clock? {
      ClockStepSleeps(k, h, idle, s.clock, t);
    } else {
      QuietStepSleeps(k, h, idle, s, t);
    }
  }

  /** A run in which no step ends t's sleep early, as long as t sleeps. */
  ghost predicate Undisturbed(k: Kernel, h: History, idle: TaskId, steps: seq<Step>, t: TaskId)
    decreases |steps|
  {
    steps == [] ||
    (Housed(k, idle) && Enabled(k, idle, steps[0]) &&
     (Asleep(k, t) ==>
        !EndsSleep(k, steps[0], t)
        && Undisturbed(Do(k, idle, steps[0]), NextHistory(k, h, steps[0]), idle, steps[1..], t)))
  }

  /** Somewhere in the run a single step carries time up to the deadline, and that step makes t ready. */
  ghost predicate ReadiedInTime(k: Kernel, h: History, idle: TaskId, steps: seq<Step>, t: TaskId, deadline: nat)
    decreases |steps|
  {
    && steps != [] && Housed(k, idle) && Enabled(k, idle, steps[0])
    && Asleep(k, t) && h.now < deadline
    && var k1, h1 := Do(k, idle, steps[0]), NextHistory(k, h, steps[0]);
       if h1.now >= deadline then t in k1.states.home && k1.states.home[t].Ready?
       else ReadiedInTime(k1, h1, idle, steps[1..], t, deadline)
  }

  /** In any undisturbed run a sleeping task sleeps until its deadline and no longer. */
  lemma {:induction false} SleepExact(k: Kernel, h: History, idle: TaskId, steps: seq<Step>, k': Kernel, h': History,
                                      t: TaskId)
    requires Sound(k, h, idle) && Executes(k, h, idle, steps, k', h')
    requires Asleep(k, t) && Undisturbed(k, h, idle, steps, t)
    ensures t in h.deadline && h.now < h.deadline[t]
    ensures h'.now < h.deadline[t] ==> Asleep(k', t)
    ensures h'.now >= h.deadline[t] ==> ReadiedInTime(k, h, idle, steps, t, h.deadline[t])
    decreases |steps|
  {
    hide Housed, Timed, Ordered, Indexed, Do, Enabled, NextHistory, Asleep, EndsSleep;
    DeadlineOf(k, h, idle, t);
    if steps != [] {
      var k1, h1 := Do(k, idle, steps[0]), NextHistory(k, h, steps[0]);
      StepSound(k, h, idle, steps[0]);
      StepSleeps(k, h, idle, steps[0], t);
      if h1.now < h.deadline[t] {
        SleepExact(k1, h1, idle, steps[1..], k', h', t);
      } else {
        TimeNeverReturns(k1, h1, idle, steps[1..], k', h');
      }
    }
  }

  lemma DeadlineOf(k: Kernel, h: History, idle: TaskId, t: TaskId)
    requires Sound(k, h, idle) && Asleep(k, t)
    ensures t in h.deadline && h.now < h.deadline[t]
  {
    DeadlineAhead(k, h, t);
  }

  lemma {:induction false} TimeNeverReturns(k: Kernel, h: History, idle: TaskId, steps: seq<Step>, k': Kernel, h': History)
    requires Executes(k, h, idle, steps, k', h')
    ensures h.now <= h'.now
    decreases |steps|
  {
    hide Housed, Timed, Ordered, Indexed, Do;
    if steps != [] {
      TimeNeverReturns(Do(k, idle, steps[0]), NextHistory(k, h, steps[0]), idle, steps[1..], k', h');
    }
  }

  /** Blocking for n ticks, from 1 to the longest wait, sets the deadline n processed ticks ahead. */
  lemma BlockedFor(k: Kernel, h: History, idle: TaskId, w: WaitStep)
    requires Sound(k, h, idle) && WaitEnabled(k, idle, w) && !WaitsForever(w)
    ensures Asleep(DoWait(k, idle, w), k.current)
    ensures NextHistory(k, h, Wait(w)).deadline[k.current] == h.now + WaitTicks(k, w)
    ensures 1 <= WaitTicks(k, w) < TICKS
  {
    hide DelayUntil, PlaceOnEventList, PlaceOnUnorderedEventList, PlaceOnEventListRestricted, Consistent, At, Timed,
         OrderedLists, IndexedLists;
    if w.TaskDelayUntil? {
      AddOrder(k.tick, w.wake);
    }
  }

  /** The overflow count that timeouts compare is the number of wraps of absolute time. */
  lemma OverflowsCounted(k: Kernel, h: History)
    requires Timed(k, h)
    ensures k.overflows == Overflows(h.now)
  {
    hide DeadlinesKept;
    EpochProduct(h.now);
    if k.overflows < Overflows(h.now) {
      Division.OneApart(TICKS, k.overflows, Overflows(h.now));
    } else if Overflows(h.now) < k.overflows {
      Division.OneApart(TICKS, Overflows(h.now), k.overflows);
    }
  }
}
