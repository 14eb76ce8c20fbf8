/**
 Preemption: the kernel asks for a context switch whenever the running task may be outranked.  Every wake-up, every
 priority change and every tick either leaves the running task a highest ready one, or answers that a switch is
 called for, or leaves a yield pending; so no preemption is lost in any run.
 */
module KernelYields {
  import opened Ticks
  import opened Rings
  import opened Families
  import opened Kernels
  import opened KernelSteps
  import opened KernelSelection
  import opened KernelOrder
  import opened KernelTime
  import opened KernelRuns

  predicate RunningReady(k: Kernel) {
    k.current in k.states.home && k.states.home[k.current].Ready?
  }

  /** The running task is ready, and no ready task outranks it. */
  ghost predicate WellChosen(k: Kernel) {
    RunningReady(k) && HighestIsRunning(k)
  }

  /** Another task is ready whose priority is not below that of the running one. */
  predicate RivalReady(k: Kernel, t: TaskId) {
    && t != k.current && t in k.states.home && k.states.home[t].Ready?
    && t in k.tcbs && k.current in k.tcbs && k.tcbs[k.current].priority <= k.tcbs[t].priority
  }

  // ---------------------------------------------------------------------------
  // The answer of the tick
  // ---------------------------------------------------------------------------

  /** The loop reports a rival exactly when one of the tasks that are due ranks with the running task. */
  lemma {:induction false} WakesRivalExact(k: Kernel)
    requires Coherent(k) && Ordered(k)
    ensures WakesRival(k) <==> exists t :: Woken(k, t) && k.tcbs[k.current].priority <= k.tcbs[t].priority
    decreases |At(k.states, DelayedList(k)).items|
  {
    hide Expire, Consistent, At, OrderedLists;
    var s := At(k.states, DelayedList(k)).items;
    forall t | t in k.states.home && k.states.home[t] == DelayedList(k)
      ensures s != [] && s[0] in k.tcbs && k.tcbs[s[0]].wake <= k.tcbs[t].wake
    {
      HeadIsLeast(k, t);
    }
    if s != [] {
      ExpireShrinks(k);
      ListHead(k, DelayedList(k));
      if k.tick >= k.tcbs[s[0]].wake {
        ExpireOrdered(k, s[0]);
        WakesRivalExact(Expire(k, s[0]));
        RivalsLeft(k, s[0]);
      }
    }
  }

  lemma RivalsLeft(k: Kernel, t: TaskId)
    requires Coherent(k) && Woken(k, t)
    ensures (exists u :: Woken(k, u) && k.tcbs[k.current].priority <= k.tcbs[u].priority) <==>
            Rivals(k, t) || exists u :: Woken(Expire(k, t), u) && k.tcbs[k.current].priority <= k.tcbs[u].priority
  {
    hide Expire, Consistent, At;
    var k' := Expire(k, t);
    assert forall u :: Woken(k', u) <==> Woken(k, u) && u != t;
  }

  /** More than one task in the running task's list: another one of the same priority. */
  lemma ListShared(k: Kernel, idle: TaskId)
    requires Housed(k, idle) && RunningReady(k)
    ensures |ReadyAt(k, k.tcbs[k.current].priority).items| > 1 <==>
            exists t :: RivalReady(k, t) && k.tcbs[t].priority == k.tcbs[k.current].priority
  {
    var r := ReadyAt(k, k.tcbs[k.current].priority).items;
    assert k.current in r;
    if |r| > 1 {
      var t := if r[0] == k.current then r[1] else r[0];
      assert t in r;
      assert RivalReady(k, t) && k.tcbs[t].priority == k.tcbs[k.current].priority;
    }
    forall t | RivalReady(k, t) && k.tcbs[t].priority == k.tcbs[k.current].priority
      ensures |r| > 1
    {
      assert t in r;
    }
  }

  /** What the tick does to who is ready, whether or not the loop runs. */
  ghost predicate OnlyReadies(k: Kernel, k': Kernel) {
    && k'.tcbs == k.tcbs && k'.current == k.current && k'.states.home.Keys == k.states.home.Keys
    && forall t :: t in k.states.home && k.states.home[t].Ready? ==> k'.states.home[t] == k.states.home[t]
  }

  lemma TickReadies(k: Kernel, idle: TaskId)
    requires Housed(k, idle) && Ordered(k) && k.suspended == 0
    ensures OnlyReadies(k, IncrementTick(k))
    ensures forall t :: t in IncrementTick(k).states.home && IncrementTick(k).states.home[t].Ready? && !k.states.home[t].Ready?
                        ==> Advanced(k).nextUnblock <= Advanced(k).tick && Woken(Advanced(k), t)
    ensures Advanced(k).nextUnblock <= Advanced(k).tick ==>
              forall t :: Woken(Advanced(k), t) ==> IncrementTick(k).states.home[t].Ready? && !k.states.home[t].Ready?
  {
    hide WakeDue, Consistent, At, OrderedLists;
    AdvancedFrame(k);
    if Advanced(k).nextUnblock <= Advanced(k).tick {
      WakeDueExact(Advanced(k));
    }
  }

  lemma AdvancedFrame(k: Kernel)
    requires Coherent(k) && Ordered(k)
    ensures Advanced(k).tcbs == k.tcbs && Advanced(k).current == k.current && Advanced(k).states == k.states && Ordered(Advanced(k))
    ensures Advanced(k).yieldPending == k.yieldPending
  {
  }

  /**
   The tick asks for a switch exactly when a yield is pending or, after it, another task is ready whose priority is not
   below that of the running task.
   */
  lemma TickAnswer(k: Kernel, idle: TaskId)
    requires Housed(k, idle) && Ordered(k) && WellChosen(k) && k.suspended == 0
    ensures TickWantsSwitch(k) <==> k.yieldPending || exists t :: RivalReady(IncrementTick(k), t)
  {
    hide WakeDue, WakesRival, IncrementTick, Advanced, Coherent, At, OrderedLists;
    var k1, k' := Advanced(k), IncrementTick(k);
    IncrementTickHoused(k, idle);
    TickReadies(k, idle);
    ListShared(k', idle);
    AdvancedFrame(k);
    AdvancedCoherent(k);
    if k1.nextUnblock <= k1.tick {
      WakesRivalExact(k1);
      forall t | Woken(k1, t) && k1.tcbs[k1.current].priority <= k1.tcbs[t].priority
        ensures RivalReady(k', t)
      {
      }
    }
    forall t | RivalReady(k', t)
      ensures k.tcbs[t].priority == k.tcbs[k.current].priority || (k1.nextUnblock <= k1.tick && Woken(k1, t))
    {
    }
  }

  lemma AdvancedCoherent(k: Kernel)
    requires Coherent(k)
    ensures Coherent(Advanced(k))
  {
  }

  /** While the scheduler is suspended the tick is only counted, and only a yield already pending is reported. */
  lemma TickHeldBack(k: Kernel)
    requires Coherent(k) && k.suspended > 0
    ensures TickWantsSwitch(k) <==> k.yieldPending
    ensures IncrementTick(k) == k.(pended := k.pended + 1)
  {
  }

  // ---------------------------------------------------------------------------
  // The answer of xTaskResumeAll
  // ---------------------------------------------------------------------------

  predicate PendingRival(k: Kernel, t: TaskId) {
    Pending(k, t) && t in k.tcbs && k.current in k.tcbs && k.tcbs[k.current].priority <= k.tcbs[t].priority
  }

  /** Draining leaves a yield pending exactly when there was one or a drained task ranks with the running one. */
  lemma {:induction false} DrainAnswer(k: Kernel)
    requires Coherent(k) && PendingHoused(k)
    ensures Drain(k).yieldPending <==> k.yieldPending || exists t :: PendingRival(k, t)
    decreases |At(k.events, PendingReady).items|
  {
    hide Unlink, MakeReady, LeaveEvent, Consistent, At;
    if At(k.events, PendingReady).items == [] {
      NothingPending(k);
    } else {
      PendingHead(k);
      var t := At(k.events, PendingReady).items[0];
      var k1 := DrainOne(k);
      DrainAnswer(k1);
      assert forall u :: Pending(k1, u) <==> Pending(k, u) && u != t;
      assert forall u :: u != t ==> (PendingRival(k1, u) <==> PendingRival(k, u));
      assert PendingRival(k, t) <==> Rivals(k, t);
    }
  }

  /** A drained task below the running one leaves that well chosen. */
  lemma DrainWellChosen(k: Kernel)
    requires Coherent(k) && PendingHoused(k) && WellChosen(k) && !Pending(k, k.current)
    ensures Drain(k).tcbs == k.tcbs && Drain(k).current == k.current
    ensures (forall t :: !PendingRival(k, t)) ==> WellChosen(Drain(k))
  {
    hide Drain, Consistent, At;
    DrainExact(k);
    var k' := Drain(k);
    if forall t :: !PendingRival(k, t) {
      forall t | t in k'.states.home && k'.states.home[t].Ready? && t in k'.tcbs
        ensures k'.tcbs[t].priority <= k'.tcbs[k'.current].priority
      {
        assert !PendingRival(k, t);
      }
    }
  }

  lemma TickKeepsYield(k: Kernel)
    requires Coherent(k)
    ensures IncrementTick(k).yieldPending == k.yieldPending
  {
    hide WakeDue, Consistent, At;
    ResetOnly(k.(tick := 0, firstIsCurrent := !k.firstIsCurrent, overflows := k.overflows + 1));
  }

  /** A yield once pending stays so through the replayed ticks, and who is ready stays ready. */
  lemma {:induction false} ReplayFrame(k: Kernel, idle: TaskId)
    requires Housed(k, idle) && Ordered(k) && k.suspended == 0
    ensures k.yieldPending ==> Replay(k).yieldPending
    ensures OnlyReadies(k, Replay(k))
    decreases k.pended
  {
    hide IncrementTick, TickWantsSwitch, Coherent, OrderedLists;
    if k.pended > 0 {
      var k1 := ReplayOne(k);
      TickReadies(k, idle);
      TickKeepsYield(k);
      IncrementTickHoused(k, idle);
      IncrementTickOrdered(k);
      ReplayKeepsRunning(k);
      ReplayFrame(k1, idle);
    }
  }

  /** The replayed ticks leave a yield pending exactly when there was one or, after them, a rival is ready. */
  lemma {:induction false} ReplayAnswer(k: Kernel, idle: TaskId)
    requires Housed(k, idle) && Ordered(k) && k.suspended == 0 && WellChosen(k)
    ensures Replay(k).yieldPending <==> k.yieldPending || (k.pended > 0 && exists t :: RivalReady(Replay(k), t))
    decreases k.pended
  {
    hide IncrementTick, TickWantsSwitch, Coherent, OrderedLists;
    if k.pended > 0 {
      var k1 := ReplayOne(k);
      TickAnswer(k, idle);
      TickReadies(k, idle);
      TickKeepsYield(k);
      IncrementTickHoused(k, idle);
      IncrementTickOrdered(k);
      ReplayKeepsRunning(k);
      ReplayFrame(k1, idle);
      if k1.yieldPending {
        forall t | RivalReady(IncrementTick(k), t)
          ensures RivalReady(Replay(k1), t)
        {
        }
      } else {
        NoRivals(IncrementTick(k), k1);
        ReplayAnswer(k1, idle);
        if k1.pended == 0 {
          assert forall t :: RivalReady(Replay(k1), t) ==> RivalReady(IncrementTick(k), t);
        }
      }
    }
  }

  lemma NoRivals(k: Kernel, k1: Kernel)
    requires k1.states == k.states && k1.tcbs == k.tcbs && k1.current == k.current && RunningReady(k) && k.current in k.tcbs
    requires forall t :: !RivalReady(k, t)
    ensures WellChosen(k1)
  {
    forall t | t in k1.states.home && k1.states.home[t].Ready? && t in k1.tcbs
      ensures k1.tcbs[t].priority <= k1.tcbs[k1.current].priority
    {
      assert !RivalReady(k, t);
    }
  }

  /**
   Resuming the scheduler for good leaves a yield pending exactly when there was one, a task that was pending ready ranks
   with the running one, or ticks were held back and a rival is ready after them.
   */
  lemma ResumeAnswer(k: Kernel, idle: TaskId)
    requires Housed(k, idle) && Ordered(k) && WellChosen(k) && k.suspended == 1
    ensures ResumeAll(k).yieldPending <==>
            k.yieldPending || (exists t :: PendingRival(k, t)) || (k.pended > 0 && exists t :: RivalReady(ResumeAll(k), t))
    ensures ResumeAll(k).yieldPending || WellChosen(ResumeAll(k))
  {
    hide Drain, Replay, Consistent, At, OrderedLists;
    var k1 := k.(suspended := 0);
    assert forall t :: PendingRival(k1, t) == PendingRival(k, t);
    DrainHoused(k1, idle);
    DrainOrdered(k1);
    DrainAnswer(k1);
    DrainWellChosen(k1);
    var k2 := Drain(k1);
    ReplayFrame(k2, idle);
    if !k2.yieldPending {
      ReplayAnswer(k2, idle);
      ReplayWellChosen(k2, idle);
    }
  }

  lemma ReplayWellChosen(k: Kernel, idle: TaskId)
    requires Housed(k, idle) && Ordered(k) && k.suspended == 0 && WellChosen(k)
    ensures Replay(k).yieldPending || WellChosen(Replay(k))
  {
    hide Replay, Consistent, At, OrderedLists;
    ReplayAnswer(k, idle);
    ReplayFrame(k, idle);
    if !Replay(k).yieldPending && k.pended > 0 {
      NoRivals(Replay(k), Replay(k));
    }
    if k.pended == 0 {
      NothingReplayed(k);
    }
  }

  lemma NothingReplayed(k: Kernel)
    requires Coherent(k) && k.suspended == 0 && k.pended == 0
    ensures Replay(k) == k
  {
  }

  // ---------------------------------------------------------------------------
  // Every step
  // ---------------------------------------------------------------------------

  /** The call answers that a context switch is called for, or gives up the processor itself. */
  predicate Asks(k: Kernel, s: Step)
    requires Coherent(k)
  {
    match s
    case Life(TaskCreate(_, p)) => p > k.tcbs[k.current].priority
    case Life(TaskDelete(t)) => t == k.current
    case Life(TaskSuspend(t)) => t == k.current
    case Life(TaskResume(t)) => t != k.current && IsSuspended(k, t) && Rivals(k, t)
    case Life(IsrResume(t)) => k.suspended == 0 && IsSuspended(k, t) && Rivals(k, t)
    case Wait(_) => true
    case Clock(TickInterrupt) => TickWantsSwitch(k)
    case Rank(PriorityChange(t, requested)) => t in k.tcbs && ChangeYields(k, t, requested)
    case Rank(PriorityDisinherit) => k.tcbs[k.current].priority != k.tcbs[k.current].base && k.tcbs[k.current].held == 1
    case _ => false
  }

  lemma LifeAsks(k: Kernel, idle: TaskId, s: LifeStep)
    requires Housed(k, idle) && LifeEnabled(k, idle, s) && WellChosen(k)
    ensures WellChosen(DoLife(k, idle, s)) || Asks(k, Life(s))
  {
    hide Create, Delete, Suspend, Reap, Resume, ResumeFromISR, Consistent, At;
  }

  /** A signal leaves a yield pending exactly when there was one or the task it wakes outranks the running one. */
  lemma SignalAnswer(k: Kernel, idle: TaskId, e: nat)
    requires Housed(k, idle) && WakeEnabled(k, QueueSignal(e))
    ensures var head := At(k.events, Event(e)).items[0];
            head in k.tcbs
            && (DoWake(k, idle, QueueSignal(e)).yieldPending <==> k.yieldPending || k.tcbs[head].priority > k.tcbs[k.current].priority)
  {
    hide Unlink, MakeReady, LeaveEvent, JoinEnd, Consistent, At;
    EventHead(k, idle, Event(e));
  }

  lemma GroupAnswer(k: Kernel, idle: TaskId, t: TaskId, value: nat)
    requires Housed(k, idle) && WakeEnabled(k, GroupSignal(t, value))
    ensures DoWake(k, idle, GroupSignal(t, value)).yieldPending <==>
            k.yieldPending || k.tcbs[t].priority > k.tcbs[k.current].priority
  {
    hide Unlink, MakeReady, LeaveEvent, Consistent, At;
  }

  lemma WakeAsks(k: Kernel, idle: TaskId, s: WakeStep)
    requires Housed(k, idle) && WakeEnabled(k, s) && WellChosen(k)
    ensures WellChosen(DoWake(k, idle, s)) || DoWake(k, idle, s).yieldPending
  {
    hide RemoveFromEventList, RemoveFromUnorderedEventList, Consistent, At;
    match s
    case QueueSignal(e) => EventHead(k, idle, Event(e)); SignalAnswer(k, idle, e);
    case GroupSignal(t, v) => GroupAnswer(k, idle, t, v);
    case ItemReset =>
  }

  lemma TickAsks(k: Kernel, idle: TaskId)
    requires Housed(k, idle) && Ordered(k) && WellChosen(k)
    ensures WellChosen(IncrementTick(k)) || TickWantsSwitch(k)
  {
    hide IncrementTick, TickWantsSwitch, Consistent, At, OrderedLists;
    if k.suspended > 0 {
      TickHeldBack(k);
    } else {
      TickAnswer(k, idle);
      TickReadies(k, idle);
      if !TickWantsSwitch(k) {
        NoRivals(IncrementTick(k), IncrementTick(k));
      }
    }
  }

  /** A switch asked for while the scheduler is suspended changes nothing but leaves the yield pending; otherwise it is made. */
  lemma SwitchAnswer(k: Kernel, idle: TaskId)
    requires Housed(k, idle) && Indexed(k)
    ensures ClockEnabled(k, ContextSwitch)
    ensures k.suspended > 0 ==> SwitchContext(k) == k.(yieldPending := true)
    ensures k.suspended == 0 ==> WellChosen(SwitchContext(k)) && !SwitchContext(k).yieldPending
    ensures k.suspended == 0 ==> SwitchContext(k).current in k.tcbs && SwitchContext(k).top == k.tcbs[SwitchContext(k).current].priority
  {
    hide Advance, Consistent, At;
    SwitchAlwaysEnabled(k, idle);
    if k.suspended == 0 {
      HighestRuns(k, idle);
      SelectedIn(k, Ready(ScanDown(k.states, k.top)));
    }
  }

  lemma ClockAsks(k: Kernel, idle: TaskId, s: ClockStep)
    requires Housed(k, idle) && Ordered(k) && Indexed(k) && ClockEnabled(k, s) && WellChosen(k)
    ensures var k' := DoClock(k, idle, s); WellChosen(k') || k'.yieldPending || Asks(k, Clock(s))
  {
    hide IncrementTick, TickWantsSwitch, ResumeAll, SwitchContext, ReportAll, ResetNextUnblock, Consistent, At, OrderedLists, IndexedLists;
    match s
    case TickInterrupt => TickAsks(k, idle);
    case SchedulerResume =>
      if k.suspended == 1 { ResumeAnswer(k, idle); } else { InnerResume(k); }
    case ContextSwitch => SwitchAnswer(k, idle);
    case UnblockReset => ResetOnly(k);
    case _ =>
  }

  lemma InnerResume(k: Kernel)
    requires Coherent(k) && PendingHoused(k) && k.suspended > 1
    ensures ResumeAll(k) == k.(suspended := k.suspended - 1)
  {
  }

  lemma RankAsks(k: Kernel, idle: TaskId, s: RankStep)
    requires Housed(k, idle) && RankEnabled(k, s) && WellChosen(k)
    ensures WellChosen(DoRank(k, idle, s)) || Asks(k, Rank(s))
  {
    hide Refile, Disinherit, Consistent, At;
    if s.PriorityChange? {
      ChangeYieldsWhenOutranked(k, idle, s.t, s.priority);
    }
  }

  /** Every step leaves the running task well chosen, or a yield pending, or answers that a switch is called for. */
  lemma StepAsks(k: Kernel, idle: TaskId, s: Step)
    requires Housed(k, idle) && Ordered(k) && Indexed(k) && Enabled(k, idle, s) && WellChosen(k)
    ensures WellChosen(Do(k, idle, s)) || Do(k, idle, s).yieldPending || Asks(k, s)
  {
    hide DoLife, DoWait, DoWake, DoClock, DoRank, HousedMaps, Coherent, At, OrderedLists, IndexedLists;
    match s
    case Life(l) => LifeAsks(k, idle, l);
    case Wait(w) =>
    case Wake(w) => WakeAsks(k, idle, w);
    case Clock(c) => ClockAsks(k, idle, c);
    case Rank(r) => RankAsks(k, idle, r);
  }

  // ---------------------------------------------------------------------------
  // Whole runs
  // ---------------------------------------------------------------------------

  /** Whether a switch has been asked for since the last one was made. */
  function Asked(k: Kernel, s: Step, before: bool): bool
    requires Coherent(k)
  {
    if s == Clock(ContextSwitch) && k.suspended == 0 then false else before || Asks(k, s)
  }

  /** No step but a context switch takes a pending yield back. */
  lemma StepKeepsYield(k: Kernel, idle: TaskId, s: Step)
    requires Housed(k, idle) && Ordered(k) && Enabled(k, idle, s) && k.yieldPending
    ensures Do(k, idle, s).yieldPending || (s == Clock(ContextSwitch) && k.suspended == 0)
  {
    hide Create, Delete, Suspend, Reap, Resume, ResumeFromISR, DelayUntil, PlaceOnEventList, PlaceOnUnorderedEventList,
         PlaceOnEventListRestricted, DoWake, DoClock, Refile, Disinherit, HousedMaps, Consistent, At, OrderedLists;
    match s
    case Wake(w) => WakeKeepsYield(k, idle, w);
    case Clock(c) => ClockKeepsYield(k, idle, c);
    case _ =>
  }

  lemma WakeKeepsYield(k: Kernel, idle: TaskId, s: WakeStep)
    requires Housed(k, idle) && WakeEnabled(k, s) && k.yieldPending
    ensures DoWake(k, idle, s).yieldPending
  {
    hide RemoveFromEventList, RemoveFromUnorderedEventList, Consistent, At;
    match s
    case QueueSignal(e) => SignalAnswer(k, idle, e);
    case GroupSignal(t, v) => GroupAnswer(k, idle, t, v);
    case ItemReset =>
  }

  lemma ClockKeepsYield(k: Kernel, idle: TaskId, s: ClockStep)
    requires Housed(k, idle) && Ordered(k) && ClockEnabled(k, s) && k.yieldPending
    ensures DoClock(k, idle, s).yieldPending || (s == ContextSwitch && k.suspended == 0)
  {
    hide IncrementTick, Drain, Replay, ReportAll, ResetNextUnblock, Advance, ScanDown, Consistent, At, OrderedLists;
    match s
    case TickInterrupt => TickKeepsYield(k);
    case SchedulerResume =>
      if k.suspended == 1 {
        var k1 := k.(suspended := 0);
        DrainHoused(k1, idle);
        DrainOrdered(k1);
        DrainAnswer(k1);
        ReplayFrame(Drain(k1), idle);
      }
    case UnblockReset => ResetOnly(k);
    case _ =>
  }

  /** Who runs is well chosen, unless a switch has been asked for or a yield is pending. */
  ghost predicate Served(k: Kernel, asked: bool) {
    WellChosen(k) || k.yieldPending || asked
  }

  lemma StepServed(k: Kernel, idle: TaskId, s: Step, asked: bool)
    requires Housed(k, idle) && Ordered(k) && Indexed(k) && Enabled(k, idle, s) && Served(k, asked)
    ensures Served(Do(k, idle, s), Asked(k, s, asked))
  {
    hide Do, Enabled, HousedMaps, Coherent, At, OrderedLists, IndexedLists, Asks;
    if s == Clock(ContextSwitch) && k.suspended == 0 {
      SwitchMade(k, idle);
    } else if WellChosen(k) {
      StepAsks(k, idle, s);
    } else if k.yieldPending {
      StepKeepsYield(k, idle, s);
    }
  }

  lemma SwitchMade(k: Kernel, idle: TaskId)
    requires Housed(k, idle) && Indexed(k) && k.suspended == 0 && Enabled(k, idle, Clock(ContextSwitch))
    ensures WellChosen(Do(k, idle, Clock(ContextSwitch)))
  {
    hide HousedMaps, At, Consistent, IndexedLists, SwitchContext;
    SwitchAnswer(k, idle);
  }

  /** The flag at the end of a run. */
  ghost function AskedAfter(k: Kernel, h: History, idle: TaskId, steps: seq<Step>, k': Kernel, h': History, asked: bool): bool
    requires Executes(k, h, idle, steps, k', h')
    decreases |steps|
  {
    if steps == [] then asked
    else AskedAfter(Do(k, idle, steps[0]), NextHistory(k, h, steps[0]), idle, steps[1..], k', h', Asked(k, steps[0], asked))
  }

  lemma {:induction false} RunServed(k: Kernel, h: History, idle: TaskId, steps: seq<Step>, k': Kernel, h': History, asked: bool)
    requires Housed(k, idle) && Ordered(k) && Indexed(k) && Executes(k, h, idle, steps, k', h') && Served(k, asked)
    ensures Served(k', AskedAfter(k, h, idle, steps, k', h', asked))
    decreases |steps|
  {
    hide Do, Enabled, NextHistory, HousedMaps, Coherent, At, OrderedLists, IndexedLists, Served, Asked;
    if steps != [] {
      var s := steps[0];
      StepHoused(k, idle, s);
      StepOrdered(k, idle, s);
      StepIndexed(k, idle, s);
      StepServed(k, idle, s, asked);
      RunServed(Do(k, idle, s), NextHistory(k, h, s), idle, steps[1..], k', h', Asked(k, s, asked));
    }
  }

  lemma InitialServed(idle: TaskId)
    ensures Served(Initial(idle), false)
  {
  }

  /**
   No preemption is lost: in every run from the start of the scheduler, the running task is ready and no ready task
   outranks it, unless a yield is pending or a switch has been asked for since the last one was made.
   */
  lemma NoPreemptionLost(idle: TaskId, steps: seq<Step>, k: Kernel, h: History)
    requires Executes(Initial(idle), History(0, 0, map[]), idle, steps, k, h)
    requires !k.yieldPending && !AskedAfter(Initial(idle), History(0, 0, map[]), idle, steps, k, h, false)
    ensures RunningReady(k) && HighestIsRunning(k)
  {
    hide Executes, AskedAfter, Initial, HousedMaps, Coherent, OrderedLists, IndexedLists, Timed;
    InitialSound(idle);
    InitialServed(idle);
    RunServed(Initial(idle), History(0, 0, map[]), idle, steps, k, h, false);
  }
}
