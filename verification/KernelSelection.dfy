/**
 The two ready-priority indexes.  uxTopReadyPriority of the generic scheduler bounds every non-empty ready
 list and the bitmap of the port-optimised one has exactly the bits of the non-empty ready lists; every
 step keeps both true, so the two ways of selecting a task always select the same one, of the highest
 ready priority.
 */
module KernelSelection {
  import opened Ticks
  import opened Rings
  import opened Families
  import opened Kernels
  import opened KernelSteps

  ghost predicate IndexedLists(states: Family<StateList>, top: nat, bits: set<nat>) {
    && top < PRIORITIES
    && (forall p: nat :: At(states, Ready(p)).items != [] ==> p <= top)
    && (forall p: nat :: p in bits <==> At(states, Ready(p)).items != [])
  }

  ghost predicate Indexed(k: Kernel) {
    IndexedLists(k.states, k.top, k.bits)
  }

  /** A ready task is filed under its own priority. */
  predicate FiledByPriority(k: Kernel, t: TaskId) {
    t in k.states.home && t in k.tcbs && (k.states.home[t].Ready? ==> k.states.home[t].priority == k.tcbs[t].priority)
  }

  // ---------------------------------------------------------------------------
  // Building blocks
  // ---------------------------------------------------------------------------

  lemma UnlinkResetIndexed(k: Kernel, t: TaskId)
    requires Coherent(k) && Indexed(k) && FiledByPriority(k, t)
    ensures Indexed(UnlinkReset(k, t))
  {
    hide Take;
    var k' := UnlinkReset(k, t);
    forall p: nat
      ensures At(k'.states, Ready(p)).items != [] ==> p <= k.top
      ensures p in k'.bits <==> At(k'.states, Ready(p)).items != []
    {
      TakeAt(k.states, t, Ready(p));
    }
  }

  lemma UnlinkIndexed(k: Kernel, t: TaskId)
    requires Coherent(k) && Indexed(k) && t in k.states.home && !k.states.home[t].Ready?
    ensures Indexed(Unlink(k, t))
  {
    hide Take;
    forall p: nat
      ensures At(Unlink(k, t).states, Ready(p)) == At(k.states, Ready(p))
    {
      TakeAt(k.states, t, Ready(p));
    }
  }

  lemma MakeReadyIndexed(k: Kernel, t: TaskId)
    requires Coherent(k) && Indexed(k) && t in k.tcbs && t !in k.states.home
    ensures Indexed(MakeReady(k, t))
  {
    hide Append;
    var k' := MakeReady(k, t);
    forall p: nat
      ensures At(k'.states, Ready(p)).items != [] ==> p <= k'.top
      ensures p in k'.bits <==> At(k'.states, Ready(p)).items != []
    {
      AppendAt(k.states, Ready(k.tcbs[t].priority), t, Ready(p));
    }
  }

  lemma ParkIndexed(k: Kernel, l: StateList, t: TaskId)
    requires Coherent(k) && Indexed(k) && t in k.tcbs && t !in k.states.home && !l.Ready?
    ensures Indexed(Park(k, l, t))
  {
    hide Append;
    forall p: nat
      ensures At(Park(k, l, t).states, Ready(p)) == At(k.states, Ready(p))
    {
      AppendAt(k.states, l, t, Ready(p));
    }
  }

  lemma FileSortedIndexed(k: Kernel, l: StateList, t: TaskId)
    requires Coherent(k) && Indexed(k) && t in k.tcbs && t !in k.states.home && !l.Ready?
    ensures Indexed(FileSorted(k, l, t))
  {
    hide Place;
    var s := At(k.states, l).items;
    forall p: nat
      ensures At(FileSorted(k, l, t).states, Ready(p)) == At(k.states, Ready(p))
    {
      PlaceAt(k.states, l, Slot(Wakes(k.tcbs, s), k.tcbs[t].wake), t, Ready(p));
    }
  }

  lemma AddDelayedIndexed(k: Kernel, t: TaskId, wake: Tick)
    requires Coherent(k) && Indexed(k) && t in k.tcbs && t !in k.states.home
    ensures Indexed(AddDelayed(k, t, wake))
  {
    hide FileSorted, Consistent, At;
    var k1 := WithTcb(k, t, k.tcbs[t].(wake := wake));
    FileSortedIndexed(k1, if wake < k.tick then OverflowList(k) else DelayedList(k), t);
  }

  lemma ListHead(k: Kernel, l: StateList)
    requires Coherent(k) && At(k.states, l).items != []
    ensures var t := At(k.states, l).items[0]; t in k.states.home && t in k.tcbs && k.states.home[t] == l
  {
    assert At(k.states, l).items[0] in At(k.states, l).items;
  }

  // ---------------------------------------------------------------------------
  // Life cycle
  // ---------------------------------------------------------------------------

  lemma RelocateIndexed(k: Kernel, t: TaskId, l: StateList)
    requires Coherent(k) && Indexed(k) && FiledByPriority(k, t) && !l.Ready?
    ensures Indexed(Park(LeaveEvent(UnlinkReset(k, t), t), l, t))
  {
    hide UnlinkReset, Park, Consistent, At;
    UnlinkResetIndexed(k, t);
    ParkIndexed(LeaveEvent(UnlinkReset(k, t), t), l, t);
  }

  lemma ReadiedIndexed(k: Kernel, t: TaskId)
    requires Coherent(k) && Indexed(k) && t in k.states.home && t in k.tcbs && !k.states.home[t].Ready?
    ensures Indexed(MakeReady(Unlink(k, t), t))
  {
    hide Unlink, MakeReady, Consistent, At;
    UnlinkIndexed(k, t);
    MakeReadyIndexed(Unlink(k, t), t);
  }

  lemma LifeIndexed(k: Kernel, idle: TaskId, s: LifeStep)
    requires Housed(k, idle) && Indexed(k) && LifeEnabled(k, idle, s)
    ensures Indexed(DoLife(k, idle, s))
  {
    hide UnlinkReset, Unlink, MakeReady, Park, LeaveEvent, JoinEnd, Consistent, At, IndexedLists;
    match s
    case TaskCreate(t, p) =>
      MakeReadyIndexed(WithTcb(k, t, Tcb(p, p, 0, 0, CodedPriority(p))), t);
    case TaskDelete(t) => RelocateIndexed(k, t, Terminating);
    case IdleReap =>
      ListHead(k, Terminating);
      UnlinkIndexed(k, At(k.states, Terminating).items[0]);
    case TaskSuspend(t) => RelocateIndexed(k, t, Suspended);
    case TaskResume(t) => if IsSuspended(k, t) { ReadiedIndexed(k, t); }
    case IsrResume(t) => if IsSuspended(k, t) { ReadiedIndexed(k, t); }
  }

  // ---------------------------------------------------------------------------
  // Blocking and waking
  // ---------------------------------------------------------------------------

  lemma DelayUntilIndexed(k: Kernel, wake: Tick)
    requires Coherent(k) && Indexed(k) && FiledByPriority(k, k.current)
    ensures Indexed(DelayUntil(k, wake))
  {
    hide UnlinkReset, AddDelayed, Consistent, At;
    UnlinkResetIndexed(k, k.current);
    AddDelayedIndexed(UnlinkReset(k, k.current), k.current, wake);
  }

  lemma BlockIndexed(k: Kernel, n: Tick, forever: bool)
    requires Coherent(k) && Indexed(k) && FiledByPriority(k, k.current)
    ensures Indexed(Block(k, n, forever))
  {
    hide UnlinkReset, Park, DelayUntil, Consistent, At;
    if forever {
      UnlinkResetIndexed(k, k.current);
      ParkIndexed(UnlinkReset(k, k.current), Suspended, k.current);
    } else {
      DelayUntilIndexed(k, Add(k.tick, n));
    }
  }

  lemma WaitIndexed(k: Kernel, idle: TaskId, s: WaitStep)
    requires Housed(k, idle) && Indexed(k) && WaitEnabled(k, idle, s)
    ensures Indexed(DoWait(k, idle, s))
  {
    hide Block, DelayUntil, JoinEnd, JoinSorted, Consistent, At, IndexedLists;
    match s
    case TaskDelay(n) => DelayUntilIndexed(k, Add(k.tick, n));
    case TaskDelayUntil(wake) => DelayUntilIndexed(k, wake);
    case QueueWait(e, n) => BlockIndexed(JoinSorted(k, Event(e), k.current), n, n == MAX_DELAY);
    case GroupWait(e, v, n) =>
      var k1 := WithTcb(k, k.current, k.tcbs[k.current].(eventValue := Borrowed(v)));
      BlockIndexed(JoinEnd(k1, Event(e), k.current), n, n == MAX_DELAY);
    case DaemonWait(e, n, forever) => BlockIndexed(JoinEnd(k, Event(e), k.current), n, forever);
  }

  lemma WakeIndexed(k: Kernel, idle: TaskId, s: WakeStep)
    requires Housed(k, idle) && Indexed(k) && WakeEnabled(k, s)
    ensures Indexed(DoWake(k, idle, s))
  {
    hide Unlink, MakeReady, JoinEnd, LeaveEvent, Consistent, At, IndexedLists;
    match s
    case QueueSignal(e) =>
      EventHead(k, idle, Event(e));
      var t := At(k.events, Event(e)).items[0];
      if k.suspended == 0 { ReadiedIndexed(LeaveEvent(k, t), t); }
    case GroupSignal(t, v) =>
      var k1 := WithTcb(k, t, k.tcbs[t].(eventValue := Borrowed(v)));
      ReadiedIndexed(LeaveEvent(k1, t), t);
    case ItemReset =>
  }

  // ---------------------------------------------------------------------------
  // Time and selection
  // ---------------------------------------------------------------------------

  lemma ExpireIndexed(k: Kernel, t: TaskId)
    requires Coherent(k) && Indexed(k) && t in k.states.home && !k.states.home[t].Ready?
    ensures Indexed(Expire(k, t))
  {
    hide Unlink, MakeReady, LeaveEvent, Consistent, At;
    UnlinkIndexed(k, t);
    MakeReadyIndexed(LeaveEvent(Unlink(k, t), t), t);
  }

  lemma {:induction false} WakeDueIndexed(k: Kernel)
    requires Coherent(k) && Indexed(k)
    ensures Indexed(WakeDue(k))
    decreases |At(k.states, DelayedList(k)).items|
  {
    hide Expire, Consistent, At, IndexedLists;
    var s := At(k.states, DelayedList(k)).items;
    if s != [] {
      ExpireShrinks(k);
      ListHead(k, DelayedList(k));
      if k.tick >= k.tcbs[s[0]].wake {
        ExpireIndexed(k, s[0]);
        WakeDueIndexed(Expire(k, s[0]));
      }
    }
  }

  lemma IncrementTickIndexed(k: Kernel)
    requires Coherent(k) && Indexed(k)
    ensures Indexed(IncrementTick(k))
  {
    hide WakeDue, Consistent, At, IndexedLists;
    WakeDueIndexed(Advanced(k));
  }

  lemma {:induction false} ReplayIndexed(k: Kernel)
    requires Coherent(k) && Indexed(k) && k.suspended == 0
    ensures Indexed(Replay(k))
    decreases k.pended
  {
    hide IncrementTick, TickWantsSwitch, Coherent, IndexedLists;
    if k.pended > 0 {
      IncrementTickIndexed(k);
      ReplayKeepsRunning(k);
      ReplayIndexed(ReplayOne(k));
    }
  }

  lemma {:induction false} DrainIndexed(k: Kernel, idle: TaskId)
    requires Draining(k, idle) && Indexed(k)
    ensures Indexed(Drain(k))
    decreases |At(k.events, PendingReady).items|
  {
    hide Unlink, MakeReady, LeaveEvent, Consistent, At, IndexedLists;
    if At(k.events, PendingReady).items != [] {
      PendingHead(k);
      var t := At(k.events, PendingReady).items[0];
      ReadiedIndexed(LeaveEvent(k, t), t);
      DrainIndexed(DrainOne(k), idle);
    }
  }

  lemma ResumeAllIndexed(k: Kernel, idle: TaskId)
    requires Housed(k, idle) && Indexed(k) && k.suspended > 0
    ensures Indexed(ResumeAll(k))
  {
    hide Drain, Replay, Consistent, At, IndexedLists;
    if k.suspended == 1 {
      DrainIndexed(k.(suspended := 0), idle);
      ReplayIndexed(Drain(k.(suspended := 0)));
    }
  }

  /** Selecting a task turns the index of one list: nothing enters or leaves. */
  lemma AdvanceItems(k: Kernel, l: StateList, m: StateList)
    requires Coherent(k) && At(k.states, l).items != []
    ensures At(Advance(k.states, l), m).items == At(k.states, m).items
  {
  }

  /** So does a report, of every list that holds a task. */
  lemma ReportedAt(k: Kernel, l: StateList)
    requires Coherent(k)
    ensures At(ReportAll(k).states, l) == if l in AllLists(k) && At(k.states, l).items != [] then Next(At(k.states, l)) else At(k.states, l)
    ensures At(ReportAll(k).states, l).items == At(k.states, l).items
  {
    TurnedAt(k.states, AllLists(k), l);
  }

  lemma ReportIndexed(k: Kernel)
    requires Coherent(k) && Indexed(k)
    ensures Indexed(ReportAll(k))
  {
    hide ReportAll, AllLists, Consistent;
    forall p: nat
      ensures At(ReportAll(k).states, Ready(p)).items == At(k.states, Ready(p)).items
    {
      ReportedAt(k, Ready(p));
    }
  }

  lemma SwitchIndexed(k: Kernel)
    requires Coherent(k) && Indexed(k) && ClockEnabled(k, ContextSwitch)
    ensures Indexed(SwitchContext(k))
  {
    hide Advance, Consistent, At;
    if k.suspended == 0 {
      var p := ScanDown(k.states, k.top);
      forall q: nat
        ensures At(SwitchContext(k).states, Ready(q)).items == ReadyAt(k, q).items
        ensures ReadyAt(k, q).items != [] ==> q <= p
        ensures q in k.bits <==> ReadyAt(k, q).items != []
      {
        AdvanceItems(k, Ready(p), Ready(q));
      }
    }
  }

  lemma ClockIndexed(k: Kernel, idle: TaskId, s: ClockStep)
    requires Housed(k, idle) && Indexed(k) && ClockEnabled(k, s)
    ensures Indexed(DoClock(k, idle, s))
  {
    hide IncrementTick, ResumeAll, SwitchContext, ReportAll, Consistent, At, IndexedLists;
    match s
    case TickInterrupt => IncrementTickIndexed(k);
    case SchedulerResume => ResumeAllIndexed(k, idle);
    case ContextSwitch => SwitchIndexed(k);
    case SystemReport => ReportIndexed(k);
    case _ =>
  }

  // ---------------------------------------------------------------------------
  // Priorities
  // ---------------------------------------------------------------------------

  lemma RefileIndexed(k: Kernel, t: TaskId, tcb: Tcb)
    requires Coherent(k) && Indexed(k) && t in k.tcbs && tcb.priority < PRIORITIES && tcb.base < PRIORITIES
    ensures Indexed(Refile(k, t, tcb))
  {
    hide UnlinkReset, MakeReady, Consistent, At, IndexedLists;
    if t in k.states.home && k.states.home[t] == Ready(k.tcbs[t].priority) {
      UnlinkResetIndexed(k, t);
      MakeReadyIndexed(WithTcb(UnlinkReset(k, t), t, tcb), t);
    }
  }

  lemma DisinheritIndexed(k: Kernel, t: TaskId)
    requires Coherent(k) && Indexed(k) && FiledByPriority(k, t) && k.tcbs[t].held > 0
    ensures Indexed(Disinherit(k, t))
  {
    hide UnlinkReset, MakeReady, Consistent, At, IndexedLists;
    var tcb := k.tcbs[t].(held := k.tcbs[t].held - 1);
    var k1 := WithTcb(k, t, tcb);
    if tcb.priority != tcb.base && tcb.held == 0 {
      UnlinkResetIndexed(k1, t);
      MakeReadyIndexed(WithTcb(UnlinkReset(k1, t), t,
                               tcb.(priority := tcb.base, eventValue := CodedPriority(tcb.base))), t);
    }
  }

  lemma RankIndexed(k: Kernel, idle: TaskId, s: RankStep)
    requires Housed(k, idle) && Indexed(k) && RankEnabled(k, s)
    ensures Indexed(DoRank(k, idle, s))
  {
    hide Refile, Disinherit, Consistent, At, IndexedLists;
    match s
    case PriorityChange(t, requested) =>
      var p := Clamped(requested);
      var tcb := k.tcbs[t];
      RefileIndexed(k, t, tcb.(priority := if tcb.base == tcb.priority then p else tcb.priority, base := p,
                               eventValue := Recoded(tcb.eventValue, p)));
    case PriorityInherit(t) =>
      var p := k.tcbs[k.current].priority;
      RefileIndexed(k, t, k.tcbs[t].(priority := p, eventValue := Recoded(k.tcbs[t].eventValue, p)));
    case PriorityDisinherit => DisinheritIndexed(k, k.current);
    case MutexTaken =>
  }

  lemma StepIndexed(k: Kernel, idle: TaskId, s: Step)
    requires Housed(k, idle) && Indexed(k) && Enabled(k, idle, s)
    ensures Indexed(Do(k, idle, s))
  {
    hide DoLife, DoWait, DoWake, DoClock, DoRank, Housed, Indexed;
    match s
    case Life(l) => LifeIndexed(k, idle, l);
    case Wait(w) => WaitIndexed(k, idle, w);
    case Wake(w) => WakeIndexed(k, idle, w);
    case Clock(c) => ClockIndexed(k, idle, c);
    case Rank(r) => RankIndexed(k, idle, r);
  }

  // ---------------------------------------------------------------------------
  // What is selected
  // ---------------------------------------------------------------------------

  /** portGET_HIGHEST_PRIORITY: the most significant set bit below a bound. */
  function HighestBit(bits: set<nat>, bound: nat): (p: nat)
    requires exists b :: b in bits && b < bound
    ensures p in bits && p < bound && forall b :: b in bits && b < bound ==> b <= p
  {
    if bound - 1 in bits then bound - 1 else HighestBit(bits, bound - 1)
  }

  /** A context switch is always possible, because the idle task is always ready. */
  lemma SwitchAlwaysEnabled(k: Kernel, idle: TaskId)
    requires Housed(k, idle) && Indexed(k)
    ensures ClockEnabled(k, ContextSwitch)
  {
    var p := k.states.home[idle].priority;
    assert idle in ReadyAt(k, p).items;
  }

  /** Both indexes lead to the same list: the non-empty ready list of the highest priority. */
  lemma IndexesAgree(k: Kernel, idle: TaskId)
    requires Housed(k, idle) && Indexed(k)
    ensures exists b :: b in k.bits && b < PRIORITIES
    ensures ScanDown(k.states, k.top) == HighestBit(k.bits, PRIORITIES)
    ensures forall t :: t in k.states.home && k.states.home[t].Ready? ==> k.tcbs[t].priority <= ScanDown(k.states, k.top)
  {
    SwitchAlwaysEnabled(k, idle);
    var p := ScanDown(k.states, k.top);
    assert p in k.bits && p < PRIORITIES;
    var b := HighestBit(k.bits, PRIORITIES);
    assert ReadyAt(k, b).items != [];
    forall t | t in k.states.home && k.states.home[t].Ready?
      ensures k.tcbs[t].priority <= p
    {
      assert t in ReadyAt(k, k.tcbs[t].priority).items;
    }
  }

  /** After a context switch the running task is ready and no ready task has a higher priority. */
  lemma HighestRuns(k: Kernel, idle: TaskId)
    requires Housed(k, idle) && Indexed(k) && k.suspended == 0
    ensures ClockEnabled(k, ContextSwitch)
    ensures var k' := SwitchContext(k);
            && k'.current in k.states.home && k.states.home[k'.current].Ready?
            && k'.states.home == k.states.home && k'.tcbs == k.tcbs
            && forall t :: t in k.states.home && k.states.home[t].Ready?
                           ==> k.tcbs[t].priority <= k.tcbs[k'.current].priority
  {
    hide Advance, Consistent, At;
    SwitchAlwaysEnabled(k, idle);
    IndexesAgree(k, idle);
    SelectedIn(k, Ready(ScanDown(k.states, k.top)));
  }

  /** No ready task outranks the running one. */
  ghost predicate HighestIsRunning(k: Kernel) {
    k.current in k.tcbs && forall t :: t in k.states.home && k.states.home[t].Ready? && t in k.tcbs
                                       ==> k.tcbs[t].priority <= k.tcbs[k.current].priority
  }

  /** A priority change that leaves the running task outranked yields, so that no switch is missed. */
  lemma ChangeYieldsWhenOutranked(k: Kernel, idle: TaskId, t: TaskId, requested: nat)
    requires Housed(k, idle) && HighestIsRunning(k) && t in k.tcbs
    ensures HighestIsRunning(PrioritySet(k, t, requested)) || ChangeYields(k, t, requested)
  {
    hide Refile, Consistent, At;
  }
}
