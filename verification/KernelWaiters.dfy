/**
 Event lists of queues: waiters join in order of coded priority, so the head is a waiter of the highest
 priority, as long as the codes are right and none is rewritten out of order.  Two steps of the kernel can break
 that, and each is told by a guard that can be looked up before it: a priority change of a task that inherits
 leaves a code that is not its priority, and a change of a waiter's priority rewrites its code in place.
 */
module KernelWaiters {
  import opened Ticks
  import opened Rings
  import opened Families
  import opened Kernels
  import opened KernelSteps
  import opened KernelSelection
  import opened KernelTime
  import opened KernelRuns

  ghost predicate InPriorityOrder(tcbs: map<TaskId, Tcb>, r: Ring<TaskId>) {
    Sorted(EventValues(tcbs, r.items))
  }

  /** Joining keeps the order, and a waiter joins behind those of its own priority. */
  lemma JoinKeepsOrder(k: Kernel, e: EventList, t: TaskId)
    requires Coherent(k) && t in k.tcbs && t !in k.events.home && InPriorityOrder(k.tcbs, At(k.events, e))
    ensures InPriorityOrder(k.tcbs, At(JoinSorted(k, e, t).events, e))
    ensures forall u :: u in At(k.events, e).items && u in k.tcbs
                        && k.tcbs[u].eventValue.value <= k.tcbs[t].eventValue.value
                        ==> IndexOf(At(JoinSorted(k, e, t).events, e).items, u) < IndexOf(At(JoinSorted(k, e, t).events, e).items, t)
  {
    hide Place;
    var s, v := At(k.events, e).items, k.tcbs[t].eventValue.value;
    var values := EventValues(k.tcbs, s);
    var p := Slot(values, v);
    PlaceAt(k.events, e, p, t, e);
    InsertSortedStable(values, v);
    ValuesInserted(k.tcbs, s, p, t);
    var s' := InsertAt(s, p, t);
    InsertDistinct(s, p, t);
    IndexOfUnique(s', t, p);
    forall u | u in s && u in k.tcbs && k.tcbs[u].eventValue.value <= v
      ensures IndexOf(s', u) < p
    {
      var i := IndexOf(s, u);
      assert values[i] <= v;
      IndexOfUnique(s', u, i);
    }
  }

  lemma ValuesInserted(tcbs: map<TaskId, Tcb>, s: seq<TaskId>, p: nat, t: TaskId)
    requires p <= |s|
    ensures EventValues(tcbs, InsertAt(s, p, t)) == InsertAt(EventValues(tcbs, s), p, EventValueOf(tcbs, t))
  {
    assert forall i :: 0 <= i < |s| + 1 ==>
             EventValues(tcbs, InsertAt(s, p, t))[i] == InsertAt(EventValues(tcbs, s), p, EventValueOf(tcbs, t))[i];
  }

  /** Leaving, at the head or anywhere else, keeps the order. */
  lemma LeaveKeepsOrder(k: Kernel, e: EventList, t: TaskId)
    requires Coherent(k) && InPriorityOrder(k.tcbs, At(k.events, e))
    ensures InPriorityOrder(k.tcbs, At(LeaveEvent(k, t).events, e))
    ensures forall u :: u in At(LeaveEvent(k, t).events, e).items <==> u in At(k.events, e).items && u != t
  {
    hide Take;
    var s := At(k.events, e).items;
    if t in k.events.home {
      TakeAt(k.events, t, e);
      if e == k.events.home[t] {
        var p := IndexOf(s, t);
        DropSorted(EventValues(k.tcbs, s), p);
        assert EventValues(k.tcbs, DropAt(s, p)) == DropAt(EventValues(k.tcbs, s), p);
        TakenRing(At(k.events, e), p);
      }
    }
  }

  /** Rewriting one waiter's value leaves the list in order exactly when the new value fits between its neighbours. */
  lemma RewriteKeepsOrder(values: seq<nat>, p: nat, v: nat)
    requires p < |values| && Sorted(values)
    ensures Sorted(values[p := v])
            <==> (p == 0 || values[p - 1] <= v) && (p + 1 == |values| || v <= values[p + 1])
  {
    var values' := values[p := v];
    if Sorted(values') {
      assert p == 0 || values'[p - 1] <= values'[p];
      assert p + 1 == |values| || values'[p] <= values'[p + 1];
    }
  }

  lemma ListDistinct(k: Kernel, e: EventList)
    requires Coherent(k)
    ensures Distinct(At(k.events, e).items)
    ensures forall t :: t in At(k.events, e).items <==> t in k.events.home && k.events.home[t] == e
  {
  }

  /** vTaskPrioritySet rewrites exactly the value of the task it is about, wherever the task waits. */
  lemma PrioritySetRewrites(k: Kernel, e: EventList, t: TaskId, requested: nat)
    requires Coherent(k) && t in k.tcbs && t in At(k.events, e).items && requested < PRIORITIES
    requires k.tcbs[t].eventValue.Coded? && k.tcbs[t].base != requested
    ensures var k' := PrioritySet(k, t, requested);
            var s := At(k.events, e).items;
            At(k'.events, e) == At(k.events, e)
            && EventValues(k'.tcbs, s) == EventValues(k.tcbs, s)[IndexOf(s, t) := PRIORITIES - requested]
  {
    hide Refile, Consistent;
    var s := At(k.events, e).items;
    var k' := PrioritySet(k, t, requested);
    assert Distinct(s) by { ListDistinct(k, e); }
    forall i | 0 <= i < |s|
      ensures EventValues(k'.tcbs, s)[i] == EventValues(k.tcbs, s)[IndexOf(s, t) := PRIORITIES - requested][i]
    {
      assert i != IndexOf(s, t) ==> s[i] != t;
    }
  }

  // ---------------------------------------------------------------------------
  // Codes
  // ---------------------------------------------------------------------------

  /** An item that codes a priority codes that of its task. */
  ghost predicate Codes(tcb: Tcb) {
    tcb.eventValue.Coded? ==> tcb.priority < PRIORITIES && tcb.eventValue == CodedPriority(tcb.priority)
  }

  ghost predicate AllCoded(tcbs: map<TaskId, Tcb>) {
    forall t :: t in tcbs ==> Codes(tcbs[t])
  }

  /** The one step that leaves a wrong code: a new base for a task that inherits, other than what it runs at. */
  predicate Miscodes(tcbs: map<TaskId, Tcb>, s: Step) {
    match s
    case Rank(PriorityChange(t, requested)) =>
      && t in tcbs && tcbs[t].eventValue.Coded?
      && tcbs[t].base != tcbs[t].priority && Clamped(requested) != tcbs[t].base && Clamped(requested) != tcbs[t].priority
    case _ => false
  }

  lemma PriorityChangeCoded(k: Kernel, t: TaskId, requested: nat)
    requires Coherent(k) && t in k.tcbs && AllCoded(k.tcbs)
    ensures AllCoded(PrioritySet(k, t, requested).tcbs) <==> !Miscodes(k.tcbs, Rank(PriorityChange(t, requested)))
  {
    hide Refile, Consistent, At;
    var k' := PrioritySet(k, t, requested);
    assert t in k'.tcbs && (AllCoded(k'.tcbs) ==> Codes(k'.tcbs[t]));
  }

  lemma LifeCoded(k: Kernel, idle: TaskId, s: LifeStep)
    requires Housed(k, idle) && LifeEnabled(k, idle, s) && AllCoded(k.tcbs)
    ensures AllCoded(DoLife(k, idle, s).tcbs)
  {
    hide Create, Delete, Suspend, Reap, Resume, ResumeFromISR, Consistent, At;
  }

  lemma WaitCoded(k: Kernel, idle: TaskId, s: WaitStep)
    requires Housed(k, idle) && WaitEnabled(k, idle, s) && AllCoded(k.tcbs)
    ensures AllCoded(DoWait(k, idle, s).tcbs)
  {
    hide DelayUntil, PlaceOnEventList, PlaceOnUnorderedEventList, PlaceOnEventListRestricted, Consistent, At;
  }

  lemma WakeCoded(k: Kernel, idle: TaskId, s: WakeStep)
    requires Housed(k, idle) && WakeEnabled(k, s) && AllCoded(k.tcbs)
    ensures AllCoded(DoWake(k, idle, s).tcbs)
  {
    hide RemoveFromEventList, RemoveFromUnorderedEventList, Consistent, At;
    if s.QueueSignal? {
      EventHead(k, idle, Event(s.e));
    }
  }

  /** No step of the clock touches a control block. */
  lemma ClockTcbs(k: Kernel, idle: TaskId, s: ClockStep)
    requires Housed(k, idle) && ClockEnabled(k, s)
    ensures DoClock(k, idle, s).tcbs == k.tcbs
  {
    hide IncrementTick, Drain, Replay, ResetNextUnblock, Advance, ReportAll, ScanDown, Consistent, At;
    ResetOnly(k);
  }

  lemma RankCoded(k: Kernel, idle: TaskId, s: RankStep)
    requires Housed(k, idle) && RankEnabled(k, s) && AllCoded(k.tcbs) && !s.PriorityChange?
    ensures AllCoded(DoRank(k, idle, s).tcbs)
  {
    hide Refile, Disinherit, Consistent, At;
  }

  /** Every step keeps the codes right, with exactly that one exception. */
  lemma StepCoded(k: Kernel, idle: TaskId, s: Step)
    requires Housed(k, idle) && Enabled(k, idle, s) && AllCoded(k.tcbs)
    ensures AllCoded(Do(k, idle, s).tcbs) <==> !Miscodes(k.tcbs, s)
  {
    hide DoLife, DoWait, DoWake, DoClock, DoRank, AllCoded, HousedMaps, Consistent, At;
    match s
    case Life(l) => LifeCoded(k, idle, l);
    case Wait(w) => WaitCoded(k, idle, w);
    case Wake(w) => WakeCoded(k, idle, w);
    case Clock(c) => ClockTcbs(k, idle, c);
    case Rank(r) => RankStepCoded(k, idle, r);
  }

  lemma RankStepCoded(k: Kernel, idle: TaskId, s: RankStep)
    requires Housed(k, idle) && RankEnabled(k, s) && AllCoded(k.tcbs)
    ensures AllCoded(DoRank(k, idle, s).tcbs) <==> !Miscodes(k.tcbs, Rank(s))
  {
    hide PrioritySet, Inherit, Disinherit, AllCoded, HousedMaps, Consistent, At;
    if s.PriorityChange? {
      PriorityChangeCoded(k, s.t, s.priority);
    } else {
      RankCoded(k, idle, s);
    }
  }

  // ---------------------------------------------------------------------------
  // Order
  // ---------------------------------------------------------------------------

  ghost predicate InOrder(k: Kernel, e: nat) {
    InPriorityOrder(k.tcbs, At(k.events, Event(e)))
  }

  /** Those who wait in the list have items that code a priority. */
  ghost predicate WaitersCoded(k: Kernel, e: nat) {
    forall t :: t in k.events.home && k.events.home[t] == Event(e) ==> t in k.tcbs && k.tcbs[t].eventValue.Coded?
  }

  /**
   List e belongs to a queue: event groups have lists of their own, a task that joins has had its item given back,
   and the daemon, which joins without looking for its place, waits for its commands alone.
   */
  predicate ForQueue(k: Kernel, s: Step, e: nat) {
    match s
    case Wait(GroupWait(f, _, _)) => f != e
    case Wait(QueueWait(f, _)) => f == e ==> k.current in k.tcbs && k.tcbs[k.current].eventValue.Coded?
    case Wait(DaemonWait(f, _, _)) =>
      f == e ==> k.current in k.tcbs && k.tcbs[k.current].eventValue.Coded? && At(k.events, Event(e)).items == []
    case _ => true
  }

  /** The task whose item a step rewrites where it is, and the new value. */
  datatype Rewrite = NoRewrite | Rewritten(task: TaskId, value: nat)

  function RewriteBy(k: Kernel, s: Step): Rewrite {
    match s
    case Rank(PriorityChange(t, requested)) =>
      if t in k.tcbs && k.tcbs[t].eventValue.Coded? && k.tcbs[t].base != Clamped(requested)
      then Rewritten(t, PRIORITIES - Clamped(requested)) else NoRewrite
    case Rank(PriorityInherit(t)) =>
      if t in k.tcbs && k.current in k.tcbs && k.tcbs[t].eventValue.Coded?
         && k.tcbs[t].priority < k.tcbs[k.current].priority < PRIORITIES
      then Rewritten(t, PRIORITIES - k.tcbs[k.current].priority) else NoRewrite
    case Wake(ItemReset) =>
      if k.current in k.tcbs && k.tcbs[k.current].priority < PRIORITIES
      then Rewritten(k.current, PRIORITIES - k.tcbs[k.current].priority) else NoRewrite
    case _ => NoRewrite
  }

  /** The new value of a waiter's item fits between its neighbours. */
  predicate Fits(k: Kernel, s: Step, e: nat) {
    var w, items := RewriteBy(k, s), At(k.events, Event(e)).items;
    w.Rewritten? && w.task in items ==>
      var values, p := EventValues(k.tcbs, items), IndexOf(items, w.task);
      (p == 0 || values[p - 1] <= w.value) && (p + 1 == |values| || w.value <= values[p + 1])
  }

  /** The same waiters with the same values are in the same order. */
  lemma SameWaiters(k: Kernel, k': Kernel, e: nat)
    requires At(k'.events, Event(e)).items == At(k.events, Event(e)).items
    requires forall t :: t in At(k.events, Event(e)).items ==> EventValueOf(k'.tcbs, t) == EventValueOf(k.tcbs, t)
    ensures InOrder(k', e) <==> InOrder(k, e)
  {
    assert EventValues(k'.tcbs, At(k'.events, Event(e)).items) == EventValues(k.tcbs, At(k.events, Event(e)).items);
  }

  lemma LeaveInOrder(k: Kernel, e: nat, t: TaskId)
    requires Coherent(k) && InOrder(k, e)
    ensures InOrder(LeaveEvent(k, t), e)
  {
    LeaveKeepsOrder(k, Event(e), t);
  }

  /** Control blocks of tasks that do not wait in the list do not matter. */
  lemma StrangerInOrder(k: Kernel, t: TaskId, tcb: Tcb, e: nat)
    requires InOrder(k, e) && t !in At(k.events, Event(e)).items
    ensures InOrder(k.(tcbs := k.tcbs[t := tcb]), e)
  {
    SameWaiters(k, k.(tcbs := k.tcbs[t := tcb]), e);
  }

  lemma PendingElsewhere(k: Kernel, t: TaskId, e: nat)
    requires Coherent(k) && t in k.tcbs && t !in k.events.home
    ensures At(JoinEnd(k, PendingReady, t).events, Event(e)) == At(k.events, Event(e))
  {
    hide Append;
    AppendAt(k.events, PendingReady, t, Event(e));
  }

  lemma LifeInOrder(k: Kernel, idle: TaskId, s: LifeStep, e: nat)
    requires Housed(k, idle) && LifeEnabled(k, idle, s) && InOrder(k, e)
    ensures InOrder(DoLife(k, idle, s), e)
  {
    hide UnlinkReset, Unlink, MakeReady, Park, LeaveEvent, JoinEnd, Consistent, At;
    var k' := DoLife(k, idle, s);
    match s
    case TaskCreate(t, q) =>
      ListDistinct(k, Event(e));
      SameWaiters(k, k', e);
    case TaskDelete(t) => LeaveInOrder(UnlinkReset(k, t), e, t);
    case IdleReap =>
      ListDistinct(k, Event(e));
      ListHead(k, Terminating);
      SameWaiters(k, k', e);
    case TaskSuspend(t) => LeaveInOrder(UnlinkReset(k, t), e, t);
    case TaskResume(t) =>
    case IsrResume(t) => if IsSuspended(k, t) && k.suspended > 0 { PendingElsewhere(k, t, e); }
  }

  lemma JoinInOrder(k: Kernel, f: nat, t: TaskId, e: nat)
    requires Coherent(k) && t in k.tcbs && t !in k.events.home && InOrder(k, e)
    ensures InOrder(JoinSorted(k, Event(f), t), e)
  {
    hide Place;
    if f == e {
      JoinKeepsOrder(k, Event(e), t);
    } else {
      PlaceAt(k.events, Event(f), Slot(EventValues(k.tcbs, At(k.events, Event(f)).items), k.tcbs[t].eventValue.value), t, Event(e));
    }
  }

  lemma JoinEndInOrder(k: Kernel, f: nat, t: TaskId, e: nat)
    requires Coherent(k) && t in k.tcbs && t !in k.events.home && InOrder(k, e)
    requires f == e ==> At(k.events, Event(e)).items == []
    ensures InOrder(JoinEnd(k, Event(f), t), e)
  {
    hide Append;
    AppendAt(k.events, Event(f), t, Event(e));
  }

  /** Blocking leaves the event lists alone and only sets a wake time. */
  lemma BlockInOrder(k: Kernel, n: Tick, forever: bool, e: nat)
    requires Coherent(k) && k.current in k.states.home && InOrder(k, e)
    ensures InOrder(Block(k, n, forever), e)
  {
    hide Block, Consistent, At;
    SameWaiters(k, Block(k, n, forever), e);
  }

  lemma WaitInOrder(k: Kernel, idle: TaskId, s: WaitStep, e: nat)
    requires Housed(k, idle) && WaitEnabled(k, idle, s) && InOrder(k, e) && ForQueue(k, Wait(s), e)
    ensures InOrder(DoWait(k, idle, s), e)
  {
    hide Block, DelayUntil, JoinEnd, JoinSorted, Consistent, At;
    match s
    case TaskDelay(n) => SameWaiters(k, DoWait(k, idle, s), e);
    case TaskDelayUntil(wake) => SameWaiters(k, DoWait(k, idle, s), e);
    case QueueWait(f, n) =>
      JoinInOrder(k, f, k.current, e);
      BlockInOrder(JoinSorted(k, Event(f), k.current), n, n == MAX_DELAY, e);
    case GroupWait(f, v, n) =>
      var tcb := k.tcbs[k.current].(eventValue := Borrowed(v));
      var k1 := WithTcb(k, k.current, tcb);
      ListDistinct(k, Event(e));
      StrangerInOrder(k, k.current, tcb, e);
      JoinEndInOrder(k1, f, k.current, e);
      BlockInOrder(JoinEnd(k1, Event(f), k.current), n, n == MAX_DELAY, e);
    case DaemonWait(f, n, forever) =>
      JoinEndInOrder(k, f, k.current, e);
      BlockInOrder(JoinEnd(k, Event(f), k.current), n, forever, e);
  }

  lemma SignalInOrder(k: Kernel, idle: TaskId, s: WakeStep, e: nat)
    requires Housed(k, idle) && WakeEnabled(k, s) && InOrder(k, e) && !s.ItemReset?
    ensures InOrder(DoWake(k, idle, s), e)
  {
    hide Unlink, MakeReady, JoinEnd, LeaveEvent, Consistent, At;
    match s
    case QueueSignal(f) =>
      EventHead(k, idle, Event(f));
      var t := At(k.events, Event(f)).items[0];
      LeaveInOrder(k, e, t);
      if k.suspended > 0 { PendingElsewhere(LeaveEvent(k, t), t, e); }
    case GroupSignal(t, v) =>
      var tcb := k.tcbs[t].(eventValue := Borrowed(v));
      LeaveInOrder(k, e, t);
      ListDistinct(LeaveEvent(k, t), Event(e));
      StrangerInOrder(LeaveEvent(k, t), t, tcb, e);
      LeaveIgnoresTcb(k, t, tcb);
    case _ =>
  }

  lemma LeaveIgnoresTcb(k: Kernel, t: TaskId, tcb: Tcb)
    requires Coherent(k) && t in k.tcbs && tcb.priority < PRIORITIES && tcb.base < PRIORITIES
    ensures LeaveEvent(WithTcb(k, t, tcb), t).events == LeaveEvent(k, t).events
  {
  }

  lemma {:induction false} WakeDueInOrder(k: Kernel, e: nat)
    requires Coherent(k) && InOrder(k, e)
    ensures InOrder(WakeDue(k), e)
    decreases |At(k.states, DelayedList(k)).items|
  {
    hide Unlink, MakeReady, LeaveEvent, Consistent, At, InPriorityOrder;
    var s := At(k.states, DelayedList(k)).items;
    if s != [] {
      ExpireShrinks(k);
      ListHead(k, DelayedList(k));
      if k.tick >= k.tcbs[s[0]].wake {
        LeaveInOrder(Unlink(k, s[0]), e, s[0]);
        WakeDueInOrder(Expire(k, s[0]), e);
      }
    }
  }

  lemma TickInOrder(k: Kernel, e: nat)
    requires Coherent(k) && InOrder(k, e)
    ensures InOrder(IncrementTick(k), e)
  {
    hide WakeDue, Consistent, At, InPriorityOrder;
    WakeDueInOrder(Advanced(k), e);
  }

  lemma {:induction false} ReplayInOrder(k: Kernel, e: nat)
    requires Coherent(k) && k.suspended == 0 && InOrder(k, e)
    ensures InOrder(Replay(k), e)
    decreases k.pended
  {
    hide IncrementTick, TickWantsSwitch, Coherent, At, InPriorityOrder;
    if k.pended > 0 {
      TickInOrder(k, e);
      ReplayKeepsRunning(k);
      ReplayInOrder(ReplayOne(k), e);
    }
  }

  lemma {:induction false} DrainInOrder(k: Kernel, e: nat)
    requires Coherent(k) && PendingHoused(k) && InOrder(k, e)
    ensures InOrder(Drain(k), e)
    decreases |At(k.events, PendingReady).items|
  {
    hide Unlink, MakeReady, LeaveEvent, Consistent, At, InPriorityOrder;
    if At(k.events, PendingReady).items != [] {
      PendingHead(k);
      LeaveInOrder(k, e, At(k.events, PendingReady).items[0]);
      DrainInOrder(DrainOne(k), e);
    }
  }

  lemma ClockInOrder(k: Kernel, idle: TaskId, s: ClockStep, e: nat)
    requires Housed(k, idle) && ClockEnabled(k, s) && InOrder(k, e)
    ensures InOrder(DoClock(k, idle, s), e)
  {
    hide IncrementTick, Drain, Replay, ResetNextUnblock, Advance, ReportAll, ScanDown, Consistent, At, InPriorityOrder;
    match s
    case TickInterrupt => TickInOrder(k, e);
    case SchedulerResume =>
      if k.suspended == 1 {
        DrainInOrder(k.(suspended := 0), e);
        ReplayInOrder(Drain(k.(suspended := 0)), e);
      }
    case UnblockReset => ResetOnly(k);
    case _ =>
  }

  /** A rewritten value decides the order exactly; nothing else about the control blocks matters. */
  lemma RewrittenInOrder(k: Kernel, k': Kernel, s: Step, e: nat)
    requires Coherent(k) && InOrder(k, e) && At(k'.events, Event(e)).items == At(k.events, Event(e)).items
    requires forall t :: t in At(k.events, Event(e)).items ==>
               EventValueOf(k'.tcbs, t) == if RewriteBy(k, s).Rewritten? && RewriteBy(k, s).task == t
                                           then RewriteBy(k, s).value else EventValueOf(k.tcbs, t)
    ensures InOrder(k', e) <==> Fits(k, s, e)
  {
    hide RewriteBy;
    var w, items := RewriteBy(k, s), At(k.events, Event(e)).items;
    ListDistinct(k, Event(e));
    if w.Rewritten? && w.task in items {
      var p := IndexOf(items, w.task);
      assert forall i :: 0 <= i < |items| && i != p ==> items[i] != w.task;
      assert EventValues(k'.tcbs, items) == EventValues(k.tcbs, items)[p := w.value];
      RewriteKeepsOrder(EventValues(k.tcbs, items), p, w.value);
    } else {
      SameWaiters(k, k', e);
    }
  }

  lemma RankInOrder(k: Kernel, idle: TaskId, s: RankStep, e: nat)
    requires Housed(k, idle) && RankEnabled(k, s) && InOrder(k, e)
    ensures InOrder(DoRank(k, idle, s), e) <==> Fits(k, Rank(s), e)
  {
    hide Refile, Disinherit, Consistent, At, InPriorityOrder, Fits;
    ListDistinct(k, Event(e));
    RewrittenInOrder(k, DoRank(k, idle, s), Rank(s), e);
  }

  lemma ResetInOrder(k: Kernel, e: nat)
    requires Coherent(k) && InOrder(k, e)
    ensures InOrder(ResetEventValue(k), e) <==> Fits(k, Wake(ItemReset), e)
  {
    hide Consistent, At, InPriorityOrder, Fits;
    RewrittenInOrder(k, ResetEventValue(k), Wake(ItemReset), e);
  }

  /**
   Every step keeps the list of a queue in order, exactly unless it rewrites the item of a waiter with a value that
   does not fit where the waiter stands.
   */
  lemma StepInOrder(k: Kernel, idle: TaskId, s: Step, e: nat)
    requires Housed(k, idle) && Enabled(k, idle, s) && InOrder(k, e) && ForQueue(k, s, e)
    ensures InOrder(Do(k, idle, s), e) <==> Fits(k, s, e)
  {
    hide DoLife, DoWait, DoClock, DoRank, RemoveFromEventList, RemoveFromUnorderedEventList, HousedMaps, Consistent, At, InPriorityOrder;
    match s
    case Life(l) => LifeInOrder(k, idle, l, e);
    case Wait(w) => WaitInOrder(k, idle, w, e);
    case Wake(w) => if w.ItemReset? { ResetInOrder(k, e); } else { SignalInOrder(k, idle, w, e); }
    case Clock(c) => ClockInOrder(k, idle, c, e);
    case Rank(r) => RankInOrder(k, idle, r, e);
  }

  // ---------------------------------------------------------------------------
  // Waiters have codes
  // ---------------------------------------------------------------------------

  /** Nobody joins an event list. */
  ghost predicate OnlyLeave(home: map<TaskId, EventList>, home': map<TaskId, EventList>) {
    forall t :: t in home' ==> t in home && home'[t] == home[t]
  }

  lemma {:induction false} WakeDueOnlyLeaves(k: Kernel)
    requires Coherent(k)
    ensures OnlyLeave(k.events.home, WakeDue(k).events.home)
    decreases |At(k.states, DelayedList(k)).items|
  {
    hide Expire, Consistent, At;
    var s := At(k.states, DelayedList(k)).items;
    if s != [] {
      ExpireShrinks(k);
      ListHead(k, DelayedList(k));
      if k.tick >= k.tcbs[s[0]].wake {
        WakeDueOnlyLeaves(Expire(k, s[0]));
      }
    }
  }

  lemma TickOnlyLeaves(k: Kernel)
    requires Coherent(k)
    ensures OnlyLeave(k.events.home, IncrementTick(k).events.home)
  {
    hide WakeDue, Consistent, At;
    WakeDueOnlyLeaves(Advanced(k));
  }

  lemma {:induction false} ReplayOnlyLeaves(k: Kernel)
    requires Coherent(k) && k.suspended == 0
    ensures OnlyLeave(k.events.home, Replay(k).events.home)
    decreases k.pended
  {
    hide IncrementTick, TickWantsSwitch, Coherent, At;
    if k.pended > 0 {
      TickOnlyLeaves(k);
      ReplayKeepsRunning(k);
      ReplayOnlyLeaves(ReplayOne(k));
    }
  }

  lemma {:induction false} DrainOnlyLeaves(k: Kernel)
    requires Coherent(k) && PendingHoused(k)
    ensures OnlyLeave(k.events.home, Drain(k).events.home)
    decreases |At(k.events, PendingReady).items|
  {
    hide Unlink, MakeReady, LeaveEvent, Consistent, At;
    if At(k.events, PendingReady).items != [] {
      PendingHead(k);
      DrainOnlyLeaves(DrainOne(k));
    }
  }

  lemma ClockOnlyLeaves(k: Kernel, idle: TaskId, s: ClockStep)
    requires Housed(k, idle) && ClockEnabled(k, s)
    ensures OnlyLeave(k.events.home, DoClock(k, idle, s).events.home)
  {
    hide IncrementTick, Drain, Replay, ResetNextUnblock, Advance, ReportAll, ScanDown, Consistent, At;
    match s
    case TickInterrupt => TickOnlyLeaves(k);
    case SchedulerResume =>
      if k.suspended == 1 {
        DrainOnlyLeaves(k.(suspended := 0));
        ReplayOnlyLeaves(Drain(k.(suspended := 0)));
      }
    case UnblockReset => ResetOnly(k);
    case _ =>
  }

  lemma LifeWaitersCoded(k: Kernel, idle: TaskId, s: LifeStep, e: nat)
    requires Housed(k, idle) && LifeEnabled(k, idle, s) && WaitersCoded(k, e)
    ensures WaitersCoded(DoLife(k, idle, s), e)
  {
    hide Create, Delete, Suspend, Reap, Resume, ResumeFromISR, Consistent, At;
  }

  lemma WaitWaitersCoded(k: Kernel, idle: TaskId, s: WaitStep, e: nat)
    requires Housed(k, idle) && WaitEnabled(k, idle, s) && WaitersCoded(k, e) && ForQueue(k, Wait(s), e)
    ensures WaitersCoded(DoWait(k, idle, s), e)
  {
    hide DelayUntil, PlaceOnEventList, PlaceOnUnorderedEventList, PlaceOnEventListRestricted, Consistent, At;
  }

  lemma WakeWaitersCoded(k: Kernel, idle: TaskId, s: WakeStep, e: nat)
    requires Housed(k, idle) && WakeEnabled(k, s) && WaitersCoded(k, e)
    ensures WaitersCoded(DoWake(k, idle, s), e)
  {
    hide RemoveFromEventList, RemoveFromUnorderedEventList, Consistent, At;
    if s.QueueSignal? {
      EventHead(k, idle, Event(s.e));
    }
  }

  lemma RankWaitersCoded(k: Kernel, idle: TaskId, s: RankStep, e: nat)
    requires Housed(k, idle) && RankEnabled(k, s) && WaitersCoded(k, e)
    ensures WaitersCoded(DoRank(k, idle, s), e)
  {
    hide Refile, Disinherit, Consistent, At;
  }

  lemma StepWaitersCoded(k: Kernel, idle: TaskId, s: Step, e: nat)
    requires Housed(k, idle) && Enabled(k, idle, s) && WaitersCoded(k, e) && ForQueue(k, s, e)
    ensures WaitersCoded(Do(k, idle, s), e)
  {
    hide DoLife, DoWait, DoWake, DoClock, DoRank, HousedMaps, Consistent, At;
    match s
    case Life(l) => LifeWaitersCoded(k, idle, l, e);
    case Wait(w) => WaitWaitersCoded(k, idle, w, e);
    case Wake(w) => WakeWaitersCoded(k, idle, w, e);
    case Clock(c) => ClockTcbs(k, idle, c); ClockOnlyLeaves(k, idle, c);
    case Rank(r) => RankWaitersCoded(k, idle, r, e);
  }

  // ---------------------------------------------------------------------------
  // Whole runs
  // ---------------------------------------------------------------------------

  ghost predicate Ranked(k: Kernel, e: nat) {
    InOrder(k, e) && WaitersCoded(k, e) && AllCoded(k.tcbs)
  }

  /** A step that serves the list as a queue's, leaves no wrong code and rewrites no waiter out of order. */
  predicate Orderly(k: Kernel, s: Step, e: nat) {
    ForQueue(k, s, e) && Fits(k, s, e) && !Miscodes(k.tcbs, s)
  }

  /** While list e serves a queue, the order and the codes are kept by a step if and only if it is orderly. */
  lemma StepRanked(k: Kernel, idle: TaskId, s: Step, e: nat)
    requires Housed(k, idle) && Enabled(k, idle, s) && Ranked(k, e) && ForQueue(k, s, e)
    ensures Ranked(Do(k, idle, s), e) <==> Orderly(k, s, e)
  {
    hide Do, Enabled, HousedMaps, Coherent, At, ForQueue, Fits, Miscodes, InOrder, WaitersCoded, AllCoded;
    StepInOrder(k, idle, s, e);
    StepWaitersCoded(k, idle, s, e);
    StepCoded(k, idle, s);
  }

  ghost predicate OrderlyRun(k: Kernel, h: History, idle: TaskId, steps: seq<Step>, k': Kernel, h': History, e: nat)
    requires Executes(k, h, idle, steps, k', h')
    decreases |steps|
  {
    steps != [] ==>
      Orderly(k, steps[0], e)
      && OrderlyRun(Do(k, idle, steps[0]), NextHistory(k, h, steps[0]), idle, steps[1..], k', h', e)
  }

  lemma {:induction false} RunRanked(k: Kernel, h: History, idle: TaskId, steps: seq<Step>, k': Kernel, h': History, e: nat)
    requires Housed(k, idle) && Ranked(k, e) && Executes(k, h, idle, steps, k', h')
    requires OrderlyRun(k, h, idle, steps, k', h', e)
    ensures Housed(k', idle) && Ranked(k', e)
    decreases |steps|
  {
    hide Do, Enabled, NextHistory, HousedMaps, Coherent, Ranked, Fits, Miscodes, ForQueue;
    if steps != [] {
      StepHoused(k, idle, steps[0]);
      StepRanked(k, idle, steps[0], e);
      RunRanked(Do(k, idle, steps[0]), NextHistory(k, h, steps[0]), idle, steps[1..], k', h', e);
    }
  }

  /** Nobody who waits in list e outranks its head. */
  ghost predicate HeadIsHighest(k: Kernel, e: nat) {
    var items := At(k.events, Event(e)).items;
    items != [] ==> items[0] in k.tcbs && forall t :: t in items ==> t in k.tcbs && k.tcbs[t].priority <= k.tcbs[items[0]].priority
  }

  lemma RankedHead(k: Kernel, e: nat)
    requires Coherent(k) && Ranked(k, e)
    ensures HeadIsHighest(k, e)
  {
    var items := At(k.events, Event(e)).items;
    ListDistinct(k, Event(e));
    forall t | t in items
      ensures t in k.tcbs && items[0] in k.tcbs && k.tcbs[t].priority <= k.tcbs[items[0]].priority
    {
      var i := IndexOf(items, t);
      assert items[0] in items;
      assert EventValues(k.tcbs, items)[0] <= EventValues(k.tcbs, items)[i];
    }
  }

  lemma InitialRanked(idle: TaskId, e: nat)
    ensures Housed(Initial(idle), idle) && Ranked(Initial(idle), e)
  {
    hide HousedMaps, Coherent, Timed;
    InitialSound(idle);
    InitialWaiters(idle, e);
  }

  lemma InitialWaiters(idle: TaskId, e: nat)
    ensures Ranked(Initial(idle), e)
  {
    assert At(Initial(idle).events, Event(e)).items == [];
  }

  /** What the signal does: the head leaves the list, to the ready lists or to wait for the scheduler, and nobody else. */
  lemma SignalWakesHead(k: Kernel, idle: TaskId, e: nat)
    requires Housed(k, idle) && WakeEnabled(k, QueueSignal(e))
    ensures var head := At(k.events, Event(e)).items[0];
            var k' := DoWake(k, idle, QueueSignal(e));
            && head in k.tcbs && k'.tcbs == k.tcbs
            && (if k.suspended == 0 then head in k'.states.home && k'.states.home[head] == Ready(k.tcbs[head].priority)
                else head in k'.events.home && k'.events.home[head] == PendingReady)
            && (forall t :: t != head && t in k.events.home ==> t in k'.events.home && k'.events.home[t] == k.events.home[t])
  {
    hide RemoveFromEventList, Consistent, At;
    EventHead(k, idle, Event(e));
  }

  /**
   The main result: in any run from the start of the scheduler in which list e serves a queue, no priority change leaves
   a wrong code and no waiter's code is rewritten out of order, a signal wakes a waiter that no other waiter outranks.
   */
  lemma HighestWaiterFirst(idle: TaskId, steps: seq<Step>, k: Kernel, h: History, e: nat, t: TaskId)
    requires Executes(Initial(idle), History(0, 0, map[]), idle, steps, k, h)
    requires OrderlyRun(Initial(idle), History(0, 0, map[]), idle, steps, k, h, e)
    requires t in At(k.events, Event(e)).items
    ensures Housed(k, idle) && WakeEnabled(k, QueueSignal(e))
    ensures var head := At(k.events, Event(e)).items[0];
            var k' := DoWake(k, idle, QueueSignal(e));
            && head in k.tcbs && t in k.tcbs && k.tcbs[t].priority <= k.tcbs[head].priority
            && (if k.suspended == 0 then head in k'.states.home && k'.states.home[head] == Ready(k.tcbs[head].priority)
                else head in k'.events.home && k'.events.home[head] == PendingReady)
  {
    hide DoWake, HousedMaps, Coherent, Ranked, OrderlyRun, Executes, Initial, At;
    InitialRanked(idle, e);
    RunRanked(Initial(idle), History(0, 0, map[]), idle, steps, k, h, e);
    RankedHead(k, e);
    SignalWakesHead(k, idle, e);
  }

  // ---------------------------------------------------------------------------
  // The two exceptions are real
  // ---------------------------------------------------------------------------

  /** A waiter that is not above the only other one joins behind it. */
  lemma JoinsBehind(k: Kernel, e: nat, c: TaskId, t: TaskId)
    requires Coherent(k) && At(k.events, Event(e)).items == [c] && t in k.tcbs && t !in k.events.home
    requires EventValueOf(k.tcbs, c) <= k.tcbs[t].eventValue.value
    ensures At(JoinSorted(k, Event(e), t).events, Event(e)).items == [c, t]
  {
    hide Place;
    var v := k.tcbs[t].eventValue.value;
    var values := EventValues(k.tcbs, [c]);
    SlotUnique(values, v, 1);
    PlaceAt(k.events, Event(e), 1, t, Event(e));
    assert InsertAt([c], 1, t) == [c, t];
  }

  lemma NewBaseOnly(k: Kernel, idle: TaskId, requested: nat)
    requires Housed(k, idle) && MayBlock(k, idle) && Miscodes(k.tcbs, Rank(PriorityChange(k.current, requested)))
    ensures var k1 := PrioritySet(k, k.current, requested);
            && Housed(k1, idle) && MayBlock(k1, idle) && k1.current == k.current && k1.events == k.events
            && (forall u :: u in k.tcbs ==> u in k1.tcbs && k1.tcbs[u].priority == k.tcbs[u].priority)
            && (forall u :: u in k.tcbs && u != k.current ==> k1.tcbs[u] == k.tcbs[u])
            && k1.tcbs[k.current].eventValue == CodedPriority(Clamped(requested))
  {
    hide Refile, At, Consistent;
    RankHoused(k, idle, PriorityChange(k.current, requested));
  }

  /**
   A task that inherits gives itself a new base, not above c's priority, and then waits behind c: nobody's priority
   changed while it waited and the list is in order, but the head is outranked.
   */
  lemma MiscodedOutranksHead(k: Kernel, idle: TaskId, e: nat, c: TaskId, requested: nat, n: Tick)
    requires Housed(k, idle) && Ranked(k, e) && MayBlock(k, idle) && n > 0 && At(k.events, Event(e)).items == [c]
    requires c in k.tcbs && Miscodes(k.tcbs, Rank(PriorityChange(k.current, requested)))
    requires requested <= k.tcbs[c].priority < k.tcbs[k.current].priority
    ensures var k1 := PrioritySet(k, k.current, requested);
            && Housed(k1, idle) && WaitEnabled(k1, idle, QueueWait(e, n))
            && var k2 := DoWait(k1, idle, QueueWait(e, n));
               At(k2.events, Event(e)).items == [c, k.current] && InOrder(k2, e) && !HeadIsHighest(k2, e)
  {
    hide PrioritySet, Block, JoinSorted, HousedMaps, At, Consistent;
    var k1 := PrioritySet(k, k.current, requested);
    NewBaseOnly(k, idle, requested);
    ListDistinct(k, Event(e));
    assert c in [c];
    SameWaiters(k, k1, e);
    JoinsBehind(k1, e, c, k.current);
    WaitInOrder(k1, idle, QueueWait(e, n), e);
    var k2 := DoWait(k1, idle, QueueWait(e, n));
    assert k.current in [c, k.current];
  }

  /** A waiter behind the head is raised above it, and the list is not sorted again. */
  lemma RaisedOutranksHead(k: Kernel, idle: TaskId, e: nat, t: TaskId, requested: nat)
    requires Housed(k, idle) && Ranked(k, e) && t in At(k.events, Event(e)).items && requested < PRIORITIES
    requires var head := At(k.events, Event(e)).items[0];
             head != t && head in k.tcbs && k.tcbs[head].priority < requested
    requires t in k.tcbs && k.tcbs[t].base == k.tcbs[t].priority
    ensures var k' := PrioritySet(k, t, requested); AllCoded(k'.tcbs) && !Fits(k, Rank(PriorityChange(t, requested)), e) && !HeadIsHighest(k', e)
  {
    hide Refile, HousedMaps, Consistent, At;
    RankedHead(k, e);
    PriorityChangeCoded(k, t, requested);
    RankInOrder(k, idle, PriorityChange(t, requested), e);
    var k' := PrioritySet(k, t, requested);
    assert k'.events == k.events;
    RankWaitersCoded(k, idle, PriorityChange(t, requested), e);
    if InOrder(k', e) {
      RankedHead(k', e);
    }
  }

  // An instance: task 1 of priority 2 waits, and task 2, of base 1, has inherited priority 3 and is running.

  function InstanceStates(): Family<StateList> {
    Family(map[Ready(0) := Ring([0], 0), Suspended := Ring([1], 0), Ready(3) := Ring([2], 1)],
           map[0 := Ready(0), 1 := Suspended, 2 := Ready(3)])
  }

  function InstanceEvents(): Family<EventList> {
    Family(map[Event(0) := Ring([1], 0)], map[1 := Event(0)])
  }

  lemma InstanceLists()
    ensures Consistent(InstanceStates()) && Consistent(InstanceEvents()) && At(InstanceEvents(), Event(0)) == Ring([1], 0)
  {
    assert forall l :: At(InstanceStates(), l) == if l == Ready(0) then Ring([0], 0) else if l == Suspended then Ring([1], 0)
                                                  else if l == Ready(3) then Ring([2], 1) else Ring([], 0);
    assert forall l :: At(InstanceEvents(), l) == if l == Event(0) then Ring([1], 0) else Ring([], 0);
  }

  function InstanceTcbs(): (tcbs: map<TaskId, Tcb>)
    requires PRIORITIES >= 4
    ensures tcbs.Keys == {0, 1, 2}
  {
    map[0 := Tcb(0, 0, 0, 0, CodedPriority(0)), 1 := Tcb(2, 2, 0, 0, CodedPriority(2)), 2 := Tcb(3, 1, 1, 0, CodedPriority(3))]
  }

  lemma InstanceMaps()
    requires PRIORITIES >= 4
    ensures HousedMaps(InstanceTcbs(), InstanceStates().home, InstanceEvents().home, 1, 0)
    ensures AllCoded(InstanceTcbs()) && Miscodes(InstanceTcbs(), Rank(PriorityChange(2, 2)))
    ensures forall t :: t in InstanceTcbs() ==> InstanceTcbs()[t].priority < PRIORITIES && InstanceTcbs()[t].base < PRIORITIES
  {
  }

  lemma Instance() returns (k: Kernel)
    requires PRIORITIES >= 4
    ensures Housed(k, 0) && Ranked(k, 0) && MayBlock(k, 0) && k.current == 2 && At(k.events, Event(0)).items == [1]
    ensures 1 in k.tcbs && 2 in k.tcbs && k.tcbs[1].priority == 2 && k.tcbs[2].priority == 3
    ensures Miscodes(k.tcbs, Rank(PriorityChange(2, 2)))
  {
    InstanceMaps();
    InstanceLists();
    hide Consistent, At, HousedMaps, AllCoded, Miscodes;
    k := Kernel(InstanceTcbs(), InstanceStates(), InstanceEvents(), 2, 3, {0, 3}, 0, MAX_DELAY, 0, true, 1, 0, false);
    assert |EventValues(k.tcbs, [1])| == 1;
  }

  /** Task 2 sets its own priority to 2 and waits too: it stands behind task 1 although its priority is 3. */
  lemma InstanceOutranked(n: Tick) returns (k: Kernel, k': Kernel)
    requires PRIORITIES >= 4 && n > 0
    ensures Housed(k, 0) && Ranked(k, 0) && 2 in k.tcbs
    ensures Housed(PrioritySet(k, 2, 2), 0) && WaitEnabled(PrioritySet(k, 2, 2), 0, QueueWait(0, n))
    ensures k' == DoWait(PrioritySet(k, 2, 2), 0, QueueWait(0, n))
    ensures At(k'.events, Event(0)).items == [1, 2] && InOrder(k', 0) && !HeadIsHighest(k', 0)
  {
    hide PrioritySet, DoWait, HousedMaps, At, Consistent, Ranked, HeadIsHighest, InOrder;
    k := Instance();
    MiscodedOutranksHead(k, 0, 0, 1, 2, n);
    k' := DoWait(PrioritySet(k, 2, 2), 0, QueueWait(0, n));
  }
}
