/**
 Round robin in the whole kernel: what every step does to every ready list is a short sequence of selections,
 surveys, arrivals and departures, so the bound on how long a ready task waits holds of whole kernel runs.
 */
module KernelTurns {
  import opened Ticks
  import opened Rings
  import opened Families
  import opened Kernels
  import opened KernelSteps
  import opened KernelSelection
  import opened KernelTime
  import opened KernelRuns

  type RingOp = Op<TaskId>

  // ---------------------------------------------------------------------------
  // What each step does to the ready list of priority p
  // ---------------------------------------------------------------------------

  ghost predicate OnlyArrivals(ops: seq<RingOp>) {
    forall i :: 0 <= i < |ops| ==> ops[i].Arrive?
  }

  /** At most one departure, and that first; or a single selection or survey. */
  ghost predicate Tidy(ops: seq<RingOp>) {
    forall i :: 1 <= i < |ops| ==> ops[i].Arrive?
  }

  ghost predicate Moves(ops: seq<RingOp>) {
    Tidy(ops) && (ops != [] ==> ops[0].Arrive? || ops[0].Leave?)
  }

  function Leaving(k: Kernel, t: TaskId, p: nat): seq<RingOp> {
    if t in k.states.home && k.states.home[t] == Ready(p) then [Leave(t)] else []
  }

  function Arriving(k: Kernel, t: TaskId, p: nat): (ops: seq<RingOp>)
    ensures OnlyArrivals(ops)
  {
    if t in k.tcbs && k.tcbs[t].priority == p then [Arrive(t)] else []
  }

  function LifeOps(k: Kernel, s: LifeStep, p: nat): (ops: seq<RingOp>)
    ensures Moves(ops)
  {
    match s
    case TaskCreate(t, q) => if q == p then [Arrive(t)] else []
    case TaskDelete(t) => Leaving(k, t, p)
    case IdleReap => []
    case TaskSuspend(t) => Leaving(k, t, p)
    case TaskResume(t) => if t != k.current && IsSuspended(k, t) then Arriving(k, t, p) else []
    case IsrResume(t) => if k.suspended == 0 && IsSuspended(k, t) then Arriving(k, t, p) else []
  }

  function WakeOps(k: Kernel, s: WakeStep, p: nat): (ops: seq<RingOp>)
    requires Coherent(k) && WakeEnabled(k, s)
    ensures OnlyArrivals(ops)
  {
    match s
    case QueueSignal(e) => if k.suspended == 0 then Arriving(k, At(k.events, Event(e)).items[0], p) else []
    case GroupSignal(t, _) => Arriving(k, t, p)
    case ItemReset => []
  }

  /** The tasks unblocked by the tick, in the order the loop meets them. */
  function DueOps(k: Kernel, p: nat): (ops: seq<RingOp>)
    requires Coherent(k)
    ensures OnlyArrivals(ops)
    decreases |At(k.states, DelayedList(k)).items|
  {
    var s := At(k.states, DelayedList(k)).items;
    if s == [] then []
    else
      ExpireShrinks(k);
      if k.tick < k.tcbs[s[0]].wake then [] else Arriving(k, s[0], p) + DueOps(Expire(k, s[0]), p)
  }

  function TickOps(k: Kernel, p: nat): (ops: seq<RingOp>)
    requires Coherent(k)
    ensures OnlyArrivals(ops)
  {
    if k.suspended == 0 && Advanced(k).nextUnblock <= Advanced(k).tick then DueOps(Advanced(k), p) else []
  }

  function DrainOps(k: Kernel, p: nat): (ops: seq<RingOp>)
    requires Coherent(k) && PendingHoused(k)
    ensures OnlyArrivals(ops)
    decreases |At(k.events, PendingReady).items|
  {
    var s := At(k.events, PendingReady).items;
    if s == [] then [] else Arriving(k, s[0], p) + DrainOps(DrainOne(k), p)
  }

  function ReplayOps(k: Kernel, p: nat): (ops: seq<RingOp>)
    requires Coherent(k) && k.suspended == 0
    ensures OnlyArrivals(ops)
    decreases k.pended
  {
    if k.pended == 0 then [] else ReplayKeepsRunning(k); TickOps(k, p) + ReplayOps(ReplayOne(k), p)
  }

  predicate SelectsAt(k: Kernel, s: Step, p: nat) {
    s == Clock(ContextSwitch) && k.suspended == 0 && p == ScanDown(k.states, k.top)
  }

  predicate SurveysAt(k: Kernel, s: Step, p: nat) {
    s == Clock(SystemReport) && p < PRIORITIES && ReadyAt(k, p).items != []
  }

  function ClockOps(k: Kernel, s: ClockStep, p: nat): (ops: seq<RingOp>)
    requires Coherent(k) && PendingHoused(k)
    ensures if SelectsAt(k, Clock(s), p) then ops == [Pick] else if SurveysAt(k, Clock(s), p) then ops == [Survey] else OnlyArrivals(ops)
  {
    match s
    case TickInterrupt => TickOps(k, p)
    case SchedulerResume =>
      if k.suspended == 1 then DrainOps(k.(suspended := 0), p) + ReplayOps(Drain(k.(suspended := 0)), p) else []
    case ContextSwitch => if SelectsAt(k, Clock(s), p) then [Pick] else []
    case SystemReport => if SurveysAt(k, Clock(s), p) then [Survey] else []
    case _ => []
  }

  /** A task in the ready list of its old priority is taken out and put behind the index of its new one. */
  function RefileOps(k: Kernel, t: TaskId, priority: nat, p: nat): (ops: seq<RingOp>)
    ensures Moves(ops)
  {
    if t in k.states.home && t in k.tcbs && k.states.home[t] == Ready(k.tcbs[t].priority)
    then Leaving(k, t, p) + if priority == p then [Arrive(t)] else []
    else []
  }

  function RankOps(k: Kernel, s: RankStep, p: nat): (ops: seq<RingOp>)
    requires Coherent(k) && RankEnabled(k, s)
    ensures Moves(ops)
  {
    match s
    case PriorityChange(t, requested) =>
      var q := Clamped(requested);
      var tcb := k.tcbs[t];
      if tcb.base == q then [] else RefileOps(k, t, if tcb.base == tcb.priority then q else tcb.priority, p)
    case PriorityInherit(t) =>
      if k.tcbs[t].priority < k.tcbs[k.current].priority then RefileOps(k, t, k.tcbs[k.current].priority, p) else []
    case PriorityDisinherit =>
      var tcb := k.tcbs[k.current];
      if tcb.priority != tcb.base && tcb.held == 1 then
        Leaving(k, k.current, p) + if tcb.base == p then [Arrive(k.current)] else []
      else []
    case MutexTaken => []
  }

  function StepOps(k: Kernel, idle: TaskId, s: Step, p: nat): (ops: seq<RingOp>)
    requires Housed(k, idle) && Enabled(k, idle, s)
    ensures if SelectsAt(k, s, p) then ops == [Pick] else if SurveysAt(k, s, p) then ops == [Survey] else Moves(ops)
  {
    hide LifeOps, WakeOps, ClockOps, RankOps, Consistent, At;
    match s
    case Life(l) => LifeOps(k, l, p)
    case Wait(_) => Leaving(k, k.current, p)
    case Wake(w) => WakeOps(k, w, p)
    case Clock(c) => ClockOps(k, c, p)
    case Rank(r) => RankOps(k, r, p)
  }

  // ---------------------------------------------------------------------------
  // Building blocks
  // ---------------------------------------------------------------------------

  lemma {:induction false} RunsConcat<T>(r: Ring<T>, a: seq<Op<T>>, r1: Ring<T>, b: seq<Op<T>>, r2: Ring<T>)
    requires Runs(r, a, r1) && Runs(r1, b, r2)
    ensures Runs(r, a + b, r2)
    decreases |a|
  {
    if a == [] {
      assert a + b == b;
    } else {
      RunsConcat(Apply(r, a[0]), a[1..], r1, b, r2);
      assert (a + b)[1..] == a[1..] + b;
    }
  }

  lemma RunsOne<T>(r: Ring<T>, op: Op<T>)
    requires Valid(r) && Legal(r, op) && Valid(Apply(r, op))
    ensures Runs(r, [op], Apply(r, op))
  {
    assert [op][1..] == [];
  }

  lemma UnlinkActs(k: Kernel, t: TaskId, p: nat)
    requires Coherent(k) && t in k.states.home
    ensures Runs(ReadyAt(k, p), Leaving(k, t, p), ReadyAt(Unlink(k, t), p))
  {
    hide Take;
    TakeAt(k.states, t, Ready(p));
    assert Valid(ReadyAt(Unlink(k, t), p));
    if k.states.home[t] == Ready(p) {
      RunsOne(ReadyAt(k, p), Leave(t));
    }
  }

  lemma UnlinkResetActs(k: Kernel, t: TaskId, p: nat)
    requires Coherent(k) && t in k.states.home
    ensures Runs(ReadyAt(k, p), Leaving(k, t, p), ReadyAt(UnlinkReset(k, t), p))
  {
    hide Unlink, Consistent, At, Runs;
    UnlinkActs(k, t, p);
  }

  lemma MakeReadyActs(k: Kernel, t: TaskId, p: nat)
    requires Coherent(k) && t in k.tcbs && t !in k.states.home
    ensures Runs(ReadyAt(k, p), Arriving(k, t, p), ReadyAt(MakeReady(k, t), p))
  {
    hide Append;
    AppendAt(k.states, Ready(k.tcbs[t].priority), t, Ready(p));
    assert Valid(ReadyAt(MakeReady(k, t), p));
    if k.tcbs[t].priority == p {
      RunsOne(ReadyAt(k, p), Arrive(t));
    }
  }

  lemma ReadyValid(k: Kernel, p: nat)
    requires Coherent(k)
    ensures Valid(ReadyAt(k, p)) && Runs(ReadyAt(k, p), [], ReadyAt(k, p))
  {
  }

  lemma ParkActs(k: Kernel, l: StateList, t: TaskId, p: nat)
    requires Coherent(k) && t in k.tcbs && t !in k.states.home && !l.Ready?
    ensures ReadyAt(Park(k, l, t), p) == ReadyAt(k, p)
  {
    hide Append;
    AppendAt(k.states, l, t, Ready(p));
  }

  lemma AddDelayedActs(k: Kernel, t: TaskId, wake: Tick, p: nat)
    requires Coherent(k) && t in k.tcbs && t !in k.states.home
    ensures ReadyAt(AddDelayed(k, t, wake), p) == ReadyAt(k, p)
  {
    hide Place;
    var l := if wake < k.tick then OverflowList(k) else DelayedList(k);
    var k1 := WithTcb(k, t, k.tcbs[t].(wake := wake));
    var s := At(k1.states, l).items;
    PlaceAt(k1.states, l, Slot(Wakes(k1.tcbs, s), k1.tcbs[t].wake), t, Ready(p));
  }

  /** From a list of blocked tasks to the ready list. */
  lemma ReadiedActs(k: Kernel, t: TaskId, p: nat)
    requires Coherent(k) && t in k.states.home && t in k.tcbs && !k.states.home[t].Ready?
    ensures Runs(ReadyAt(k, p), Arriving(k, t, p), ReadyAt(MakeReady(Unlink(k, t), t), p))
  {
    hide Unlink, MakeReady, Consistent, At;
    UnlinkActs(k, t, p);
    MakeReadyActs(Unlink(k, t), t, p);
  }

  // ---------------------------------------------------------------------------
  // Steps
  // ---------------------------------------------------------------------------

  lemma LifeActs(k: Kernel, idle: TaskId, s: LifeStep, p: nat)
    requires Housed(k, idle) && LifeEnabled(k, idle, s)
    ensures Runs(ReadyAt(k, p), LifeOps(k, s, p), ReadyAt(DoLife(k, idle, s), p))
  {
    hide UnlinkReset, Unlink, MakeReady, Park, LeaveEvent, JoinEnd, Consistent, At, Runs;
    ReadyValid(k, p);
    match s
    case TaskCreate(t, q) =>
      MakeReadyActs(WithTcb(k, t, Tcb(q, q, 0, 0, CodedPriority(q))), t, p);
    case TaskDelete(t) =>
      UnlinkResetActs(k, t, p);
      ParkActs(LeaveEvent(UnlinkReset(k, t), t), Terminating, t, p);
    case IdleReap =>
      ListHead(k, Terminating);
      UnlinkActs(k, At(k.states, Terminating).items[0], p);
    case TaskSuspend(t) =>
      UnlinkResetActs(k, t, p);
      ParkActs(LeaveEvent(UnlinkReset(k, t), t), Suspended, t, p);
    case TaskResume(t) => if IsSuspended(k, t) { ReadiedActs(k, t, p); }
    case IsrResume(t) => if IsSuspended(k, t) { ReadiedActs(k, t, p); }
  }

  lemma DelayUntilActs(k: Kernel, wake: Tick, p: nat)
    requires Coherent(k) && k.current in k.states.home
    ensures Runs(ReadyAt(k, p), Leaving(k, k.current, p), ReadyAt(DelayUntil(k, wake), p))
  {
    hide UnlinkReset, AddDelayed, Consistent, At, Runs;
    UnlinkResetActs(k, k.current, p);
    AddDelayedActs(UnlinkReset(k, k.current), k.current, wake, p);
  }

  lemma BlockActs(k: Kernel, n: Tick, forever: bool, p: nat)
    requires Coherent(k) && k.current in k.states.home
    ensures Runs(ReadyAt(k, p), Leaving(k, k.current, p), ReadyAt(Block(k, n, forever), p))
  {
    hide UnlinkReset, Park, DelayUntil, Consistent, At, Runs;
    if forever {
      UnlinkResetActs(k, k.current, p);
      ParkActs(UnlinkReset(k, k.current), Suspended, k.current, p);
    } else {
      DelayUntilActs(k, Add(k.tick, n), p);
    }
  }

  lemma WaitActs(k: Kernel, idle: TaskId, s: WaitStep, p: nat)
    requires Housed(k, idle) && WaitEnabled(k, idle, s)
    ensures Runs(ReadyAt(k, p), Leaving(k, k.current, p), ReadyAt(DoWait(k, idle, s), p))
  {
    hide Block, DelayUntil, JoinEnd, JoinSorted, Consistent, At, Runs;
    match s
    case TaskDelay(n) => DelayUntilActs(k, Add(k.tick, n), p);
    case TaskDelayUntil(wake) => DelayUntilActs(k, wake, p);
    case QueueWait(e, n) => BlockActs(JoinSorted(k, Event(e), k.current), n, n == MAX_DELAY, p);
    case GroupWait(e, v, n) =>
      var k1 := WithTcb(k, k.current, k.tcbs[k.current].(eventValue := Borrowed(v)));
      BlockActs(JoinEnd(k1, Event(e), k.current), n, n == MAX_DELAY, p);
    case DaemonWait(e, n, forever) => BlockActs(JoinEnd(k, Event(e), k.current), n, forever, p);
  }

  lemma WakeActs(k: Kernel, idle: TaskId, s: WakeStep, p: nat)
    requires Housed(k, idle) && WakeEnabled(k, s)
    ensures Runs(ReadyAt(k, p), WakeOps(k, s, p), ReadyAt(DoWake(k, idle, s), p))
  {
    hide Unlink, MakeReady, JoinEnd, LeaveEvent, Consistent, At, Runs;
    ReadyValid(k, p);
    match s
    case QueueSignal(e) =>
      EventHead(k, idle, Event(e));
      var t := At(k.events, Event(e)).items[0];
      if k.suspended == 0 { ReadiedActs(LeaveEvent(k, t), t, p); }
    case GroupSignal(t, v) =>
      var k1 := WithTcb(k, t, k.tcbs[t].(eventValue := Borrowed(v)));
      ReadiedActs(LeaveEvent(k1, t), t, p);
    case ItemReset =>
  }

  lemma {:induction false} DueActs(k: Kernel, p: nat)
    requires Coherent(k)
    ensures Runs(ReadyAt(k, p), DueOps(k, p), ReadyAt(WakeDue(k), p))
    decreases |At(k.states, DelayedList(k)).items|
  {
    hide Unlink, MakeReady, LeaveEvent, Consistent, At, Runs;
    ReadyValid(k, p);
    var s := At(k.states, DelayedList(k)).items;
    if s != [] {
      ExpireShrinks(k);
      ListHead(k, DelayedList(k));
      if k.tick >= k.tcbs[s[0]].wake {
        var k1 := Expire(k, s[0]);
        ExpireActs(k, s[0], p);
        DueActs(k1, p);
        RunsConcat(ReadyAt(k, p), Arriving(k, s[0], p), ReadyAt(k1, p), DueOps(k1, p), ReadyAt(WakeDue(k1), p));
      }
    }
  }

  lemma ExpireActs(k: Kernel, t: TaskId, p: nat)
    requires Coherent(k) && t in k.states.home && !k.states.home[t].Ready?
    ensures Runs(ReadyAt(k, p), Arriving(k, t, p), ReadyAt(Expire(k, t), p))
  {
    hide Unlink, MakeReady, LeaveEvent, Consistent, At;
    UnlinkActs(k, t, p);
    MakeReadyActs(LeaveEvent(Unlink(k, t), t), t, p);
  }

  lemma TickActs(k: Kernel, p: nat)
    requires Coherent(k)
    ensures Runs(ReadyAt(k, p), TickOps(k, p), ReadyAt(IncrementTick(k), p))
  {
    hide WakeDue, Consistent, At, Runs;
    ReadyValid(k, p);
    DueActs(Advanced(k), p);
  }

  lemma {:induction false} ReplayActs(k: Kernel, p: nat)
    requires Coherent(k) && k.suspended == 0
    ensures Runs(ReadyAt(k, p), ReplayOps(k, p), ReadyAt(Replay(k), p))
    decreases k.pended
  {
    hide IncrementTick, TickWantsSwitch, TickOps, Coherent, At, Runs;
    ReadyValid(k, p);
    if k.pended > 0 {
      var k1 := ReplayOne(k);
      TickActs(k, p);
      ReplayKeepsRunning(k);
      ReplayActs(k1, p);
      RunsConcat(ReadyAt(k, p), TickOps(k, p), ReadyAt(k1, p), ReplayOps(k1, p), ReadyAt(Replay(k1), p));
    }
  }

  lemma {:induction false} DrainActs(k: Kernel, idle: TaskId, p: nat)
    requires Draining(k, idle)
    ensures Runs(ReadyAt(k, p), DrainOps(k, p), ReadyAt(Drain(k), p))
    decreases |At(k.events, PendingReady).items|
  {
    hide Unlink, MakeReady, LeaveEvent, Consistent, At, Runs;
    ReadyValid(k, p);
    if At(k.events, PendingReady).items != [] {
      PendingHead(k);
      var t := At(k.events, PendingReady).items[0];
      var k1 := DrainOne(k);
      ReadiedActs(LeaveEvent(k, t), t, p);
      DrainActs(k1, idle, p);
      RunsConcat(ReadyAt(k, p), Arriving(k, t, p), ReadyAt(k1, p), DrainOps(k1, p), ReadyAt(Drain(k1), p));
    }
  }

  lemma ResumeActs(k: Kernel, idle: TaskId, p: nat)
    requires Housed(k, idle) && k.suspended > 0
    ensures Runs(ReadyAt(k, p), ClockOps(k, SchedulerResume, p), ReadyAt(ResumeAll(k), p))
  {
    hide Drain, Replay, DrainOps, ReplayOps, Consistent, At, Runs;
    ReadyValid(k, p);
    if k.suspended == 1 {
      var k1 := k.(suspended := 0);
      DrainActs(k1, idle, p);
      ReplayActs(Drain(k1), p);
      RunsConcat(ReadyAt(k, p), DrainOps(k1, p), ReadyAt(Drain(k1), p), ReplayOps(Drain(k1), p), ReadyAt(ResumeAll(k), p));
    }
  }

  lemma SwitchActs(k: Kernel, idle: TaskId, p: nat)
    requires Housed(k, idle) && ClockEnabled(k, ContextSwitch)
    ensures Runs(ReadyAt(k, p), ClockOps(k, ContextSwitch, p), ReadyAt(SwitchContext(k), p))
    ensures SelectsAt(k, Clock(ContextSwitch), p) ==>
              && 0 < ReadyAt(SwitchContext(k), p).at <= |ReadyAt(SwitchContext(k), p).items|
              && SwitchContext(k).current == Selected(ReadyAt(SwitchContext(k), p))
  {
    ReadyValid(k, p);
    if SelectsAt(k, Clock(ContextSwitch), p) {
      assert Valid(ReadyAt(SwitchContext(k), p));
      RunsOne(ReadyAt(k, p), Pick);
    }
  }

  lemma ReportActs(k: Kernel, p: nat)
    requires Coherent(k) && PendingHoused(k)
    ensures Runs(ReadyAt(k, p), ClockOps(k, SystemReport, p), ReadyAt(ReportAll(k), p))
  {
    hide ReportAll, AllLists;
    ReadyValid(k, p);
    ReadyValid(ReportAll(k), p);
    ReportedAt(k, Ready(p));
    assert Ready(p) in AllLists(k) <==> p < PRIORITIES;
    if p < PRIORITIES && ReadyAt(k, p).items != [] {
      RunsOne(ReadyAt(k, p), Survey);
    }
  }

  lemma ClockActs(k: Kernel, idle: TaskId, s: ClockStep, p: nat)
    requires Housed(k, idle) && ClockEnabled(k, s)
    ensures Runs(ReadyAt(k, p), ClockOps(k, s, p), ReadyAt(DoClock(k, idle, s), p))
  {
    hide IncrementTick, ResumeAll, SwitchContext, ReportAll, TickOps, DrainOps, ReplayOps, Consistent, At, Runs;
    ReadyValid(k, p);
    match s
    case TickInterrupt => TickActs(k, p);
    case SchedulerResume => ResumeActs(k, idle, p);
    case ContextSwitch => SwitchActs(k, idle, p);
    case SystemReport => ReportActs(k, p);
    case _ =>
  }

  lemma RefileActs(k: Kernel, t: TaskId, tcb: Tcb, p: nat)
    requires Coherent(k) && t in k.tcbs && tcb.priority < PRIORITIES && tcb.base < PRIORITIES
    ensures Runs(ReadyAt(k, p), RefileOps(k, t, tcb.priority, p), ReadyAt(Refile(k, t, tcb), p))
  {
    hide UnlinkReset, MakeReady, Consistent, At, Runs;
    ReadyValid(k, p);
    if t in k.states.home && k.states.home[t] == Ready(k.tcbs[t].priority) {
      MovedActs(k, t, tcb, p);
    }
  }

  lemma MovedActs(k: Kernel, t: TaskId, tcb: Tcb, p: nat)
    requires Coherent(k) && t in k.states.home && tcb.priority < PRIORITIES && tcb.base < PRIORITIES
    ensures Runs(ReadyAt(k, p), Leaving(k, t, p) + (if tcb.priority == p then [Arrive(t)] else []),
                 ReadyAt(MakeReady(WithTcb(UnlinkReset(k, t), t, tcb), t), p))
  {
    hide UnlinkReset, MakeReady, Consistent, At, Runs;
    var k1 := WithTcb(UnlinkReset(k, t), t, tcb);
    UnlinkResetActs(k, t, p);
    MakeReadyActs(k1, t, p);
    RunsConcat(ReadyAt(k, p), Leaving(k, t, p), ReadyAt(k1, p), Arriving(k1, t, p), ReadyAt(MakeReady(k1, t), p));
  }

  lemma DisinheritActs(k: Kernel, idle: TaskId, p: nat)
    requires Housed(k, idle) && RankEnabled(k, PriorityDisinherit)
    ensures Runs(ReadyAt(k, p), RankOps(k, PriorityDisinherit, p), ReadyAt(Disinherit(k, k.current), p))
  {
    hide UnlinkReset, MakeReady, Consistent, At, Runs;
    ReadyValid(k, p);
    var t := k.current;
    var tcb := k.tcbs[t].(held := k.tcbs[t].held - 1);
    if tcb.priority != tcb.base && tcb.held == 0 {
      MovedActs(WithTcb(k, t, tcb), t, tcb.(priority := tcb.base, eventValue := CodedPriority(tcb.base)), p);
    }
  }

  lemma RankActs(k: Kernel, idle: TaskId, s: RankStep, p: nat)
    requires Housed(k, idle) && RankEnabled(k, s)
    ensures Runs(ReadyAt(k, p), RankOps(k, s, p), ReadyAt(DoRank(k, idle, s), p))
  {
    hide Refile, RefileOps, Disinherit, Consistent, At, Runs;
    ReadyValid(k, p);
    match s
    case PriorityChange(t, requested) =>
      var q := Clamped(requested);
      var tcb := k.tcbs[t];
      RefileActs(k, t, tcb.(priority := if tcb.base == tcb.priority then q else tcb.priority, base := q,
                            eventValue := Recoded(tcb.eventValue, q)), p);
    case PriorityInherit(t) =>
      var q := k.tcbs[k.current].priority;
      RefileActs(k, t, k.tcbs[t].(priority := q, eventValue := Recoded(k.tcbs[t].eventValue, q)), p);
    case PriorityDisinherit => DisinheritActs(k, idle, p);
    case MutexTaken =>
  }

  /** Every step of the kernel acts on every ready list as just those operations. */
  lemma StepActs(k: Kernel, idle: TaskId, s: Step, p: nat)
    requires Housed(k, idle) && Enabled(k, idle, s)
    ensures Runs(ReadyAt(k, p), StepOps(k, idle, s, p), ReadyAt(Do(k, idle, s), p))
  {
    hide DoLife, DoWait, DoWake, DoClock, DoRank, LifeOps, WakeOps, ClockOps, RankOps, Runs, At;
    match s
    case Life(l) => LifeActs(k, idle, l, p);
    case Wait(w) => WaitActs(k, idle, w, p);
    case Wake(w) => WakeActs(k, idle, w, p);
    case Clock(c) => ClockActs(k, idle, c, p);
    case Rank(r) => RankActs(k, idle, r, p);
  }

  // ---------------------------------------------------------------------------
  // Waiting in a ready list, one step at a time
  // ---------------------------------------------------------------------------

  /** The step leaves t where it is and does not select it. */
  ghost predicate Passes(k: Kernel, idle: TaskId, s: Step, p: nat, t: TaskId)
    requires Housed(k, idle) && Enabled(k, idle, s)
  {
    Leave(t) !in StepOps(k, idle, s, p) && !(SelectsAt(k, s, p) && Do(k, idle, s).current == t)
  }

  /**
   The step displaces t: it is a report that comes while t is next, or it takes away the task under the index while
   t is the one before that.
   */
  ghost predicate DisplacedBy(k: Kernel, idle: TaskId, s: Step, p: nat, t: TaskId)
    requires Housed(k, idle) && Enabled(k, idle, s) && t in ReadyAt(k, p).items
  {
    var r := ReadyAt(k, p);
    || (SurveysAt(k, s, p) && r.at <= |r.items| && Rings.Rank(r, t) == 1)
    || (2 <= r.at <= |r.items| && r.items[r.at - 2] == t && Leave(r.items[r.at - 1]) in StepOps(k, idle, s, p))
  }

  /** Arrivals never take a place away from anybody who has one. */
  lemma {:induction false} ArrivalsWait(r: Ring<TaskId>, ops: seq<RingOp>, r': Ring<TaskId>, t: TaskId)
    requires Runs(r, ops, r') && OnlyArrivals(ops) && t in r.items
    ensures Waits(r, t, ops) && NeverDisplaced(r, t, ops)
    decreases |ops|
  {
    if ops != [] {
      SparedStays(r, t, ops[0]);
      ArrivalsWait(Apply(r, ops[0]), ops[1..], r', t);
    }
  }

  lemma TidyWait(r: Ring<TaskId>, ops: seq<RingOp>, r': Ring<TaskId>, t: TaskId)
    requires Runs(r, ops, r') && Tidy(ops) && t in r.items
    requires ops != [] ==> ops[0] != Leave(t) && !(ops[0] == Pick && Rings.Rank(r, t) == 1)
    ensures Waits(r, t, ops) && (NeverDisplaced(r, t, ops) <==> !(ops != [] && Displaces(r, ops[0], t)))
  {
    if ops != [] {
      SparedStays(r, t, ops[0]);
      ArrivalsWait(Apply(r, ops[0]), ops[1..], r', t);
    }
  }

  /** Seen from the kernel: t waits through the step, and is displaced exactly when the step says so. */
  lemma StepWaits(k: Kernel, idle: TaskId, s: Step, p: nat, t: TaskId)
    requires Housed(k, idle) && Enabled(k, idle, s) && t in ReadyAt(k, p).items && Passes(k, idle, s, p, t)
    ensures Waits(ReadyAt(k, p), t, StepOps(k, idle, s, p))
    ensures NeverDisplaced(ReadyAt(k, p), t, StepOps(k, idle, s, p)) <==> !DisplacedBy(k, idle, s, p, t)
  {
    hide Do, Enabled, StepOps, Consistent, At, Runs, Waits, NeverDisplaced;
    var r, ops := ReadyAt(k, p), StepOps(k, idle, s, p);
    StepActs(k, idle, s, p);
    ReadyValid(k, p);
    if SelectsAt(k, s, p) {
      PickedRuns(k, idle, p);
      SelectRank(r, t);
      assert Runs(r, [Pick], ReadyAt(Do(k, idle, s), p));
      OnePick(r, ReadyAt(Do(k, idle, s), p));
    }
    TidyWait(r, ops, ReadyAt(Do(k, idle, s), p), t);
    if ops != [] && ops[0].Leave? {
      FirstDeparts(r, ops, ReadyAt(Do(k, idle, s), p));
    }
  }

  lemma OnePick(r: Ring<TaskId>, r': Ring<TaskId>)
    requires Runs(r, [Pick], r')
    ensures r.items != [] && r' == Next(r)
  {
    assert [Op<TaskId>.Pick][1..] == [];
  }

  lemma FirstDeparts(r: Ring<TaskId>, ops: seq<RingOp>, r': Ring<TaskId>)
    requires Runs(r, ops, r') && Tidy(ops) && ops != [] && ops[0].Leave?
    ensures ops[0].item in r.items
    ensures forall u :: Leave(u) in ops <==> u == ops[0].item
  {
  }

  lemma PickedRuns(k: Kernel, idle: TaskId, p: nat)
    requires Housed(k, idle) && ClockEnabled(k, ContextSwitch) && SelectsAt(k, Clock(ContextSwitch), p)
    ensures var r := ReadyAt(Do(k, idle, Clock(ContextSwitch)), p);
            0 < r.at <= |r.items| && Do(k, idle, Clock(ContextSwitch)).current == Selected(r)
  {
    hide SwitchContext, Runs, Consistent, At;
    SwitchActs(k, idle, p);
  }

  lemma {:induction false} ArrivalsKeepIndex(r: Ring<TaskId>, ops: seq<RingOp>, r': Ring<TaskId>, t: TaskId)
    requires Runs(r, ops, r') && OnlyArrivals(ops) && t in r.items
    ensures AtIndex(r', t) <==> AtIndex(r, t)
    decreases |ops|
  {
    if ops != [] {
      SparedStays(r, t, ops[0]);
      AddRank(r, t, ops[0].item);
      ArrivalsKeepIndex(Apply(r, ops[0]), ops[1..], r', t);
    }
  }

  /** A waiting task comes under the index, where the next arrival overtakes it, exactly in the steps that displace it. */
  lemma DisplacedExactly(k: Kernel, idle: TaskId, s: Step, p: nat, t: TaskId)
    requires Housed(k, idle) && Enabled(k, idle, s) && t in ReadyAt(k, p).items && Passes(k, idle, s, p, t)
    requires !AtIndex(ReadyAt(k, p), t)
    ensures AtIndex(ReadyAt(Do(k, idle, s), p), t) <==> DisplacedBy(k, idle, s, p, t)
  {
    hide Do, Enabled, StepOps, Consistent, At, Passes, DisplacedBy;
    var r, ops, r' := ReadyAt(k, p), StepOps(k, idle, s, p), ReadyAt(Do(k, idle, s), p);
    StepActs(k, idle, s, p);
    StepWaits(k, idle, s, p, t);
    if ops != [] {
      SparedStays(r, t, ops[0]);
      ComesUnderIndex(r, t, ops[0]);
      ArrivalsKeepIndex(Apply(r, ops[0]), ops[1..], r', t);
      TidyWait(r, ops, r', t);
    }
  }

  /** In particular a report sends the task that was next to the end of its list's turn. */
  lemma ReportSendsLast(k: Kernel, idle: TaskId, p: nat, t: TaskId)
    requires Housed(k, idle) && k.suspended > 0 && p < PRIORITIES && ReadyAt(k, p).at <= |ReadyAt(k, p).items|
    requires t in ReadyAt(k, p).items && Rings.Rank(ReadyAt(k, p), t) == 1
    ensures var r := ReadyAt(Do(k, idle, Clock(SystemReport)), p);
            r.items == ReadyAt(k, p).items && r.at <= |r.items| && Rings.Rank(r, t) == |r.items|
  {
    hide ReportAll, AllLists;
    ReadyValid(k, p);
    ReportedAt(k, Ready(p));
    assert Ready(p) in AllLists(k);
    SelectRank(ReadyAt(k, p), t);
  }

  // ---------------------------------------------------------------------------
  // Whole runs
  // ---------------------------------------------------------------------------

  /** The context switches of a run that select at priority p. */
  ghost function SwitchesAt(k: Kernel, h: History, idle: TaskId, steps: seq<Step>, k': Kernel, h': History, p: nat): nat
    requires Executes(k, h, idle, steps, k', h')
    decreases |steps|
  {
    if steps == [] then 0
    else (if SelectsAt(k, steps[0], p) then 1 else 0)
         + SwitchesAt(Do(k, idle, steps[0]), NextHistory(k, h, steps[0]), idle, steps[1..], k', h', p)
  }

  /** Throughout the run t is ready at priority p, is not moved and is not selected. */
  ghost predicate Queues(k: Kernel, h: History, idle: TaskId, steps: seq<Step>, k': Kernel, h': History, p: nat, t: TaskId)
    requires Executes(k, h, idle, steps, k', h')
    decreases |steps|
  {
    t in ReadyAt(k, p).items &&
    (steps != [] ==>
       Passes(k, idle, steps[0], p, t)
       && Queues(Do(k, idle, steps[0]), NextHistory(k, h, steps[0]), idle, steps[1..], k', h', p, t))
  }

  ghost predicate Undisplaced(k: Kernel, h: History, idle: TaskId, steps: seq<Step>, k': Kernel, h': History, p: nat, t: TaskId)
    requires Executes(k, h, idle, steps, k', h') && Queues(k, h, idle, steps, k', h', p, t)
    decreases |steps|
  {
    steps != [] ==>
      !DisplacedBy(k, idle, steps[0], p, t)
      && Undisplaced(Do(k, idle, steps[0]), NextHistory(k, h, steps[0]), idle, steps[1..], k', h', p, t)
  }

  /** Everything that happens to the ready list of priority p in the run. */
  ghost function RunOps(k: Kernel, h: History, idle: TaskId, steps: seq<Step>, k': Kernel, h': History, p: nat): seq<RingOp>
    requires Executes(k, h, idle, steps, k', h')
    decreases |steps|
  {
    if steps == [] then []
    else StepOps(k, idle, steps[0], p)
         + RunOps(Do(k, idle, steps[0]), NextHistory(k, h, steps[0]), idle, steps[1..], k', h', p)
  }

  lemma {:induction false} RunActs(k: Kernel, h: History, idle: TaskId, steps: seq<Step>, k': Kernel, h': History, p: nat)
    requires Housed(k, idle) && Executes(k, h, idle, steps, k', h')
    ensures Runs(ReadyAt(k, p), RunOps(k, h, idle, steps, k', h', p), ReadyAt(k', p))
    ensures Selections(RunOps(k, h, idle, steps, k', h', p)) == SwitchesAt(k, h, idle, steps, k', h', p)
    decreases |steps|
  {
    hide Do, Enabled, NextHistory, StepOps, HousedMaps, Coherent, At, Runs;
    if steps == [] {
      ReadyValid(k, p);
    } else {
      var k1, h1 := Do(k, idle, steps[0]), NextHistory(k, h, steps[0]);
      var a, b := StepOps(k, idle, steps[0], p), RunOps(k1, h1, idle, steps[1..], k', h', p);
      StepHoused(k, idle, steps[0]);
      StepActs(k, idle, steps[0], p);
      RunActs(k1, h1, idle, steps[1..], k', h', p);
      RunsConcat(ReadyAt(k, p), a, ReadyAt(k1, p), b, ReadyAt(k', p));
      SelectionsConcat(a, b);
      StepSelections(k, idle, steps[0], p);
    }
  }

  lemma {:induction false} SelectionsConcat(a: seq<RingOp>, b: seq<RingOp>)
    ensures Selections(a + b) == Selections(a) + Selections(b)
  {
    if a == [] {
      assert a + b == b;
    } else {
      SelectionsConcat(a[1..], b);
      assert (a + b)[1..] == a[1..] + b;
    }
  }

  lemma {:induction false} NoSelections(ops: seq<RingOp>)
    requires OnlyArrivals(ops)
    ensures Selections(ops) == 0
  {
    if ops != [] {
      NoSelections(ops[1..]);
    }
  }

  lemma StepSelections(k: Kernel, idle: TaskId, s: Step, p: nat)
    requires Housed(k, idle) && Enabled(k, idle, s)
    ensures Selections(StepOps(k, idle, s, p)) == if SelectsAt(k, s, p) then 1 else 0
  {
    hide Enabled, StepOps, HousedMaps, Coherent, At;
    var ops := StepOps(k, idle, s, p);
    if ops != [] {
      NoSelections(ops[1..]);
    }
  }

  lemma {:induction false} WaitsConcat(r: Ring<TaskId>, t: TaskId, a: seq<RingOp>, r1: Ring<TaskId>, b: seq<RingOp>)
    requires Runs(r, a, r1) && Waits(r, t, a) && Waits(r1, t, b)
    ensures Waits(r, t, a + b)
    ensures NeverDisplaced(r, t, a) && NeverDisplaced(r1, t, b) ==> NeverDisplaced(r, t, a + b)
    decreases |a|
  {
    if a == [] {
      assert a + b == b;
    } else {
      WaitsConcat(Apply(r, a[0]), t, a[1..], r1, b);
      assert (a + b)[1..] == a[1..] + b;
    }
  }

  lemma {:induction false} QueuesWait(k: Kernel, h: History, idle: TaskId, steps: seq<Step>, k': Kernel, h': History, p: nat, t: TaskId)
    requires Housed(k, idle) && Executes(k, h, idle, steps, k', h') && Queues(k, h, idle, steps, k', h', p, t)
    ensures Waits(ReadyAt(k, p), t, RunOps(k, h, idle, steps, k', h', p))
    ensures Undisplaced(k, h, idle, steps, k', h', p, t)
            ==> NeverDisplaced(ReadyAt(k, p), t, RunOps(k, h, idle, steps, k', h', p))
    decreases |steps|
  {
    hide Do, Enabled, NextHistory, StepOps, HousedMaps, Coherent, At, Passes, DisplacedBy;
    if steps == [] {
      ReadyValid(k, p);
    } else {
      hide Runs;
      var k1, h1 := Do(k, idle, steps[0]), NextHistory(k, h, steps[0]);
      StepHoused(k, idle, steps[0]);
      StepActs(k, idle, steps[0], p);
      StepWaits(k, idle, steps[0], p, t);
      QueuesWait(k1, h1, idle, steps[1..], k', h', p, t);
      WaitsConcat(ReadyAt(k, p), t, StepOps(k, idle, steps[0], p), ReadyAt(k1, p), RunOps(k1, h1, idle, steps[1..], k', h', p));
    }
  }

  /**
   Bounded waiting in the kernel: a ready task that is k-th from the index of its list, and not under it, is selected
   within k context switches that select at its priority, whatever else the kernel does, unless it is moved or displaced.
   */
  lemma SelectedInTime(k: Kernel, h: History, idle: TaskId, steps: seq<Step>, k': Kernel, h': History, p: nat, t: TaskId)
    requires Housed(k, idle) && Executes(k, h, idle, steps, k', h') && Queues(k, h, idle, steps, k', h', p, t)
    requires !AtIndex(ReadyAt(k, p), t) && Undisplaced(k, h, idle, steps, k', h', p, t)
    ensures ReadyAt(k, p).at <= |ReadyAt(k, p).items| && t in ReadyAt(k, p).items
    ensures SwitchesAt(k, h, idle, steps, k', h', p) < Rings.Rank(ReadyAt(k, p), t)
  {
    hide Do, Enabled, NextHistory, StepOps, HousedMaps, Coherent, At;
    ReadyValid(k, p);
    RunActs(k, h, idle, steps, k', h', p);
    QueuesWait(k, h, idle, steps, k', h', p, t);
    SelectedWithinRank(ReadyAt(k, p), t, RunOps(k, h, idle, steps, k', h', p));
  }
}
