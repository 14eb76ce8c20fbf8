/**
 The task kernel as values: control blocks, the lists tasks are filed in, the tick, and the effect of every
 kernel operation.  Scheduler proves that the loops and assignments of the kernel have exactly these effects.
 */
module Kernels {
  import opened Ticks
  import opened Rings
  import opened Families

  type Count = n: int | 1 <= n witness 1

  /** configMAX_PRIORITIES. */
  const PRIORITIES: Count

  type TaskId = nat

  /** The lists a task's state item can be in, and those its event item can be in. */
  datatype StateList = Ready(priority: nat) | FirstDelayed | SecondDelayed | Suspended | Terminating
  datatype EventList = PendingReady | Event(id: nat)

  /** The event item's value: the coded priority, or a value borrowed by an event group (flagged in use). */
  datatype EventValue = Coded(value: nat) | Borrowed(value: nat)

  datatype Tcb = Tcb(priority: nat, base: nat, held: nat, wake: Tick, eventValue: EventValue)

  datatype Kernel = Kernel(
    tcbs: map<TaskId, Tcb>,
    states: Family<StateList>,
    events: Family<EventList>,
    current: TaskId,
    top: nat,                  // uxTopReadyPriority of the generic scheduler
    bits: set<nat>,            // the ready-priority bitmap of the port-optimised one
    tick: Tick,
    nextUnblock: Tick,
    overflows: nat,
    firstIsCurrent: bool,      // which of the two delayed lists pxDelayedTaskList points to
    suspended: nat,            // uxSchedulerSuspended
    pended: nat,               // uxPendedTicks
    yieldPending: bool)

  /** The part of the invariant that makes the operations meaningful. */
  ghost predicate Coherent(k: Kernel) {
    && Consistent(k.states) && Consistent(k.events)
    && k.states.home.Keys <= k.tcbs.Keys
    && k.events.home.Keys <= k.tcbs.Keys
    && k.current in k.tcbs
    && forall t :: t in k.tcbs ==> k.tcbs[t].priority < PRIORITIES && k.tcbs[t].base < PRIORITIES
  }

  function DelayedList(k: Kernel): StateList {
    if k.firstIsCurrent then FirstDelayed else SecondDelayed
  }

  function OverflowList(k: Kernel): StateList {
    if k.firstIsCurrent then SecondDelayed else FirstDelayed
  }

  function ReadyAt(k: Kernel, p: nat): Ring<TaskId> {
    At(k.states, Ready(p))
  }

  function WakeOf(tcbs: map<TaskId, Tcb>, t: TaskId): nat {
    if t in tcbs then tcbs[t].wake else 0
  }

  function Wakes(tcbs: map<TaskId, Tcb>, s: seq<TaskId>): (w: seq<nat>)
    ensures |w| == |s|
  {
    seq(|s|, i requires 0 <= i < |s| => WakeOf(tcbs, s[i]))
  }

  function EventValueOf(tcbs: map<TaskId, Tcb>, t: TaskId): nat {
    if t in tcbs then tcbs[t].eventValue.value else 0
  }

  function EventValues(tcbs: map<TaskId, Tcb>, s: seq<TaskId>): (w: seq<nat>)
    ensures |w| == |s|
  {
    seq(|s|, i requires 0 <= i < |s| => EventValueOf(tcbs, s[i]))
  }

  function CodedPriority(p: nat): EventValue
    requires p < PRIORITIES
  {
    Coded(PRIORITIES - p)
  }

  lemma MapReinsert<X, Y>(m: map<X, Y>, x: X, y: Y)
    ensures (m - {x})[x := y] == m[x := y]
  {
  }

  lemma MapSame<X, Y>(m: map<X, Y>, x: X)
    requires x in m
    ensures m[x := m[x]] == m
  {
  }

  lemma MapOverwrite<X, Y>(m: map<X, Y>, x: X, y: Y, z: Y)
    ensures m[x := y][x := z] == m[x := z]
  {
  }

  // ---------------------------------------------------------------------------
  // Building blocks
  // ---------------------------------------------------------------------------

  function WithTcb(k: Kernel, t: TaskId, tcb: Tcb): (k': Kernel)
    requires Coherent(k) && tcb.priority < PRIORITIES && tcb.base < PRIORITIES
    ensures Coherent(k')
  {
    k.(tcbs := k.tcbs[t := tcb])
  }

  /** uxListRemove of the state item. */
  function Unlink(k: Kernel, t: TaskId): (k': Kernel)
    requires Coherent(k) && t in k.states.home
    ensures Coherent(k') && k' == k.(states := k'.states) && k'.states.home == k.states.home - {t}
  {
    k.(states := Take(k.states, t))
  }

  /** The same, with the bitmap entry cleared when the task's ready list has become empty. */
  function UnlinkReset(k: Kernel, t: TaskId): (k': Kernel)
    requires Coherent(k) && t in k.states.home
    ensures Coherent(k') && k' == k.(states := k'.states, bits := k'.bits)
    ensures k'.states.home == k.states.home - {t}
  {
    var l := k.states.home[t];
    var p := k.tcbs[t].priority;
    var k' := Unlink(k, t);
    if At(k'.states, l).items == [] && ReadyAt(k', p).items == [] then k'.(bits := k'.bits - {p}) else k'
  }

  /** prvAddTaskToReadyList. */
  function MakeReady(k: Kernel, t: TaskId): (k': Kernel)
    requires Coherent(k) && t in k.tcbs && t !in k.states.home
    ensures Coherent(k') && k' == k.(states := k'.states, top := k'.top, bits := k'.bits)
    ensures k'.states.home == k.states.home[t := Ready(k.tcbs[t].priority)]
  {
    var p := k.tcbs[t].priority;
    k.(states := Append(k.states, Ready(p), t), top := if p > k.top then p else k.top, bits := k.bits + {p})
  }

  function Park(k: Kernel, l: StateList, t: TaskId): (k': Kernel)
    requires Coherent(k) && t in k.tcbs && t !in k.states.home
    ensures k' == k.(states := k'.states)
    ensures Coherent(k') && k'.states.home == k.states.home[t := l]
  {
    k.(states := Append(k.states, l, t))
  }

  function FileSorted(k: Kernel, l: StateList, t: TaskId): (k': Kernel)
    requires Coherent(k) && t in k.tcbs && t !in k.states.home
    ensures k' == k.(states := k'.states)
    ensures Coherent(k') && k'.states.home == k.states.home[t := l]
  {
    var s := At(k.states, l).items;
    k.(states := Place(k.states, l, Slot(Wakes(k.tcbs, s), k.tcbs[t].wake), t))
  }

  /** prvAddCurrentTaskToDelayedList. */
  function AddDelayed(k: Kernel, t: TaskId, wake: Tick): (k': Kernel)
    requires Coherent(k) && t in k.tcbs && t !in k.states.home
    ensures Coherent(k')
    ensures k' == k.(states := k'.states, tcbs := k.tcbs[t := k.tcbs[t].(wake := wake)], nextUnblock := k'.nextUnblock)
    ensures k'.states.home == k.states.home[t := if wake < k.tick then OverflowList(k) else DelayedList(k)]
  {
    var k1 := WithTcb(k, t, k.tcbs[t].(wake := wake));
    if wake < k.tick then
      FileSorted(k1, OverflowList(k), t)
    else
      FileSorted(k1, DelayedList(k), t).(nextUnblock := if wake < k.nextUnblock then wake else k.nextUnblock)
  }

  function LeaveEvent(k: Kernel, t: TaskId): (k': Kernel)
    requires Coherent(k)
    ensures k' == k.(events := k'.events)
    ensures Coherent(k') && k'.events.home == k.events.home - {t}
  {
    if t in k.events.home then k.(events := Take(k.events, t))
    else assert k.events.home - {t} == k.events.home; k
  }

  function JoinEnd(k: Kernel, e: EventList, t: TaskId): (k': Kernel)
    requires Coherent(k) && t in k.tcbs && t !in k.events.home
    ensures k' == k.(events := k'.events)
    ensures Coherent(k') && k'.events.home == k.events.home[t := e]
  {
    k.(events := Append(k.events, e, t))
  }

  function JoinSorted(k: Kernel, e: EventList, t: TaskId): (k': Kernel)
    requires Coherent(k) && t in k.tcbs && t !in k.events.home
    ensures k' == k.(events := k'.events)
    ensures Coherent(k') && k'.events.home == k.events.home[t := e]
  {
    var s := At(k.events, e).items;
    k.(events := Place(k.events, e, Slot(EventValues(k.tcbs, s), k.tcbs[t].eventValue.value), t))
  }

  // ---------------------------------------------------------------------------
  // Creating, deleting, suspending, resuming
  // ---------------------------------------------------------------------------

  function Create(k: Kernel, t: TaskId, priority: nat): (k': Kernel)
    requires Coherent(k) && t !in k.tcbs && priority < PRIORITIES
    ensures Coherent(k') && k' == k.(states := k'.states, tcbs := k'.tcbs, top := k'.top, bits := k'.bits)
    ensures k'.states.home == k.states.home[t := Ready(priority)]
    ensures k'.tcbs == k.tcbs[t := Tcb(priority, priority, 0, 0, CodedPriority(priority))]
  {
    MakeReady(WithTcb(k, t, Tcb(priority, priority, 0, 0, CodedPriority(priority))), t)
  }

  function Delete(k: Kernel, t: TaskId): (k': Kernel)
    requires Coherent(k) && t in k.states.home
    ensures Coherent(k') && k' == k.(states := k'.states, bits := k'.bits, events := k'.events)
    ensures k'.states.home == k.states.home[t := Terminating]
    ensures k'.events.home == k.events.home - {t}
  {
    MapReinsert(k.states.home, t, Terminating);
    Park(LeaveEvent(UnlinkReset(k, t), t), Terminating, t)
  }

  /** The critical section of prvCheckTasksWaitingTermination, and the release of the control block. */
  function Reap(k: Kernel): (k': Kernel)
    requires Coherent(k) && At(k.states, Terminating).items != []
    ensures var t := At(k.states, Terminating).items[0];
            && t in k.states.home && k.states.home[t] == Terminating
            && k' == k.(states := k'.states, tcbs := k.tcbs - {t})
            && Consistent(k'.states) && k'.states.home == k.states.home - {t}
  {
    var t := At(k.states, Terminating).items[0];
    assert t in k.states.home;
    var k' := Unlink(k, t);
    k'.(tcbs := k'.tcbs - {t})
  }

  function Suspend(k: Kernel, t: TaskId): (k': Kernel)
    requires Coherent(k) && t in k.states.home
    ensures Coherent(k') && k' == k.(states := k'.states, bits := k'.bits, events := k'.events)
    ensures k'.states.home == k.states.home[t := Suspended]
    ensures k'.events.home == k.events.home - {t}
  {
    MapReinsert(k.states.home, t, Suspended);
    Park(LeaveEvent(UnlinkReset(k, t), t), Suspended, t)
  }

  /** prvTaskIsTaskSuspended: in the suspended list, and neither waiting for an event nor already resumed. */
  predicate IsSuspended(k: Kernel, t: TaskId) {
    t in k.states.home && k.states.home[t] == Suspended && t !in k.events.home
  }

  function Resume(k: Kernel, t: TaskId): (k': Kernel)
    requires Coherent(k)
    ensures Coherent(k') && k' == k.(states := k'.states, top := k'.top, bits := k'.bits)
    ensures k'.states.home == if t != k.current && IsSuspended(k, t)
                              then k.states.home[t := Ready(k.tcbs[t].priority)] else k.states.home
  {
    MapReinsert(k.states.home, t, Ready(if t in k.tcbs then k.tcbs[t].priority else 0));
    if t != k.current && IsSuspended(k, t) then MakeReady(Unlink(k, t), t) else k
  }

  function ResumeFromISR(k: Kernel, t: TaskId): (k': Kernel)
    requires Coherent(k)
    ensures Coherent(k') && k' == k.(states := k'.states, events := k'.events, top := k'.top, bits := k'.bits)
    ensures k'.states.home == if k.suspended == 0 && IsSuspended(k, t)
                              then k.states.home[t := Ready(k.tcbs[t].priority)] else k.states.home
    ensures k'.events.home == if k.suspended > 0 && IsSuspended(k, t)
                              then k.events.home[t := PendingReady] else k.events.home
  {
    MapReinsert(k.states.home, t, Ready(if t in k.tcbs then k.tcbs[t].priority else 0));
    if !IsSuspended(k, t) then k
    else if k.suspended == 0 then MakeReady(Unlink(k, t), t)
    else JoinEnd(k, PendingReady, t)
  }

  // ---------------------------------------------------------------------------
  // Blocking and waking
  // ---------------------------------------------------------------------------

  function SuspendAll(k: Kernel): Kernel {
    k.(suspended := k.suspended + 1)
  }

  /** vTaskDelay and vTaskDelayUntil, once the wake time is known. */
  function DelayUntil(k: Kernel, wake: Tick): (k': Kernel)
    requires Coherent(k) && k.current in k.states.home
    ensures Coherent(k')
    ensures k' == k.(states := k'.states, bits := k'.bits, nextUnblock := k'.nextUnblock,
                     tcbs := k.tcbs[k.current := k.tcbs[k.current].(wake := wake)])
    ensures k'.states.home == k.states.home[k.current := if wake < k.tick then OverflowList(k) else DelayedList(k)]
    ensures k'.nextUnblock == if k.tick <= wake < k.nextUnblock then wake else k.nextUnblock
  {
    var l := if wake < k.tick then OverflowList(k) else DelayedList(k);
    MapReinsert(k.states.home, k.current, l);
    AddDelayed(UnlinkReset(k, k.current), k.current, wake)
  }

  function Delay(k: Kernel, n: Tick): Kernel
    requires Coherent(k) && k.current in k.states.home
  {
    DelayUntil(k, Add(k.tick, n))
  }

  /** The list a blocking task goes to, and the wake time it is given. */
  function BlockList(k: Kernel, n: Tick, forever: bool): StateList {
    if forever then Suspended else if Add(k.tick, n) < k.tick then OverflowList(k) else DelayedList(k)
  }

  function BlockWake(k: Kernel, n: Tick, forever: bool): Tick
    requires Coherent(k)
  {
    if forever then k.tcbs[k.current].wake else Add(k.tick, n)
  }

  function BlockNext(k: Kernel, n: Tick, forever: bool): Tick {
    if !forever && k.tick <= Add(k.tick, n) < k.nextUnblock then Add(k.tick, n) else k.nextUnblock
  }

  /** The common tail of the three functions that place the running task on an event list. */
  function Block(k: Kernel, n: Tick, forever: bool): (k': Kernel)
    requires Coherent(k) && k.current in k.states.home
    ensures Coherent(k')
    ensures k' == k.(states := k'.states, bits := k'.bits, nextUnblock := k'.nextUnblock,
                     tcbs := k.tcbs[k.current := k.tcbs[k.current].(wake := BlockWake(k, n, forever))])
    ensures k'.states.home == k.states.home[k.current := BlockList(k, n, forever)]
    ensures k'.nextUnblock == BlockNext(k, n, forever)
  {
    MapReinsert(k.states.home, k.current, Suspended);
    MapSame(k.tcbs, k.current);
    if forever then Park(UnlinkReset(k, k.current), Suspended, k.current) else Delay(k, n)
  }

  predicate CanJoin(k: Kernel) {
    k.current in k.states.home && k.current !in k.events.home
  }

  function PlaceOnEventList(k: Kernel, e: nat, n: Tick): (k': Kernel)
    requires Coherent(k) && CanJoin(k)
    ensures Coherent(k') && k' == k.(states := k'.states, bits := k'.bits, nextUnblock := k'.nextUnblock,
                                     events := k'.events, tcbs := k'.tcbs)
    ensures k'.states.home == k.states.home[k.current := BlockList(k, n, n == MAX_DELAY)]
    ensures k'.nextUnblock == BlockNext(k, n, n == MAX_DELAY)
    ensures k'.events.home == k.events.home[k.current := Event(e)]
    ensures k'.tcbs == k.tcbs[k.current := k.tcbs[k.current].(wake := BlockWake(k, n, n == MAX_DELAY))]
  {
    Block(JoinSorted(k, Event(e), k.current), n, n == MAX_DELAY)
  }

  function PlaceOnUnorderedEventList(k: Kernel, e: nat, value: nat, n: Tick): (k': Kernel)
    requires Coherent(k) && CanJoin(k)
    ensures Coherent(k') && k' == k.(states := k'.states, bits := k'.bits, nextUnblock := k'.nextUnblock,
                                     events := k'.events, tcbs := k'.tcbs)
    ensures k'.states.home == k.states.home[k.current := BlockList(k, n, n == MAX_DELAY)]
    ensures k'.nextUnblock == BlockNext(k, n, n == MAX_DELAY)
    ensures k'.events.home == k.events.home[k.current := Event(e)]
    ensures k'.tcbs == k.tcbs[k.current := k.tcbs[k.current].(eventValue := Borrowed(value),
                                                              wake := BlockWake(k, n, n == MAX_DELAY))]
  {
    var tcb := k.tcbs[k.current].(eventValue := Borrowed(value));
    var k1 := WithTcb(k, k.current, tcb);
    MapOverwrite(k.tcbs, k.current, tcb, tcb.(wake := BlockWake(k1, n, n == MAX_DELAY)));
    Block(JoinEnd(k1, Event(e), k.current), n, n == MAX_DELAY)
  }

  function PlaceOnEventListRestricted(k: Kernel, e: nat, n: Tick, forever: bool): (k': Kernel)
    requires Coherent(k) && CanJoin(k)
    ensures Coherent(k') && k' == k.(states := k'.states, bits := k'.bits, nextUnblock := k'.nextUnblock,
                                     events := k'.events, tcbs := k'.tcbs)
    ensures k'.states.home == k.states.home[k.current := BlockList(k, n, forever)]
    ensures k'.nextUnblock == BlockNext(k, n, forever)
    ensures k'.events.home == k.events.home[k.current := Event(e)]
    ensures k'.tcbs == k.tcbs[k.current := k.tcbs[k.current].(wake := BlockWake(k, n, forever))]
  {
    Block(JoinEnd(k, Event(e), k.current), n, forever)
  }

  function RaiseYield(k: Kernel, raise: bool): Kernel {
    k.(yieldPending := k.yieldPending || raise)
  }

  predicate Outranks(k: Kernel, t: TaskId)
    requires Coherent(k)
  {
    t in k.tcbs && k.tcbs[t].priority > k.tcbs[k.current].priority
  }

  predicate Rivals(k: Kernel, t: TaskId)
    requires Coherent(k)
  {
    t in k.tcbs && k.tcbs[t].priority >= k.tcbs[k.current].priority
  }

  /** xTaskRemoveFromEventList: the head waiter becomes ready, or pending while the scheduler is suspended. */
  function RemoveFromEventList(k: Kernel, e: nat): (k': Kernel)
    requires Coherent(k) && At(k.events, Event(e)).items != []
    requires k.suspended == 0 ==> At(k.events, Event(e)).items[0] in k.states.home
    ensures Coherent(k') && k' == k.(states := k'.states, top := k'.top, bits := k'.bits, events := k'.events,
                                     yieldPending := k'.yieldPending)
    ensures var t := At(k.events, Event(e)).items[0];
            && t in k.events.home && k.events.home[t] == Event(e) && t in k.tcbs
            && (k.suspended == 0 ==> k'.states.home == k.states.home[t := Ready(k.tcbs[t].priority)])
            && (k.suspended == 0 ==> k'.events.home == k.events.home - {t})
            && (k.suspended > 0 ==> k'.states == k.states && k'.events.home == k.events.home[t := PendingReady])
  {
    var t := At(k.events, Event(e)).items[0];
    assert t in k.events.home;
    var k1 := LeaveEvent(k, t);
    MapReinsert(k.states.home, t, Ready(k.tcbs[t].priority));
    MapReinsert(k.events.home, t, PendingReady);
    var k2 := if k.suspended == 0 then MakeReady(Unlink(k1, t), t) else JoinEnd(k1, PendingReady, t);
    RaiseYield(k2, Outranks(k, t))
  }

  function RemoveFromUnorderedEventList(k: Kernel, t: TaskId, value: nat): (k': Kernel)
    requires Coherent(k) && t in k.events.home && t in k.states.home
    ensures Coherent(k') && k' == k.(states := k'.states, top := k'.top, bits := k'.bits, events := k'.events,
                                     yieldPending := k'.yieldPending,
                                     tcbs := k.tcbs[t := k.tcbs[t].(eventValue := Borrowed(value))])
    ensures k'.states.home == k.states.home[t := Ready(k.tcbs[t].priority)]
    ensures k'.events.home == k.events.home - {t}
  {
    MapReinsert(k.states.home, t, Ready(k.tcbs[t].priority));
    var k1 := WithTcb(k, t, k.tcbs[t].(eventValue := Borrowed(value)));
    RaiseYield(MakeReady(Unlink(LeaveEvent(k1, t), t), t), Outranks(k, t))
  }

  /** uxTaskResetEventItemValue. */
  function ResetEventValue(k: Kernel): Kernel
    requires Coherent(k)
  {
    var tcb := k.tcbs[k.current];
    WithTcb(k, k.current, tcb.(eventValue := CodedPriority(tcb.priority)))
  }

  // ---------------------------------------------------------------------------
  // The tick
  // ---------------------------------------------------------------------------

  /** prvResetNextTaskUnblockTime. */
  function ResetNextUnblock(k: Kernel): Kernel
    requires Coherent(k)
  {
    var s := At(k.states, DelayedList(k)).items;
    if s == [] then k.(nextUnblock := MAX_DELAY)
    else assert s[0] in k.tcbs; k.(nextUnblock := k.tcbs[s[0]].wake)
  }

  /** taskSWITCH_DELAYED_LISTS. */
  function SwitchDelayedLists(k: Kernel): (k': Kernel)
    requires Coherent(k)
    ensures Coherent(k')
  {
    ResetNextUnblock(k.(firstIsCurrent := !k.firstIsCurrent, overflows := k.overflows + 1))
  }

  /** Out of the delayed list, out of any event list, into the ready list. */
  function Expire(k: Kernel, t: TaskId): (k': Kernel)
    requires Coherent(k) && t in k.states.home
    ensures Coherent(k')
    ensures k' == k.(states := k'.states, events := k'.events, top := k'.top, bits := k'.bits)
    ensures k'.states.home == k.states.home[t := Ready(k.tcbs[t].priority)]
    ensures k'.events.home == k.events.home - {t}
  {
    var k1 := LeaveEvent(Unlink(k, t), t);
    MapReinsert(k.states.home, t, Ready(k.tcbs[t].priority));
    MakeReady(k1, t)
  }

  lemma ExpireShrinks(k: Kernel)
    requires Coherent(k) && At(k.states, DelayedList(k)).items != []
    ensures At(k.states, DelayedList(k)).items[0] in k.states.home
    ensures var t := At(k.states, DelayedList(k)).items[0];
            |At(Expire(k, t).states, DelayedList(k)).items| < |At(k.states, DelayedList(k)).items|
  {
    var t := At(k.states, DelayedList(k)).items[0];
    assert t in k.states.home;
    var p := k.tcbs[t].priority;
    TakeAt(k.states, t, DelayedList(k));
    AppendAt(Take(k.states, t), Ready(p), t, DelayedList(k));
  }

  /** The loop that unblocks every task whose time has come. */
  function WakeDue(k: Kernel): (k': Kernel)
    requires Coherent(k)
    ensures Coherent(k')
    ensures k' == k.(states := k'.states, events := k'.events, top := k'.top, bits := k'.bits,
                     nextUnblock := k'.nextUnblock)
    decreases |At(k.states, DelayedList(k)).items|
  {
    var s := At(k.states, DelayedList(k)).items;
    if s == [] then k.(nextUnblock := MAX_DELAY)
    else
      ExpireShrinks(k);
      if k.tick < k.tcbs[s[0]].wake then k.(nextUnblock := k.tcbs[s[0]].wake)
      else WakeDue(Expire(k, s[0]))
  }

  /** Whether that loop unblocks a task that ranks with the running one. */
  predicate WakesRival(k: Kernel)
    requires Coherent(k)
    decreases |At(k.states, DelayedList(k)).items|
  {
    var s := At(k.states, DelayedList(k)).items;
    s != [] &&
    (ExpireShrinks(k);
     k.tcbs[s[0]].wake <= k.tick && (Rivals(k, s[0]) || WakesRival(Expire(k, s[0]))))
  }

  /** Advancing the tick, with the list switch when it wraps. */
  function Advanced(k: Kernel): (k': Kernel)
    requires Coherent(k)
    ensures Coherent(k')
  {
    var k1 := k.(tick := Ticks.Add(k.tick, 1));
    if k1.tick == 0 then SwitchDelayedLists(k1) else k1
  }

  /** xTaskIncrementTick. */
  function IncrementTick(k: Kernel): (k': Kernel)
    requires Coherent(k)
    ensures Coherent(k') && k'.tcbs == k.tcbs && k'.current == k.current
  {
    if k.suspended > 0 then k.(pended := k.pended + 1)
    else if Advanced(k).nextUnblock <= Advanced(k).tick then WakeDue(Advanced(k))
    else Advanced(k)
  }

  /** Its result: whether a context switch is called for. */
  predicate TickWantsSwitch(k: Kernel)
    requires Coherent(k)
  {
    k.yieldPending ||
    (k.suspended == 0 &&
     ((Advanced(k).nextUnblock <= Advanced(k).tick && WakesRival(Advanced(k))) ||
      |ReadyAt(IncrementTick(k), k.tcbs[k.current].priority).items| > 1))
  }

  // ---------------------------------------------------------------------------
  // Resuming the scheduler and selecting a task
  // ---------------------------------------------------------------------------

  /** Every pending-ready task is also in a list of blocked tasks. */
  ghost predicate PendingHoused(k: Kernel) {
    forall t :: t in k.events.home && k.events.home[t] == PendingReady ==> t in k.states.home
  }

  lemma PendingHead(k: Kernel)
    requires Coherent(k) && At(k.events, PendingReady).items != []
    ensures var t := At(k.events, PendingReady).items[0];
            && t in k.events.home && k.events.home[t] == PendingReady
            && |At(LeaveEvent(k, t).events, PendingReady).items| < |At(k.events, PendingReady).items|
  {
    var t := At(k.events, PendingReady).items[0];
    assert t in At(k.events, PendingReady).items;
    TakeAt(k.events, t, PendingReady);
  }

  /** One task moved from the pending-ready list to its ready list. */
  function DrainOne(k: Kernel): (k': Kernel)
    requires Coherent(k) && PendingHoused(k) && At(k.events, PendingReady).items != []
    ensures Coherent(k') && PendingHoused(k')
    ensures |At(k'.events, PendingReady).items| < |At(k.events, PendingReady).items|
    ensures k' == k.(states := k'.states, events := k'.events, top := k'.top, bits := k'.bits, yieldPending := k'.yieldPending)
  {
    PendingHead(k);
    var t := At(k.events, PendingReady).items[0];
    RaiseYield(MakeReady(Unlink(LeaveEvent(k, t), t), t), Rivals(k, t))
  }

  function Drain(k: Kernel): (k': Kernel)
    requires Coherent(k) && PendingHoused(k)
    ensures Coherent(k') && At(k'.events, PendingReady).items == []
    ensures k' == k.(states := k'.states, events := k'.events, top := k'.top, bits := k'.bits, yieldPending := k'.yieldPending)
    decreases |At(k.events, PendingReady).items|
  {
    if At(k.events, PendingReady).items == [] then k else Drain(DrainOne(k))
  }

  /** One held-back tick, replayed. */
  function ReplayOne(k: Kernel): (k': Kernel)
    requires Coherent(k) && k.pended > 0
    ensures Coherent(k')
  {
    var k' := IncrementTick(k);
    RaiseYield(k', TickWantsSwitch(k)).(pended := k.pended - 1)
  }

  function Replay(k: Kernel): (k': Kernel)
    requires Coherent(k) && k.suspended == 0
    ensures Coherent(k') && k'.pended == 0 && k'.tcbs == k.tcbs && k'.current == k.current
    decreases k.pended
  {
    if k.pended == 0 then k else ReplayKeepsRunning(k); Replay(ReplayOne(k))
  }

  lemma ReplayKeepsRunning(k: Kernel)
    requires Coherent(k) && k.suspended == 0
    ensures IncrementTick(k).suspended == 0 && IncrementTick(k).pended == k.pended
  {
  }

  /** xTaskResumeAll; a yield is performed exactly when yieldPending is then set. */
  function ResumeAll(k: Kernel): Kernel
    requires Coherent(k) && PendingHoused(k) && k.suspended > 0
  {
    var k1 := k.(suspended := k.suspended - 1);
    if k1.suspended > 0 then k1 else Replay(Drain(k1))
  }

  /** The downward scan from uxTopReadyPriority. */
  function ScanDown(states: Family<StateList>, p: nat): (q: nat)
    ensures q <= p
    ensures forall i: nat :: q < i <= p ==> At(states, Ready(i)).items == []
    ensures q > 0 ==> At(states, Ready(q)).items != []
  {
    if At(states, Ready(p)).items != [] || p == 0 then p else ScanDown(states, p - 1)
  }

  /** vTaskSwitchContext, given the priority to run at. */
  function SwitchTo(k: Kernel, p: nat): (k': Kernel)
    requires Coherent(k) && ReadyAt(k, p).items != []
  {
    var states := Advance(k.states, Ready(p));
    k.(states := states, current := Selected(At(states, Ready(p))), top := p, yieldPending := false)
  }

  function SwitchContext(k: Kernel): Kernel
    requires Coherent(k) && ReadyAt(k, ScanDown(k.states, k.top)).items != []
  {
    if k.suspended > 0 then k.(yieldPending := true) else SwitchTo(k, ScanDown(k.states, k.top))
  }

  // ---------------------------------------------------------------------------
  // Priorities
  // ---------------------------------------------------------------------------

  /** Gives a task a new control block, re-filing it if it is in the ready list of its old priority. */
  function Refile(k: Kernel, t: TaskId, tcb: Tcb): (k': Kernel)
    requires Coherent(k) && t in k.tcbs && tcb.priority < PRIORITIES && tcb.base < PRIORITIES
    ensures Coherent(k')
    ensures k' == k.(states := k'.states, top := k'.top, bits := k'.bits, tcbs := k.tcbs[t := tcb])
    ensures k'.states.home == if t in k.states.home && k.states.home[t] == Ready(k.tcbs[t].priority)
                              then k.states.home[t := Ready(tcb.priority)] else k.states.home
  {
    MapReinsert(k.states.home, t, Ready(tcb.priority));
    if t in k.states.home && k.states.home[t] == Ready(k.tcbs[t].priority) then
      MakeReady(WithTcb(UnlinkReset(k, t), t, tcb), t)
    else
      WithTcb(k, t, tcb)
  }

  function Recoded(v: EventValue, p: nat): EventValue
    requires p < PRIORITIES
  {
    if v.Coded? then CodedPriority(p) else v
  }

  /** A requested priority, limited to the highest there is. */
  function Clamped(requested: nat): (p: nat)
    ensures p < PRIORITIES
  {
    if requested >= PRIORITIES then PRIORITIES - 1 else requested
  }

  /** vTaskPrioritySet: an inherited priority stays in use, the base changes whatever. */
  function PrioritySet(k: Kernel, t: TaskId, requested: nat): Kernel
    requires Coherent(k) && t in k.tcbs
  {
    var p := Clamped(requested);
    var tcb := k.tcbs[t];
    if tcb.base == p then k
    else
      Refile(k, t, tcb.(priority := if tcb.base == tcb.priority then p else tcb.priority, base := p,
                        eventValue := Recoded(tcb.eventValue, p)))
  }

  /** Whether vTaskPrioritySet then yields. */
  predicate ChangeYields(k: Kernel, t: TaskId, requested: nat)
    requires Coherent(k) && t in k.tcbs
  {
    var p, base := Clamped(requested), k.tcbs[t].base;
    p != base && if p > base then t != k.current && p >= k.tcbs[k.current].priority else t == k.current
  }

  /** vTaskPriorityInherit, for a mutex that has a holder. */
  function Inherit(k: Kernel, holder: TaskId): Kernel
    requires Coherent(k) && holder in k.tcbs
  {
    var tcb, p := k.tcbs[holder], k.tcbs[k.current].priority;
    if tcb.priority < p then
      Refile(k, holder, tcb.(priority := p, eventValue := Recoded(tcb.eventValue, p)))
    else k
  }

  /** The control block after one mutex less is held: the base priority again when it was the last. */
  function Disinherited(tcb: Tcb): Tcb
    requires tcb.held > 0 && tcb.base < PRIORITIES
  {
    if tcb.priority != tcb.base && tcb.held == 1 then
      tcb.(held := 0, priority := tcb.base, eventValue := CodedPriority(tcb.base))
    else tcb.(held := tcb.held - 1)
  }

  /** xTaskPriorityDisinherit by the running holder. */
  function Disinherit(k: Kernel, holder: TaskId): (k': Kernel)
    requires Coherent(k) && holder in k.states.home && k.tcbs[holder].held > 0
    ensures Coherent(k')
    ensures k' == k.(states := k'.states, top := k'.top, bits := k'.bits, tcbs := k.tcbs[holder := Disinherited(k.tcbs[holder])])
    ensures k'.states.home == if Disinherited(k.tcbs[holder]).priority == k.tcbs[holder].priority then k.states.home
                              else k.states.home[holder := Ready(k.tcbs[holder].base)]
  {
    var tcb := k.tcbs[holder].(held := k.tcbs[holder].held - 1);
    MapReinsert(k.states.home, holder, Ready(tcb.base));
    var k1 := WithTcb(k, holder, tcb);
    if tcb.priority != tcb.base && tcb.held == 0 then
      var k2 := UnlinkReset(k1, holder);
      MapOverwrite(k.tcbs, holder, tcb, Disinherited(k.tcbs[holder]));
      MakeReady(WithTcb(k2, holder, tcb.(priority := tcb.base, eventValue := CodedPriority(tcb.base))), holder)
    else k1
  }

  /** pvTaskIncrementMutexHeldCount. */
  function HoldMutex(k: Kernel): Kernel
    requires Coherent(k)
  {
    var tcb := k.tcbs[k.current];
    WithTcb(k, k.current, tcb.(held := tcb.held + 1))
  }

  // ---------------------------------------------------------------------------
  // Reporting
  // ---------------------------------------------------------------------------

  /** The ready lists from the highest priority down to p, then the others. */
  function ReadyLists(p: nat): (ls: seq<StateList>)
    requires p <= PRIORITIES
    ensures |ls| == PRIORITIES - p
    ensures forall i :: 0 <= i < |ls| ==> ls[i] == Ready(PRIORITIES - 1 - i)
  {
    seq(PRIORITIES - p, i requires 0 <= i < PRIORITIES => Ready(PRIORITIES - 1 - i))
  }

  function OtherLists(k: Kernel): seq<StateList> {
    [DelayedList(k), OverflowList(k), Terminating, Suspended]
  }

  function AllLists(k: Kernel): (ls: seq<StateList>)
    ensures Distinct(ls)
    ensures forall l: StateList :: l in ls <==> (l.Ready? ==> l.priority < PRIORITIES)
  {
    var ls := ReadyLists(0) + OtherLists(k);
    assert ls[PRIORITIES] == DelayedList(k) && ls[PRIORITIES + 1] == OverflowList(k);
    assert ls[PRIORITIES + 2] == Terminating && ls[PRIORITIES + 3] == Suspended;
    assert forall l: StateList :: l.Ready? && l.priority < PRIORITIES ==> ls[PRIORITIES - 1 - l.priority] == l;
    ls
  }

  /** The index of every non-empty list in ls moves on, one list after the other. */
  function TurnedLists(f: Family<StateList>, ls: seq<StateList>): (f': Family<StateList>)
    requires Consistent(f)
    ensures Consistent(f') && f'.home == f.home
  {
    if ls == [] then f
    else
      var g, l := TurnedLists(f, ls[..|ls| - 1]), ls[|ls| - 1];
      if At(g, l).items == [] then g else Advance(g, l)
  }

  lemma {:induction false} TurnedAt(f: Family<StateList>, ls: seq<StateList>, l: StateList)
    requires Consistent(f) && Distinct(ls)
    ensures At(TurnedLists(f, ls), l) == if l in ls && At(f, l).items != [] then Next(At(f, l)) else At(f, l)
  {
    if ls != [] {
      var rest, last := ls[..|ls| - 1], ls[|ls| - 1];
      assert ls == rest + [last];
      TurnedAt(f, rest, l);
      TurnedAt(f, rest, last);
    }
  }

  /** What uxTaskGetSystemState does to the lists: it walks a full turn of each non-empty one, and one step more. */
  function ReportAll(k: Kernel): (k': Kernel)
    requires Coherent(k)
    ensures Coherent(k') && k' == k.(states := k'.states) && k'.states.home == k.states.home
  {
    k.(states := TurnedLists(k.states, AllLists(k)))
  }
}
