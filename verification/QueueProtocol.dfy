/**
 The blocking protocol of queues.  A task that finds a queue empty (or full) suspends the scheduler, locks
 the queue, looks again, and only then joins the waiting list; meanwhile interrupts may send and receive,
 but only count what they did.  The invariant says that no wake-up is ever lost, on either side.

 Critical sections are single steps, interrupt steps may fall between any two of them, and while the
 scheduler is suspended no other task takes a step.
 */
module QueueProtocol {

  type TaskId = nat

  // ---------------------------------------------------------------------------
  // One side of a queue: the tasks waiting for messages, or for room
  // ---------------------------------------------------------------------------

  /**
   The waiting list, the tasks an event has removed from it that are not yet back in their critical section,
   and the count of events held back while the queue is locked (-1 while it is not).
   */
  datatype Side = Side(waiting: seq<TaskId>, woken: set<TaskId>, held: int)

  const UNLOCKED := -1

  function Owed(s: Side): nat {
    |s.woken| + if s.held > 0 then s.held else 0
  }

  /** Nobody waits for what is not already promised to somebody woken or about to be. */
  ghost predicate Safe(s: Side, available: nat) {
    s.waiting == [] || available <= Owed(s)
  }

  ghost predicate Listed(s: Side) {
    && s.held >= UNLOCKED
    && (forall i, j :: 0 <= i < j < |s.waiting| ==> s.waiting[i] != s.waiting[j])
    && (forall t :: t in s.waiting ==> t !in s.woken)
  }

  /** xTaskRemoveFromEventList on the head, if anybody waits. */
  function WakeHead(s: Side): Side {
    if s.waiting == [] then s else s.(waiting := s.waiting[1..], woken := s.woken + {s.waiting[0]})
  }

  /** What an interrupt does: wake at once, or count the event for the task that unlocks the queue. */
  function Signal(s: Side): Side {
    if s.held == UNLOCKED then WakeHead(s) else s.(held := s.held + 1)
  }

  function LockSide(s: Side): Side {
    if s.held == UNLOCKED then s.(held := 0) else s
  }

  /** One turn of an unlock loop, or its exit. */
  function UnlockTurn(s: Side): Side {
    if s.held > 0 && s.waiting != [] then WakeHead(s).(held := s.held - 1) else s.(held := UNLOCKED)
  }

  /** vListInsert at a position found from the priorities. */
  function Join(s: Side, at: nat, t: TaskId): Side
    requires at <= |s.waiting|
  {
    s.(waiting := s.waiting[..at] + [t] + s.waiting[at..])
  }

  function Leave(s: Side, t: TaskId): Side {
    s.(waiting := Without(s.waiting, t))
  }

  function Without(q: seq<TaskId>, t: TaskId): (r: seq<TaskId>)
    ensures t !in r && forall u :: u in r <==> u in q && u != t
  {
    if q == [] then [] else if q[0] == t then Without(q[1..], t) else [q[0]] + Without(q[1..], t)
  }

  lemma {:induction false} WithoutDistinct(q: seq<TaskId>, t: TaskId)
    requires forall i, j :: 0 <= i < j < |q| ==> q[i] != q[j]
    ensures forall i, j :: 0 <= i < j < |Without(q, t)| ==> Without(q, t)[i] != Without(q, t)[j]
  {
    if q != [] {
      WithoutDistinct(q[1..], t);
      assert forall u :: u in Without(q[1..], t) ==> u in q[1..];
      assert q[0] !in q[1..];
    }
  }

  function Return(s: Side, t: TaskId): Side {
    s.(woken := s.woken - {t})
  }

  // Each of these keeps the lists in order and nobody waiting in vain.

  lemma WakeHeadSafe(s: Side, available: nat)
    requires Listed(s) && (s.waiting == [] || available <= Owed(s) + 1)
    ensures Listed(WakeHead(s)) && Safe(WakeHead(s), available)
  {
    if s.waiting != [] {
      assert s.waiting[0] !in s.woken;
      assert |s.woken + {s.waiting[0]}| == |s.woken| + 1;
    }
  }

  /** An event makes one more available and wakes or promises one. */
  lemma SignalSafe(s: Side, available: nat)
    requires Listed(s) && Safe(s, available)
    ensures Listed(Signal(s)) && Safe(Signal(s), available + 1)
  {
    if s.held == UNLOCKED {
      WakeHeadSafe(s, available + 1);
    }
  }

  lemma UnlockTurnSafe(s: Side, available: nat)
    requires Listed(s) && s.held >= 0 && Safe(s, available)
    ensures Listed(UnlockTurn(s)) && Safe(UnlockTurn(s), available)
  {
    if s.held > 0 && s.waiting != [] {
      WakeHeadSafe(s.(held := s.held - 1), available);
    }
  }

  /** A task that returns takes one, finds none, or leaves what there is to the next one it wakes. */
  lemma ReturnSafe(s: Side, t: TaskId, available: nat)
    requires Listed(s) && Safe(s, available)
    ensures Listed(Return(s, t))
    ensures Safe(Return(s, t), if available > 0 then available - 1 else 0)
    ensures Listed(WakeHead(Return(s, t))) && Safe(WakeHead(Return(s, t)), available)
  {
    assert s.woken <= Return(s, t).woken + {t};
    if t in s.woken {
      assert |s.woken - {t}| == |s.woken| - 1;
    } else {
      assert s.woken - {t} == s.woken;
    }
    WakeHeadSafe(Return(s, t), available);
  }

  lemma JoinSafe(s: Side, at: nat, t: TaskId, available: nat)
    requires Listed(s) && at <= |s.waiting| && t !in s.waiting && t !in s.woken
    requires available <= Owed(s)
    ensures Listed(Join(s, at, t)) && Safe(Join(s, at, t), available)
    ensures forall u :: u in Join(s, at, t).waiting <==> u == t || u in s.waiting
  {
    var q := Join(s, at, t).waiting;
    assert s.waiting == s.waiting[..at] + s.waiting[at..];
    forall i, j | 0 <= i < j < |q|
      ensures q[i] != q[j]
    {
      assert i < at ==> q[i] == s.waiting[i];
      assert i > at ==> q[i] == s.waiting[i - 1];
      assert j < at ==> q[j] == s.waiting[j];
      assert j > at ==> q[j] == s.waiting[j - 1];
    }
  }

  lemma LeaveSafe(s: Side, t: TaskId, available: nat)
    requires Listed(s) && Safe(s, available)
    ensures Listed(Leave(s, t)) && Safe(Leave(s, t), available)
  {
    WithoutDistinct(s.waiting, t);
    if s.waiting == [] {
      assert Without(s.waiting, t) == [];
    }
  }

  // ---------------------------------------------------------------------------
  // The queue
  // ---------------------------------------------------------------------------

  datatype Queue = Queue(length: nat, messages: nat, receivers: Side, senders: Side)

  /** A receive may only peek; a send may overwrite a queue of length one, and then never waits. */
  datatype Op = Receive(peek: bool, mayWait: bool) | Send(overwrite: bool, mayWait: bool)

  function Room(q: Queue): int {
    q.length - q.messages
  }

  function Available(q: Queue, op: Op): int {
    if op.Receive? then q.messages else Room(q)
  }

  function SideOf(q: Queue, op: Op): Side {
    if op.Receive? then q.receivers else q.senders
  }

  function WithSide(q: Queue, op: Op, s: Side): Queue {
    if op.Receive? then q.(receivers := s) else q.(senders := s)
  }

  predicate Possible(q: Queue, op: Op) {
    Available(q, op) > 0 || (op.Send? && op.overwrite)
  }

  ghost predicate QueueSafe(q: Queue) {
    && 1 <= q.length && q.messages <= q.length
    && Listed(q.receivers) && Listed(q.senders)
    && Safe(q.receivers, q.messages) && Safe(q.senders, Room(q))
  }

  /** The count after a send; overwriting replaces the one item there is. */
  function Stored(q: Queue, overwrite: bool): nat {
    if overwrite && q.messages > 0 then q.messages else q.messages + 1
  }

  /** The successful critical section of a task; t is back from the waiting list if it ever was on it. */
  function Perform(q: Queue, op: Op, t: TaskId): (q': Queue)
    requires Possible(q, op) && q.messages <= q.length
    ensures q'.length == q.length
  {
    match op
    case Receive(peek, _) =>
      var r := Return(q.receivers, t);
      if peek then q.(receivers := WakeHead(r))
      else q.(messages := q.messages - 1, receivers := r, senders := WakeHead(q.senders))
    case Send(overwrite, _) =>
      q.(messages := Stored(q, overwrite), senders := Return(q.senders, t), receivers := WakeHead(q.receivers))
  }

  function Fail(q: Queue, op: Op, t: TaskId): (q': Queue)
    ensures q'.length == q.length
  {
    WithSide(q, op, Return(SideOf(q, op), t))
  }

  function IsrSendEffect(q: Queue, overwrite: bool): Queue {
    if q.messages < q.length || overwrite
    then q.(messages := Stored(q, overwrite), receivers := Signal(q.receivers))
    else q
  }

  function IsrReceiveEffect(q: Queue): Queue {
    if q.messages > 0 then q.(messages := q.messages - 1, senders := Signal(q.senders)) else q
  }

  function LockQueue(q: Queue): Queue {
    q.(receivers := LockSide(q.receivers), senders := LockSide(q.senders))
  }

  // Every effect keeps the queue safe.

  lemma LessAvailable(s: Side, a: nat, b: nat)
    requires Safe(s, a) && b <= a
    ensures Safe(s, b)
  {
  }

  lemma PerformSafe(q: Queue, op: Op, t: TaskId)
    requires QueueSafe(q) && Possible(q, op) && (op.Send? && op.overwrite ==> q.length == 1)
    ensures QueueSafe(Perform(q, op, t))
  {
    hide Safe, Listed, WakeHead, Return;
    match op
    case Receive(peek, _) =>
      ReturnSafe(q.receivers, t, q.messages);
      SafeRoom(q);
      WakeHeadSafe(q.senders, Room(q) + 1);
    case Send(overwrite, _) =>
      ReturnSafe(q.senders, t, Room(q));
      SafeMessages(q);
      WakeHeadSafe(q.receivers, Stored(q, overwrite));
      LessAvailable(Return(q.senders, t), if Room(q) > 0 then Room(q) - 1 else 0, q.length - Stored(q, overwrite));
  }

  lemma SafeRoom(q: Queue)
    requires QueueSafe(q)
    ensures q.senders.waiting == [] || Room(q) + 1 <= Owed(q.senders) + 1
  {
  }

  lemma SafeMessages(q: Queue)
    requires QueueSafe(q)
    ensures q.receivers.waiting == [] || q.messages + 1 <= Owed(q.receivers) + 1
  {
  }

  lemma FailSafe(q: Queue, op: Op, t: TaskId)
    requires QueueSafe(q) && !Possible(q, op)
    ensures QueueSafe(Fail(q, op, t))
  {
    ReturnSafe(SideOf(q, op), t, Available(q, op));
  }

  lemma IsrSendSafe(q: Queue, overwrite: bool)
    requires QueueSafe(q) && (overwrite ==> q.length == 1)
    ensures QueueSafe(IsrSendEffect(q, overwrite))
  {
    hide Signal, Listed, Safe;
    if q.messages < q.length || overwrite {
      SignalSafe(q.receivers, q.messages);
      LessAvailable(Signal(q.receivers), q.messages + 1, Stored(q, overwrite));
      LessAvailable(q.senders, Room(q), q.length - Stored(q, overwrite));
    }
  }

  lemma IsrReceiveSafe(q: Queue)
    requires QueueSafe(q)
    ensures QueueSafe(IsrReceiveEffect(q))
  {
    hide Signal, Listed, Safe;
    if q.messages > 0 {
      SignalSafe(q.senders, Room(q));
      LessAvailable(q.receivers, q.messages, q.messages - 1);
    }
  }

  lemma LockSafe(q: Queue)
    requires QueueSafe(q)
    ensures QueueSafe(LockQueue(q))
  {
  }

  // ---------------------------------------------------------------------------
  // Tasks
  // ---------------------------------------------------------------------------

  /** How a pass through the loop ends once the queue has been unlocked. */
  datatype Ending = Block | Retry | GiveUp

  datatype Pc =
    | Idle
    | Entering(op: Op)               // about to enter the critical section
    | Missed(op: Op)                 // it was not possible; about to suspend the scheduler
    | Suspended(op: Op)              // about to lock the queue
    | Locked(op: Op)                 // about to check the timeout
    | Checked(op: Op)                // not timed out; about to look at the queue again
    | Decided(op: Op)                // still not possible; about to join the waiting list
    | UnlockingTx(op: Op, ending: Ending)
    | UnlockingRx(op: Op, ending: Ending)
    | Resuming(op: Op, ending: Ending)
    | Parked(op: Op)                 // blocked, or woken and not yet running

  datatype World = World(q: Queue, pc: map<TaskId, Pc>, suspender: set<TaskId>)

  function PcOf(w: World, t: TaskId): Pc {
    if t in w.pc then w.pc[t] else Idle
  }

  /** The scheduler is suspended by this task. */
  predicate Holding(p: Pc) {
    p.Suspended? || p.Locked? || p.Checked? || p.Decided? || p.UnlockingTx? || p.UnlockingRx? || p.Resuming?
  }

  /** The task may be on the waiting list of its side, or among those woken from it. */
  predicate MayBeListed(p: Pc, receiving: bool) {
    (p.Parked? || ((p.UnlockingTx? || p.UnlockingRx? || p.Resuming?) && p.ending == Block))
    && p.op.Receive? == receiving
  }

  datatype Step =
    | Call(t: TaskId, op: Op)
    | CallRestricted(t: TaskId)
    | Critical(t: TaskId)
    | SuspendAll(t: TaskId)
    | Lock(t: TaskId)
    | CheckTime(t: TaskId, expired: bool)
    | LookAgain(t: TaskId)
    | Place(t: TaskId, at: nat)
    | Unlock(t: TaskId)
    | ResumeAll(t: TaskId)
    | TimeOut(t: TaskId)
    | IsrSend(overwrite: bool)
    | IsrReceive

  /** A task may run: the scheduler is not suspended, or it is the one that suspended it. */
  predicate MayRun(w: World, t: TaskId) {
    w.suspender <= {t}
  }

  predicate Enabled(w: World, s: Step) {
    match s
    case Call(t, op) =>
      MayRun(w, t) && PcOf(w, t).Idle? && (op.Send? && op.overwrite ==> w.q.length == 1)
    case CallRestricted(t) => MayRun(w, t) && PcOf(w, t).Idle?
    case Critical(t) =>
      MayRun(w, t) && (PcOf(w, t).Entering? || (PcOf(w, t).Parked? && t !in SideOf(w.q, PcOf(w, t).op).waiting))
    case SuspendAll(t) => MayRun(w, t) && PcOf(w, t).Missed?
    case Lock(t) => PcOf(w, t).Suspended?
    case CheckTime(t, _) => PcOf(w, t).Locked?
    case LookAgain(t) => PcOf(w, t).Checked?
    case Place(t, at) => PcOf(w, t).Decided? && at <= |SideOf(w.q, PcOf(w, t).op).waiting|
    case Unlock(t) => PcOf(w, t).UnlockingTx? || PcOf(w, t).UnlockingRx?
    case ResumeAll(t) => PcOf(w, t).Resuming?
    case TimeOut(t) => w.suspender == {} && PcOf(w, t).Parked? && t in SideOf(w.q, PcOf(w, t).op).waiting
    case IsrSend(overwrite) => overwrite ==> w.q.length == 1
    case IsrReceive => true
  }

  function Goto(w: World, t: TaskId, p: Pc): World {
    w.(pc := w.pc[t := p])
  }

  function UnlockStep(w: World, t: TaskId): World
    requires PcOf(w, t).UnlockingTx? || PcOf(w, t).UnlockingRx?
  {
    var p := PcOf(w, t);
    if p.UnlockingTx? then
      var r := UnlockTurn(w.q.receivers);
      var w' := w.(q := w.q.(receivers := r));
      if r.held == UNLOCKED then Goto(w', t, UnlockingRx(p.op, p.ending)) else w'
    else
      var s := UnlockTurn(w.q.senders);
      var w' := w.(q := w.q.(senders := s));
      if s.held == UNLOCKED then Goto(w', t, Resuming(p.op, p.ending)) else w'
  }

  function Do(w: World, s: Step): World
    requires Enabled(w, s) && w.q.messages <= w.q.length
  {
    match s
    case Call(t, op) => Goto(w, t, Entering(op))
    case CallRestricted(t) => Goto(w, t, Missed(Receive(false, false)))
    case Critical(t) =>
      var op := PcOf(w, t).op;
      if Possible(w.q, op) then Goto(w.(q := Perform(w.q, op, t)), t, Idle)
      else Goto(w.(q := Fail(w.q, op, t)), t, if op.mayWait then Missed(op) else Idle)
    case SuspendAll(t) => Goto(w.(suspender := {t}), t, Suspended(PcOf(w, t).op))
    case Lock(t) => Goto(w.(q := LockQueue(w.q)), t, Locked(PcOf(w, t).op))
    case CheckTime(t, expired) =>
      var op := PcOf(w, t).op;
      Goto(w, t, if expired then UnlockingTx(op, GiveUp) else Checked(op))
    case LookAgain(t) =>
      var op := PcOf(w, t).op;
      Goto(w, t, if Available(w.q, op) == 0 then Decided(op) else UnlockingTx(op, Retry))
    case Place(t, at) =>
      var op := PcOf(w, t).op;
      Goto(w.(q := WithSide(w.q, op, Join(SideOf(w.q, op), at, t))), t, UnlockingTx(op, Block))
    case Unlock(t) => UnlockStep(w, t)
    case ResumeAll(t) =>
      var op := PcOf(w, t).op;
      Goto(w.(suspender := {}), t,
           match PcOf(w, t).ending case Block => Parked(op) case Retry => Entering(op) case GiveUp => Idle)
    case TimeOut(t) =>
      var op := PcOf(w, t).op;
      Goto(w.(q := WithSide(w.q, op, Leave(SideOf(w.q, op), t))), t, Entering(op))
    case IsrSend(overwrite) => w.(q := IsrSendEffect(w.q, overwrite))
    case IsrReceive => w.(q := IsrReceiveEffect(w.q))
  }

  // ---------------------------------------------------------------------------
  // The invariant
  // ---------------------------------------------------------------------------

  /** Who is on a side's lists is parked there, or has just joined and is still unlocking the queue. */
  ghost predicate Members(w: World) {
    && (forall t: TaskId :: t in w.q.receivers.waiting || t in w.q.receivers.woken ==> MayBeListed(PcOf(w, t), true))
    && (forall t: TaskId :: t in w.q.senders.waiting || t in w.q.senders.woken ==> MayBeListed(PcOf(w, t), false))
  }

  /** The locks, phase by phase; what became available since the second look has been counted by its lock. */
  predicate LocksFit(q: Queue, p: Pc) {
    match p
    case Suspended(_) => q.receivers.held == UNLOCKED && q.senders.held == UNLOCKED
    case Locked(_) => q.receivers.held >= 0 && q.senders.held >= 0
    case Checked(_) => q.receivers.held >= 0 && q.senders.held >= 0
    case Decided(op) => q.receivers.held >= 0 && q.senders.held >= 0 && Available(q, op) <= SideOf(q, op).held
    case UnlockingTx(_, _) => q.receivers.held >= 0 && q.senders.held >= 0
    case UnlockingRx(_, _) => q.receivers.held == UNLOCKED && q.senders.held >= 0
    case Resuming(_, _) => q.receivers.held == UNLOCKED && q.senders.held == UNLOCKED
    case _ => true
  }

  ghost predicate Locks(w: World) {
    && (w.suspender == {} ==> w.q.receivers.held == UNLOCKED && w.q.senders.held == UNLOCKED)
    && (forall t: TaskId :: Holding(PcOf(w, t)) <==> w.suspender == {t})
    && (w.suspender == {} || exists t: TaskId :: w.suspender == {t})
    && (forall t: TaskId :: LocksFit(w.q, PcOf(w, t)))
  }

  /** Only a queue of length one is ever overwritten. */
  ghost predicate Overwriters(w: World) {
    forall t: TaskId :: (match PcOf(w, t) case Idle => false case p => p.op.Send? && p.op.overwrite) ==> w.q.length == 1
  }

  ghost predicate Invariant(w: World) {
    QueueSafe(w.q) && Members(w) && Locks(w) && Overwriters(w)
  }

  /** A step of t that leaves the lists alone, or takes t off one of them. */
  lemma MovedMembers(w: World, w': World, t: TaskId)
    requires Members(w)
    requires forall u: TaskId :: u != t ==> PcOf(w', u) == PcOf(w, u)
    requires forall u: TaskId :: u in w'.q.receivers.waiting || u in w'.q.receivers.woken ==>
               if u == t then MayBeListed(PcOf(w', u), true) else u in w.q.receivers.waiting || u in w.q.receivers.woken
    requires forall u: TaskId :: u in w'.q.senders.waiting || u in w'.q.senders.woken ==>
               if u == t then MayBeListed(PcOf(w', u), false) else u in w.q.senders.waiting || u in w.q.senders.woken
    ensures Members(w')
  {
  }

  /** Only t holds the scheduler, before or after: nobody else's phase says anything about the locks. */
  lemma MovedLocks(w: World, w': World, t: TaskId)
    requires Locks(w) && (w.suspender == {} || w.suspender == {t})
    requires forall u: TaskId :: u != t ==> PcOf(w', u) == PcOf(w, u)
    requires w'.suspender == if Holding(PcOf(w', t)) then {t} else {}
    requires LocksFit(w'.q, PcOf(w', t))
    requires !Holding(PcOf(w', t)) ==> w'.q.receivers.held == UNLOCKED && w'.q.senders.held == UNLOCKED
    ensures Locks(w')
  {
    forall u: TaskId | u != t
      ensures !Holding(PcOf(w', u)) && w'.suspender != {u}
    {
      assert t in {t} && t !in {u};
    }
  }

  lemma Alone(w: World, t: TaskId)
    requires Locks(w) && MayRun(w, t)
    ensures w.suspender == if Holding(PcOf(w, t)) then {t} else {}
  {
    if w.suspender != {} {
      var u: TaskId :| w.suspender == {u};
      assert u in w.suspender;
    }
  }

  lemma WakeHeadLists(s: Side)
    ensures forall t :: t in WakeHead(s).waiting || t in WakeHead(s).woken <==> t in s.waiting || t in s.woken
    ensures WakeHead(s).held == s.held
  {
    if s.waiting != [] {
      assert s.waiting == [s.waiting[0]] + s.waiting[1..];
    }
  }

  // ---------------------------------------------------------------------------
  // Every step keeps it
  // ---------------------------------------------------------------------------

  lemma CallKept(w: World, s: Step)
    requires Invariant(w) && Enabled(w, s) && (s.Call? || s.CallRestricted? || s.SuspendAll?)
    ensures Invariant(Do(w, s))
  {
    hide Safe, Listed;
    Alone(w, s.t);
    MovedMembers(w, Do(w, s), s.t);
    MovedLocks(w, Do(w, s), s.t);
  }

  lemma CriticalKept(w: World, t: TaskId)
    requires Invariant(w) && Enabled(w, Critical(t))
    ensures Invariant(Do(w, Critical(t)))
  {
    hide Safe, Listed, Perform, Fail;
    var op := PcOf(w, t).op;
    var w' := Do(w, Critical(t));
    Alone(w, t);
    CriticalSafe(w.q, op, t);
    CriticalMembers(w, t);
    CriticalLocks(w, t);
  }

  lemma CriticalSafe(q: Queue, op: Op, t: TaskId)
    requires QueueSafe(q) && (op.Send? && op.overwrite ==> q.length == 1)
    ensures if Possible(q, op) then QueueSafe(Perform(q, op, t)) else QueueSafe(Fail(q, op, t))
  {
    if Possible(q, op) { PerformSafe(q, op, t); } else { FailSafe(q, op, t); }
  }

  lemma CriticalMembers(w: World, t: TaskId)
    requires Invariant(w) && Enabled(w, Critical(t))
    ensures Members(Do(w, Critical(t)))
  {
    hide Safe, Listed, WakeHead;
    var op := PcOf(w, t).op;
    WakeHeadLists(w.q.receivers);
    WakeHeadLists(w.q.senders);
    WakeHeadLists(Return(w.q.receivers, t));
    MovedMembers(w, Do(w, Critical(t)), t);
  }

  lemma CriticalLocks(w: World, t: TaskId)
    requires Invariant(w) && Enabled(w, Critical(t))
    ensures Locks(Do(w, Critical(t)))
  {
    hide Safe, Listed, Members;
    Alone(w, t);
    MovedLocks(w, Do(w, Critical(t)), t);
  }

  lemma LockKept(w: World, t: TaskId)
    requires Invariant(w) && Enabled(w, Lock(t))
    ensures Invariant(Do(w, Lock(t)))
  {
    hide Safe, Listed;
    LockSafe(w.q);
    MovedMembers(w, Do(w, Lock(t)), t);
    MovedLocks(w, Do(w, Lock(t)), t);
  }

  lemma LookKept(w: World, s: Step)
    requires Invariant(w) && Enabled(w, s) && (s.CheckTime? || s.LookAgain?)
    ensures Invariant(Do(w, s))
  {
    hide Safe, Listed;
    MovedMembers(w, Do(w, s), s.t);
    MovedLocks(w, Do(w, s), s.t);
  }

  lemma PlaceKept(w: World, t: TaskId, at: nat)
    requires Invariant(w) && Enabled(w, Place(t, at))
    ensures Invariant(Do(w, Place(t, at)))
  {
    var op := PcOf(w, t).op;
    JoinSafe(SideOf(w.q, op), at, t, Available(w.q, op));
    hide Join, Listed, Safe;
    MovedMembers(w, Do(w, Place(t, at)), t);
    MovedLocks(w, Do(w, Place(t, at)), t);
  }

  lemma UnlockKept(w: World, t: TaskId)
    requires Invariant(w) && Enabled(w, Unlock(t))
    ensures Invariant(Do(w, Unlock(t)))
  {
    UnlockSafe(w, t);
    UnlockMembers(w, t);
    UnlockLocks(w, t);
    hide QueueSafe, Members, Locks, UnlockTurn;
  }

  lemma UnlockTurnLists(s: Side)
    ensures forall t :: t in UnlockTurn(s).waiting || t in UnlockTurn(s).woken <==> t in s.waiting || t in s.woken
  {
    WakeHeadLists(s);
  }

  lemma UnlockMembers(w: World, t: TaskId)
    requires Invariant(w) && Enabled(w, Unlock(t))
    ensures Members(Do(w, Unlock(t)))
  {
    hide Safe, Listed, UnlockTurn;
    UnlockTurnLists(w.q.receivers);
    UnlockTurnLists(w.q.senders);
    MovedMembers(w, Do(w, Unlock(t)), t);
  }

  lemma UnlockLocks(w: World, t: TaskId)
    requires Invariant(w) && Enabled(w, Unlock(t))
    ensures Locks(Do(w, Unlock(t)))
  {
    hide Safe, Listed, WakeHead, Members;
    WakeHeadLists(w.q.receivers);
    WakeHeadLists(w.q.senders);
    MovedLocks(w, Do(w, Unlock(t)), t);
  }

  lemma UnlockSafe(w: World, t: TaskId)
    requires Invariant(w) && Enabled(w, Unlock(t))
    ensures QueueSafe(Do(w, Unlock(t)).q)
  {
    hide UnlockTurn, Safe, Listed;
    assert LocksFit(w.q, PcOf(w, t));
    if PcOf(w, t).UnlockingTx? {
      UnlockTurnSafe(w.q.receivers, w.q.messages);
    } else {
      UnlockTurnSafe(w.q.senders, Room(w.q));
    }
  }

  lemma ResumeKept(w: World, t: TaskId)
    requires Invariant(w) && Enabled(w, ResumeAll(t))
    ensures Invariant(Do(w, ResumeAll(t)))
  {
    hide Safe, Listed;
    MovedMembers(w, Do(w, ResumeAll(t)), t);
    MovedLocks(w, Do(w, ResumeAll(t)), t);
  }

  lemma TimeOutKept(w: World, t: TaskId)
    requires Invariant(w) && Enabled(w, TimeOut(t))
    ensures Invariant(Do(w, TimeOut(t)))
  {
    var op := PcOf(w, t).op;
    LeaveSafe(SideOf(w.q, op), t, Available(w.q, op));
    MovedMembers(w, Do(w, TimeOut(t)), t);
    hide Listed, Safe, Members;
    MovedLocks(w, Do(w, TimeOut(t)), t);
  }

  lemma IsrKept(w: World, s: Step)
    requires Invariant(w) && Enabled(w, s) && (s.IsrSend? || s.IsrReceive?)
    ensures Invariant(Do(w, s))
  {
    if s.IsrSend? { IsrSendSafe(w.q, s.overwrite); } else { IsrReceiveSafe(w.q); }
    IsrMembers(w, s);
    IsrLocks(w, s);
    hide QueueSafe, Members, Locks;
  }

  lemma IsrMembers(w: World, s: Step)
    requires Invariant(w) && Enabled(w, s) && (s.IsrSend? || s.IsrReceive?)
    ensures Members(Do(w, s))
  {
    hide Safe, Listed, WakeHead;
    WakeHeadLists(w.q.receivers);
    WakeHeadLists(w.q.senders);
  }

  lemma IsrLocks(w: World, s: Step)
    requires Invariant(w) && Enabled(w, s) && (s.IsrSend? || s.IsrReceive?)
    ensures Locks(Do(w, s))
  {
    hide Safe, Listed, WakeHead, Members, LocksFit;
    WakeHeadLists(w.q.receivers);
    WakeHeadLists(w.q.senders);
    forall t: TaskId
      ensures LocksFit(Do(w, s).q, PcOf(Do(w, s), t)) && PcOf(Do(w, s), t) == PcOf(w, t)
    {
      IsrLocksFit(w.q, s, PcOf(w, t));
    }
  }

  /** An interrupt never locks or unlocks, and counts what it makes available to a task about to wait. */
  lemma IsrLocksFit(q: Queue, s: Step, p: Pc)
    requires LocksFit(q, p) && q.messages <= q.length && (s.IsrReceive? || (s.IsrSend? && (s.overwrite ==> q.length == 1)))
    ensures LocksFit(if s.IsrSend? then IsrSendEffect(q, s.overwrite) else IsrReceiveEffect(q), p)
  {
    hide WakeHead;
    WakeHeadLists(q.receivers);
    WakeHeadLists(q.senders);
  }

  lemma StepKept(w: World, s: Step)
    requires Invariant(w) && Enabled(w, s)
    ensures Invariant(Do(w, s))
  {
    hide Do, Invariant;
    match s
    case Critical(t) => CriticalKept(w, t);
    case Lock(t) => LockKept(w, t);
    case Place(t, at) => PlaceKept(w, t, at);
    case Unlock(t) => UnlockKept(w, t);
    case ResumeAll(t) => ResumeKept(w, t);
    case TimeOut(t) => TimeOutKept(w, t);
    case IsrSend(_) => IsrKept(w, s);
    case IsrReceive => IsrKept(w, s);
    case CheckTime(_, _) => LookKept(w, s);
    case LookAgain(_) => LookKept(w, s);
    case _ => CallKept(w, s);
  }

  // ---------------------------------------------------------------------------
  // Runs
  // ---------------------------------------------------------------------------

  function NewQueue(length: nat): Queue {
    Queue(length, 0, Side([], {}, UNLOCKED), Side([], {}, UNLOCKED))
  }

  ghost predicate Runs(w: World, steps: seq<Step>, w': World)
    decreases |steps|
  {
    if steps == [] then w' == w
    else w.q.messages <= w.q.length && Enabled(w, steps[0]) && Runs(Do(w, steps[0]), steps[1..], w')
  }

  lemma {:induction false} RunKept(w: World, steps: seq<Step>, w': World)
    requires Invariant(w) && Runs(w, steps, w')
    ensures Invariant(w')
    decreases |steps|
  {
    hide Do, Invariant;
    if steps != [] {
      StepKept(w, steps[0]);
      RunKept(Do(w, steps[0]), steps[1..], w');
    }
  }

  /**
   An interrupt that succeeds while the queue is locked adds exactly one to the count of its lock and wakes nobody; while
   it is not it wakes the head waiter, if there is one.
   */
  lemma IsrCountsOne(q: Queue, overwrite: bool)
    requires Listed(q.receivers) && Listed(q.senders) && q.messages <= q.length
    ensures var r, r' := q.receivers, IsrSendEffect(q, overwrite).receivers;
            if q.messages < q.length || overwrite
            then (if r.held >= 0 then r' == r.(held := r.held + 1) else r'.held == r.held && HeadWoken(r, r'))
            else r' == r
    ensures var r, r' := q.senders, IsrReceiveEffect(q).senders;
            if q.messages > 0
            then (if r.held >= 0 then r' == r.(held := r.held + 1) else r'.held == r.held && HeadWoken(r, r'))
            else r' == r
  {
  }

  /** The first waiter, if any, has moved to those woken. */
  predicate HeadWoken(s: Side, s': Side) {
    if s.waiting == [] then s' == s
    else s'.waiting == s.waiting[1..] && s'.woken == s.woken + {s.waiting[0]}
  }

  /** How a step changes the number of messages: a send adds one unless the queue is full, a receive but not a peek takes one. */
  function Change(w: World, s: Step): int {
    var full, any := w.q.messages >= w.q.length, w.q.messages > 0;
    match s
    case Critical(t) =>
      if !(PcOf(w, t).Entering? || PcOf(w, t).Parked?) then 0
      else (match PcOf(w, t).op
            case Receive(peek, _) => if any && !peek then -1 else 0
            case Send(_, _) => if full then 0 else 1)
    case IsrSend(_) => if full then 0 else 1
    case IsrReceive => if any then -1 else 0
    case _ => 0
  }

  lemma StepChange(w: World, s: Step)
    requires Invariant(w) && Enabled(w, s)
    ensures Do(w, s).q.messages == w.q.messages + Change(w, s) && Do(w, s).q.length == w.q.length
  {
    hide Safe, Listed, Locks, Members, WakeHead, UnlockTurn;
  }

  ghost function Changes(w: World, steps: seq<Step>, w': World): int
    requires Runs(w, steps, w')
    decreases |steps|
  {
    if steps == [] then 0 else Change(w, steps[0]) + Changes(Do(w, steps[0]), steps[1..], w')
  }

  /** Messages are conserved: in every run there are as many as were sent and not received, never more than fit. */
  lemma {:induction false} MessagesConserved(w: World, steps: seq<Step>, w': World)
    requires Invariant(w) && Runs(w, steps, w')
    ensures w'.q.messages == w.q.messages + Changes(w, steps, w') && w'.q.messages <= w'.q.length == w.q.length
    decreases |steps|
  {
    hide Do, Invariant, Change;
    if steps == [] {
      Bounded(w);
    } else {
      StepKept(w, steps[0]);
      StepChange(w, steps[0]);
      MessagesConserved(Do(w, steps[0]), steps[1..], w');
    }
  }

  lemma Bounded(w: World)
    requires Invariant(w)
    ensures w.q.messages <= w.q.length
  {
  }

  /**
   No lost wake-ups, from the creation of the queue on and in every interleaving: a receiver waits only
   while every message is owed to a receiver already woken, or counted by the lock; and the same for
   senders and free slots.
   */
  lemma NoLostWakeup(length: nat, steps: seq<Step>, w: World)
    requires length >= 1 && Runs(World(NewQueue(length), map[], {}), steps, w)
    ensures w.q.receivers.waiting != [] ==> w.q.messages <= Owed(w.q.receivers)
    ensures w.q.senders.waiting != [] ==> Room(w.q) <= Owed(w.q.senders)
    ensures forall t :: t in w.q.receivers.waiting ==> MayBeListed(PcOf(w, t), true)
    ensures forall t :: t in w.q.senders.waiting ==> MayBeListed(PcOf(w, t), false)
  {
    RunKept(World(NewQueue(length), map[], {}), steps, w);
  }

  /** So an unlocked queue with nobody woken in flight never holds a message while a receiver waits, nor room for a sender. */
  lemma NeverStuck(length: nat, steps: seq<Step>, w: World)
    requires length >= 1 && Runs(World(NewQueue(length), map[], {}), steps, w) && w.suspender == {}
    ensures w.q.receivers.waiting != [] && w.q.receivers.woken == {} ==> w.q.messages == 0
    ensures w.q.senders.waiting != [] && w.q.senders.woken == {} ==> w.q.messages == w.q.length
  {
    RunKept(World(NewQueue(length), map[], {}), steps, w);
  }

  // ---------------------------------------------------------------------------
  // The queue as it is kept
  // ---------------------------------------------------------------------------

  /** All the turns of one unlock loop. */
  function Unlocked(s: Side): (r: Side)
    requires s.held >= UNLOCKED
    ensures r.held == UNLOCKED
    decreases s.held + 1
  {
    if s.held == UNLOCKED then s else Unlocked(UnlockTurn(s))
  }

  /** Unlocking wakes as many tasks, from the head on, as events were counted or as are waiting. */
  lemma {:induction false} UnlockWakes(s: Side)
    requires s.held >= 0
    ensures var n := if s.held <= |s.waiting| then s.held else |s.waiting|;
            Unlocked(s).waiting == s.waiting[n..] && Unlocked(s).woken == s.woken + (set i | 0 <= i < n :: s.waiting[i])
    decreases s.held
  {
    if s.held > 0 && s.waiting != [] {
      var s1 := UnlockTurn(s);
      UnlockWakes(s1);
      var n := if s.held <= |s.waiting| then s.held else |s.waiting|;
      assert s.waiting[1..][n - 1..] == s.waiting[n..];
      WokenPrefix(s.waiting, n);
    }
  }

  lemma WokenPrefix(q: seq<TaskId>, n: nat)
    requires 0 < n <= |q|
    ensures (set i | 0 <= i < n :: q[i]) == {q[0]} + (set i | 0 <= i < n - 1 :: q[1..][i])
  {
    forall i | 0 < i < n
      ensures q[i] in (set j | 0 <= j < n - 1 :: q[1..][j])
    {
      assert q[i] == q[1..][i - 1];
    }
  }

  class QueueControl {
    const length: nat
    var messagesWaiting: nat
    var tasksWaitingToReceive: seq<TaskId>
    var tasksWaitingToSend: seq<TaskId>
    var txLock: int
    var rxLock: int
    ghost var wokenReceivers: set<TaskId>
    ghost var wokenSenders: set<TaskId>

    ghost function State(): Queue
      reads this
    {
      Queue(length, messagesWaiting, Side(tasksWaitingToReceive, wokenReceivers, txLock),
            Side(tasksWaitingToSend, wokenSenders, rxLock))
    }

    constructor (length: nat)
      ensures State() == NewQueue(length)
    {
      this.length, messagesWaiting := length, 0;
      tasksWaitingToReceive, tasksWaitingToSend, txLock, rxLock := [], [], UNLOCKED, UNLOCKED;
      wokenReceivers, wokenSenders := {}, {};
    }

    method WakeReceiver()
      modifies this`tasksWaitingToReceive, this`wokenReceivers
      ensures State() == old(State()).(receivers := WakeHead(old(State()).receivers))
    {
      if tasksWaitingToReceive != [] {
        wokenReceivers := wokenReceivers + {tasksWaitingToReceive[0]};
        tasksWaitingToReceive := tasksWaitingToReceive[1..];
      }
    }

    method WakeSender()
      modifies this`tasksWaitingToSend, this`wokenSenders
      ensures State() == old(State()).(senders := WakeHead(old(State()).senders))
    {
      if tasksWaitingToSend != [] {
        wokenSenders := wokenSenders + {tasksWaitingToSend[0]};
        tasksWaitingToSend := tasksWaitingToSend[1..];
      }
    }

    /** The critical section of a task's send. */
    method TrySend(t: TaskId, overwrite: bool, mayWait: bool) returns (ok: bool)
      requires messagesWaiting <= length
      modifies this
      ensures ok <==> old(messagesWaiting) < length || overwrite
      ensures ok <==> Possible(old(State()), Send(overwrite, mayWait))
      ensures State() == if ok then Perform(old(State()), Send(overwrite, mayWait), t)
                         else Fail(old(State()), Send(overwrite, mayWait), t)
    {
      wokenSenders := wokenSenders - {t};
      ok := messagesWaiting < length || overwrite;
      if ok {
        if overwrite && messagesWaiting > 0 {
          messagesWaiting := messagesWaiting - 1;
        }
        messagesWaiting := messagesWaiting + 1;
        WakeReceiver();
      }
    }

    /** The critical section of a task's receive or peek. */
    method TryReceive(t: TaskId, peek: bool, mayWait: bool) returns (ok: bool)
      requires messagesWaiting <= length
      modifies this
      ensures ok <==> old(messagesWaiting) > 0
      ensures ok <==> Possible(old(State()), Receive(peek, mayWait))
      ensures State() == if ok then Perform(old(State()), Receive(peek, mayWait), t)
                         else Fail(old(State()), Receive(peek, mayWait), t)
    {
      wokenReceivers := wokenReceivers - {t};
      ok := messagesWaiting > 0;
      if ok {
        if !peek {
          messagesWaiting := messagesWaiting - 1;
          WakeSender();
        } else {
          WakeReceiver();
        }
      }
    }

    method SendFromISR(overwrite: bool) returns (ok: bool)
      modifies this
      ensures ok <==> old(messagesWaiting) < length || overwrite
      ensures State() == IsrSendEffect(old(State()), overwrite)
    {
      ok := messagesWaiting < length || overwrite;
      if ok {
        if overwrite && messagesWaiting > 0 {
          messagesWaiting := messagesWaiting - 1;
        }
        messagesWaiting := messagesWaiting + 1;
        if txLock == UNLOCKED {
          WakeReceiver();
        } else {
          txLock := txLock + 1;
        }
      }
    }

    method ReceiveFromISR() returns (ok: bool)
      modifies this
      ensures ok <==> old(messagesWaiting) > 0
      ensures State() == IsrReceiveEffect(old(State()))
    {
      ok := messagesWaiting > 0;
      if ok {
        messagesWaiting := messagesWaiting - 1;
        if rxLock == UNLOCKED {
          WakeSender();
        } else {
          rxLock := rxLock + 1;
        }
      }
    }

    method LockBoth()
      modifies this`txLock, this`rxLock
      ensures State() == LockQueue(old(State()))
    {
      if rxLock == UNLOCKED {
        rxLock := 0;
      }
      if txLock == UNLOCKED {
        txLock := 0;
      }
    }

    /** prvUnlockQueue: the two loops, each in its own critical section. */
    method UnlockBoth()
      requires txLock >= 0 && rxLock >= 0
      modifies this
      ensures State() == old(State()).(receivers := Unlocked(old(State()).receivers), senders := Unlocked(old(State()).senders))
    {
      ghost var q := State();
      while txLock > 0
        invariant txLock >= 0 && State() == q.(receivers := State().receivers)
        invariant Unlocked(State().receivers) == Unlocked(q.receivers)
        decreases txLock
      {
        if tasksWaitingToReceive == [] {
          break;
        }
        WakeReceiver();
        txLock := txLock - 1;
      }
      txLock := UNLOCKED;
      while rxLock > 0
        invariant rxLock >= 0 && State() == q.(receivers := Unlocked(q.receivers), senders := State().senders)
        invariant Unlocked(State().senders) == Unlocked(q.senders)
        decreases rxLock
      {
        if tasksWaitingToSend == [] {
          break;
        }
        WakeSender();
        rxLock := rxLock - 1;
      }
      rxLock := UNLOCKED;
    }
  }
}
