/**
 What a queue call answers, in any interleaving with other tasks and interrupts: it returns when it has done what it
 was called for, or cannot and may not wait, or has timed out, and for no other reason; and it blocks exactly when a
 second look, under the lock, finds nothing.
 */
module QueueCalls {
  import opened QueueProtocol

  /** The task that makes a step; interrupts are made by nobody. */
  function Actor(s: Step): set<TaskId> {
    match s
    case IsrSend(_) => {}
    case IsrReceive => {}
    case _ => {s.t}
  }

  predicate Begins(s: Step, t: TaskId) {
    (s.Call? || s.CallRestricted?) && s.t == t
  }

  /** Whether the queue has what a call is for. */
  predicate Ready(q: Queue, op: Op) {
    match op
    case Receive(_, _) => q.messages > 0
    case Send(overwrite, _) => q.messages < q.length || overwrite
  }

  /** Whether what it is for is missing when it looks again. */
  predicate Lacking(q: Queue, op: Op) {
    match op
    case Receive(_, _) => q.messages == 0
    case Send(_, _) => q.messages == q.length
  }

  /** Whether t is on its way to blocking, to another attempt, or to giving up, or has come there. */
  predicate Heading(p: Pc, e: Ending) {
    || ((p.UnlockingTx? || p.UnlockingRx? || p.Resuming?) && p.ending == e)
    || (match e case Block => p.Decided? || p.Parked? case Retry => p.Entering? case GiveUp => p.Idle?)
  }

  lemma OthersKeepPc(w: World, s: Step, t: TaskId)
    requires w.q.messages <= w.q.length && Enabled(w, s) && t !in Actor(s)
    ensures PcOf(Do(w, s), t) == PcOf(w, t)
  {
    hide Perform, Fail, LockQueue, UnlockTurn, IsrSendEffect, IsrReceiveEffect, WithSide, Join, Leave;
  }

  lemma HeadingKept(w: World, s: Step, t: TaskId, e: Ending)
    requires w.q.messages <= w.q.length && Enabled(w, s) && Heading(PcOf(w, t), e)
    requires s != Critical(t) && s != TimeOut(t) && !Begins(s, t)
    ensures Heading(PcOf(Do(w, s), t), e)
    ensures !PcOf(w, t).Idle? && !PcOf(Do(w, s), t).Idle? ==> PcOf(Do(w, s), t).op == PcOf(w, t).op
    ensures s == ResumeAll(t) ==> !PcOf(Do(w, s), t).Resuming?
  {
    hide Perform, Fail, LockQueue, UnlockTurn, IsrSendEffect, IsrReceiveEffect, WithSide, Join, Leave;
    if t !in Actor(s) {
      OthersKeepPc(w, s, t);
    }
  }

  /** The critical section is the end of a call exactly if it succeeds or the call may not wait. */
  lemma CriticalReturns(w: World, t: TaskId)
    requires w.q.messages <= w.q.length && Enabled(w, Critical(t))
    ensures PcOf(Do(w, Critical(t)), t).Idle? <==> Ready(w.q, PcOf(w, t).op) || !PcOf(w, t).op.mayWait
  {
    hide Perform, Fail;
  }

  /** Without a time check that fails a call is never on its way to giving up. */
  lemma StepUndaunted(w: World, s: Step, t: TaskId)
    requires w.q.messages <= w.q.length && Enabled(w, s) && s != CheckTime(t, true)
    requires PcOf(w, t).Idle? || !Heading(PcOf(w, t), GiveUp)
    ensures PcOf(Do(w, s), t).Idle? || !Heading(PcOf(Do(w, s), t), GiveUp)
    ensures !PcOf(w, t).Idle? && PcOf(Do(w, s), t).Idle? ==> s == Critical(t)
  {
    hide Perform, Fail, LockQueue, UnlockTurn, IsrSendEffect, IsrReceiveEffect, WithSide, Join, Leave;
    if t !in Actor(s) {
      OthersKeepPc(w, s, t);
    }
  }

  lemma {:induction false} RunUndaunted(w: World, steps: seq<Step>, w': World, t: TaskId)
    requires Runs(w, steps, w') && CheckTime(t, true) !in steps
    requires PcOf(w, t).Idle? || !Heading(PcOf(w, t), GiveUp)
    ensures PcOf(w', t).Idle? || !Heading(PcOf(w', t), GiveUp)
    decreases |steps|
  {
    hide Do, Enabled, Heading;
    if steps != [] {
      StepUndaunted(w, steps[0], t);
      RunUndaunted(Do(w, steps[0]), steps[1..], w', t);
    }
  }

  /** In every run, a call that has not timed out returns from a critical section that succeeded, unless it may not wait. */
  lemma ReturnsWhenDone(w: World, steps: seq<Step>, w': World, s: Step, t: TaskId)
    requires Runs(w, steps, w') && CheckTime(t, true) !in steps && PcOf(w, t).Idle?
    requires w'.q.messages <= w'.q.length && Enabled(w', s) && s != CheckTime(t, true)
    requires !PcOf(w', t).Idle? && PcOf(Do(w', s), t).Idle?
    ensures s == Critical(t) && (Ready(w'.q, PcOf(w', t).op) || !PcOf(w', t).op.mayWait)
  {
    hide Do, Enabled, Heading, Ready;
    RunUndaunted(w, steps, w', t);
    StepUndaunted(w', s, t);
    CriticalReturns(w', t);
  }

  /** A call that has timed out makes no further attempt, joins no list, and returns with the next resumption. */
  lemma {:induction false} GivesUp(w: World, steps: seq<Step>, w': World, t: TaskId)
    requires Runs(w, steps, w') && Heading(PcOf(w, t), GiveUp) && (forall s :: s in steps ==> !Begins(s, t))
    ensures Heading(PcOf(w', t), GiveUp)
    ensures forall s :: s in steps && t in Actor(s) ==> s == Unlock(t) || s == ResumeAll(t)
    ensures ResumeAll(t) in steps ==> PcOf(w', t).Idle?
    ensures PcOf(w, t).Idle? ==> PcOf(w', t).Idle?
    decreases |steps|
  {
    hide Do;
    if steps != [] {
      var s := steps[0];
      assert !Begins(s, t);
      HeadingKept(w, s, t, GiveUp);
      IdleStays(w, s, t);
      GivesUp(Do(w, s), steps[1..], w', t);
      assert steps == [s] + steps[1..];
    }
  }

  lemma IdleStays(w: World, s: Step, t: TaskId)
    requires w.q.messages <= w.q.length && Enabled(w, s) && Heading(PcOf(w, t), GiveUp) && !Begins(s, t)
    ensures PcOf(w, t).Idle? || s == ResumeAll(t) ==> PcOf(Do(w, s), t).Idle?
    ensures t in Actor(s) ==> s == Unlock(t) || s == ResumeAll(t)
  {
    hide Perform, Fail, LockQueue, UnlockTurn, IsrSendEffect, IsrReceiveEffect, WithSide, Join, Leave;
    if t !in Actor(s) {
      OthersKeepPc(w, s, t);
    }
  }

  /** A failed time check is the last thing a call does but for unlocking the queue and resuming the scheduler. */
  lemma TimedOutReturns(w: World, steps: seq<Step>, w': World, t: TaskId)
    requires w.q.messages <= w.q.length && Enabled(w, CheckTime(t, true)) && Runs(Do(w, CheckTime(t, true)), steps, w')
    requires forall s :: s in steps ==> !Begins(s, t)
    ensures forall s :: s in steps && t in Actor(s) ==> s == Unlock(t) || s == ResumeAll(t)
    ensures ResumeAll(t) in steps ==> PcOf(w', t).Idle?
    ensures !PcOf(w', t).Parked? && !PcOf(w', t).Entering?
  {
    GivesUp(Do(w, CheckTime(t, true)), steps, w', t);
  }

  lemma {:induction false} RunHeading(w: World, steps: seq<Step>, w': World, t: TaskId, e: Ending)
    requires Runs(w, steps, w') && Heading(PcOf(w, t), e) && e != GiveUp
    requires Critical(t) !in steps && TimeOut(t) !in steps
    ensures Heading(PcOf(w', t), e) && PcOf(w', t).op == PcOf(w, t).op
    decreases |steps|
  {
    hide Do;
    if steps != [] {
      HeadingKept(w, steps[0], t, e);
      RunHeading(Do(w, steps[0]), steps[1..], w', t, e);
    }
  }

  /**
   The second look decides: whatever happens until t runs again, it is blocked if nothing was there when it looked, and
   about to try again if something was.
   */
  lemma BlocksIfNothingThere(w: World, steps: seq<Step>, w': World, t: TaskId)
    requires w.q.messages <= w.q.length && Enabled(w, LookAgain(t)) && Runs(Do(w, LookAgain(t)), steps, w')
    requires Critical(t) !in steps && TimeOut(t) !in steps
    ensures if Lacking(w.q, PcOf(w, t).op) then Heading(PcOf(w', t), Block) else Heading(PcOf(w', t), Retry)
    ensures PcOf(w', t).op == PcOf(w, t).op
  {
    var e := if Available(w.q, PcOf(w, t).op) == 0 then Block else Retry;
    RunHeading(Do(w, LookAgain(t)), steps, w', t, e);
  }

  /** A waiter that times out is off the list and tries once more. */
  lemma TimedOutWaiterTriesAgain(w: World, t: TaskId)
    requires w.q.messages <= w.q.length && Enabled(w, TimeOut(t))
    ensures var w' := Do(w, TimeOut(t));
            && PcOf(w', t) == Entering(PcOf(w, t).op) && t !in SideOf(w'.q, PcOf(w, t).op).waiting
            && w'.q.messages == w.q.messages
  {
  }

  // ---------------------------------------------------------------------------
  // A pass through the loop that nobody disturbs
  // ---------------------------------------------------------------------------

  /** The queue is unlocked, nothing having been counted, and the scheduler resumed. */
  lemma Finishes(w: World, t: TaskId, op: Op, e: Ending)
    requires w.q.messages <= w.q.length && w.suspender == {t} && PcOf(w, t) == UnlockingTx(op, e)
    requires w.q.receivers.held == 0 && w.q.senders.held == 0
    ensures var p := match e case Block => Parked(op) case Retry => Entering(op) case GiveUp => Idle;
            Runs(w, [Unlock(t), Unlock(t), ResumeAll(t)],
                 World(w.q.(receivers := w.q.receivers.(held := UNLOCKED), senders := w.q.senders.(held := UNLOCKED)),
                       w.pc[t := p], {}))
  {
    var w1 := Do(w, Unlock(t));
    var w2 := Do(w1, Unlock(t));
    var w3 := Do(w2, ResumeAll(t));
    assert Runs(w3, [], w3);
    assert Runs(w2, [ResumeAll(t)], w3);
    assert [Unlock(t), ResumeAll(t)][1..] == [ResumeAll(t)];
    assert Runs(w1, [Unlock(t), ResumeAll(t)], w3);
    assert [Unlock(t), Unlock(t), ResumeAll(t)][1..] == [Unlock(t), ResumeAll(t)];
    var p := match e case Block => Parked(op) case Retry => Entering(op) case GiveUp => Idle;
    assert w3.pc == w.pc[t := p];
  }

  lemma RunsBefore(w: World, s: Step, steps: seq<Step>, w': World)
    requires w.q.messages <= w.q.length && Enabled(w, s) && Runs(Do(w, s), steps, w')
    ensures Runs(w, [s] + steps, w')
  {
    hide Do, Enabled;
    assert ([s] + steps)[1..] == steps;
  }

  /** The queue while its lock is held and nothing has been counted. */
  function Quiet(q: Queue): Queue {
    q.(receivers := q.receivers.(held := 0), senders := q.senders.(held := 0))
  }

  /** A pass begins by suspending the scheduler and locking the queue. */
  lemma PassBegins(w: World, t: TaskId, op: Op, steps: seq<Step>, w': World)
    requires Invariant(w) && w.suspender == {} && PcOf(w, t) == Missed(op)
    requires Runs(World(Quiet(w.q), w.pc[t := Locked(op)], {t}), steps, w')
    ensures Runs(w, [SuspendAll(t), Lock(t)] + steps, w')
  {
    hide Members, Runs;
    var w1 := Do(w, SuspendAll(t));
    assert Do(w1, Lock(t)) == World(Quiet(w.q), w.pc[t := Locked(op)], {t}) by {
      assert w.pc[t := Suspended(op)][t := Locked(op)] == w.pc[t := Locked(op)];
    }
    RunsBefore(w1, Lock(t), steps, w');
    RunsBefore(w, SuspendAll(t), [Lock(t)] + steps, w');
    assert [SuspendAll(t)] + ([Lock(t)] + steps) == [SuspendAll(t), Lock(t)] + steps;
  }

  /** Left undisturbed, a call that has timed out leaves everything as it was and returns. */
  lemma ExpiredPass(w: World, t: TaskId, op: Op)
    requires Invariant(w) && w.suspender == {} && PcOf(w, t) == Missed(op)
    ensures Runs(w, [SuspendAll(t), Lock(t)] + ([CheckTime(t, true)] + [Unlock(t), Unlock(t), ResumeAll(t)]),
                 w.(pc := w.pc[t := Idle]))
  {
    hide Members, Runs;
    var w2 := World(Quiet(w.q), w.pc[t := Locked(op)], {t});
    var w3 := Do(w2, CheckTime(t, true));
    Finishes(w3, t, op, GiveUp);
    assert w3.pc[t := Idle] == w.pc[t := Idle];
    RunsBefore(w2, CheckTime(t, true), [Unlock(t), Unlock(t), ResumeAll(t)], w.(pc := w.pc[t := Idle]));
    PassBegins(w, t, op, [CheckTime(t, true)] + [Unlock(t), Unlock(t), ResumeAll(t)], w.(pc := w.pc[t := Idle]));
  }

  /** One that finds something there leaves everything as it was and is about to try again. */
  lemma RetryingPass(w: World, t: TaskId, op: Op)
    requires Invariant(w) && w.suspender == {} && PcOf(w, t) == Missed(op) && !Lacking(w.q, op)
    ensures Runs(w, [SuspendAll(t), Lock(t)] + ([CheckTime(t, false)] + ([LookAgain(t)] + [Unlock(t), Unlock(t), ResumeAll(t)])),
                 w.(pc := w.pc[t := Entering(op)]))
  {
    hide Members, Runs;
    var w2 := World(Quiet(w.q), w.pc[t := Locked(op)], {t});
    var w3 := Do(w2, CheckTime(t, false));
    var w4 := Do(w3, LookAgain(t));
    var w' := w.(pc := w.pc[t := Entering(op)]);
    Finishes(w4, t, op, Retry);
    assert w4.pc[t := Entering(op)] == w'.pc;
    RunsBefore(w3, LookAgain(t), [Unlock(t), Unlock(t), ResumeAll(t)], w');
    RunsBefore(w2, CheckTime(t, false), [LookAgain(t)] + [Unlock(t), Unlock(t), ResumeAll(t)], w');
    PassBegins(w, t, op, [CheckTime(t, false)] + ([LookAgain(t)] + [Unlock(t), Unlock(t), ResumeAll(t)]), w');
  }

  /** One that still finds nothing is blocked, in the place of the waiting list that is its own, and nothing else has changed. */
  lemma BlockingPass(w: World, t: TaskId, op: Op, at: nat)
    requires Invariant(w) && w.suspender == {} && PcOf(w, t) == Missed(op) && Lacking(w.q, op)
    requires at <= |SideOf(w.q, op).waiting|
    ensures Runs(w, [SuspendAll(t), Lock(t)]
                    + ([CheckTime(t, false)] + ([LookAgain(t)] + ([Place(t, at)] + [Unlock(t), Unlock(t), ResumeAll(t)]))),
                 World(WithSide(w.q, op, Join(SideOf(w.q, op), at, t)), w.pc[t := Parked(op)], {}))
  {
    hide Members, Runs;
    var w2 := World(Quiet(w.q), w.pc[t := Locked(op)], {t});
    var w3 := Do(w2, CheckTime(t, false));
    var w4 := Do(w3, LookAgain(t));
    var w5 := Do(w4, Place(t, at));
    var w' := World(WithSide(w.q, op, Join(SideOf(w.q, op), at, t)), w.pc[t := Parked(op)], {});
    Finishes(w5, t, op, Block);
    assert w5.pc[t := Parked(op)] == w'.pc;
    RunsBefore(w4, Place(t, at), [Unlock(t), Unlock(t), ResumeAll(t)], w');
    RunsBefore(w3, LookAgain(t), [Place(t, at)] + [Unlock(t), Unlock(t), ResumeAll(t)], w');
    RunsBefore(w2, CheckTime(t, false), [LookAgain(t)] + ([Place(t, at)] + [Unlock(t), Unlock(t), ResumeAll(t)]), w');
    PassBegins(w, t, op, [CheckTime(t, false)] + ([LookAgain(t)] + ([Place(t, at)] + [Unlock(t), Unlock(t), ResumeAll(t)])), w');
  }
}
