/**
 Timeouts of blocking calls: a mark made of the overflow count and the tick, checked each time the caller
 wakes.  Absolute times are natural numbers; the code sees only their epoch and their wrapped value.
 */
module TimeOuts {
  import Division
  import opened Ticks

  /** xNumOfOverflows at an absolute time. */
  function Overflows(time: nat): nat {
    time / TICKS
  }

  class TimeOut {
    var overflowCount: nat
    var timeOnEntering: Tick

    constructor ()
    {
    }

    ghost predicate Marks(time: nat)
      reads this
    {
      overflowCount == Overflows(time) && timeOnEntering == Of(time)
    }

    /** vTaskSetTimeOutState. */
    method SetState(numOfOverflows: nat, tick: Tick)
      modifies this
      ensures overflowCount == numOfOverflows && timeOnEntering == tick
    {
      overflowCount := numOfOverflows;
      timeOnEntering := tick;
    }

    /** xTaskCheckForTimeOut. */
    method Check(numOfOverflows: nat, tick: Tick, ticksToWait: Tick) returns (timedOut: bool, remaining: Tick)
      modifies this
      ensures timedOut == Expired(old(overflowCount), old(timeOnEntering), numOfOverflows, tick, ticksToWait)
      ensures remaining == if timedOut || ticksToWait == MAX_DELAY then ticksToWait
                           else ticksToWait - Sub(tick, old(timeOnEntering))
      ensures if timedOut || ticksToWait == MAX_DELAY
              then overflowCount == old(overflowCount) && timeOnEntering == old(timeOnEntering)
              else overflowCount == numOfOverflows && timeOnEntering == tick
    {
      remaining := ticksToWait;
      if ticksToWait == MAX_DELAY {
        timedOut := false;
      } else if numOfOverflows != overflowCount && tick >= timeOnEntering {
        timedOut := true;
      } else if Sub(tick, timeOnEntering) < ticksToWait {
        remaining := ticksToWait - Sub(tick, timeOnEntering);
        SetState(numOfOverflows, tick);
        timedOut := false;
      } else {
        timedOut := true;
      }
    }
  }

  /** The decision of xTaskCheckForTimeOut. */
  predicate Expired(overflowCount: nat, timeOnEntering: Tick, numOfOverflows: nat, tick: Tick, ticksToWait: Tick) {
    ticksToWait != MAX_DELAY &&
    ((numOfOverflows != overflowCount && tick >= timeOnEntering) || Sub(tick, timeOnEntering) >= ticksToWait)
  }

  predicate Answer(entered: nat, now: nat, wait: Tick) {
    Expired(Overflows(entered), Of(entered), Overflows(now), Of(now), wait)
  }

  lemma EpochProduct(time: nat)
    ensures EpochStart(time) == TICKS * Overflows(time)
  {
  }

  lemma SameOverflows(a: nat, b: nat)
    ensures Overflows(a) == Overflows(b) <==> EpochStart(a) == EpochStart(b)
    ensures Overflows(a) + 1 == Overflows(b) ==> EpochStart(b) == EpochStart(a) + TICKS
    ensures Overflows(a) + 2 <= Overflows(b) ==> EpochStart(b) >= EpochStart(a) + TICKS + TICKS
    ensures Overflows(a) < Overflows(b) ==> EpochStart(b) >= EpochStart(a) + TICKS
  {
    EpochProduct(a);
    EpochProduct(b);
    if Overflows(a) < Overflows(b) {
      Division.OneApart(TICKS, Overflows(a), Overflows(b));
      if Overflows(a) + 1 < Overflows(b) {
        Division.OneApart(TICKS, Overflows(a) + 1, Overflows(b));
        assert TICKS * (Overflows(a) + 1) == TICKS * Overflows(a) + TICKS;
      }
    }
    if Overflows(b) < Overflows(a) {
      Division.OneApart(TICKS, Overflows(b), Overflows(a));
    }
  }

  lemma OverflowsMonotone(a: nat, b: nat)
    requires a <= b
    ensures Overflows(a) <= Overflows(b)
  {
    if Overflows(b) < Overflows(a) {
      SameOverflows(b, a);
    }
  }

  /**
   The answer is right exactly when the clock has not wrapped twice and then stopped short of the entry
   value with the wrapped difference below the wait; in particular with at most one wrap it always is.
   */
  lemma CheckExact(entered: nat, now: nat, wait: Tick)
    requires entered <= now && wait != MAX_DELAY
    ensures (Answer(entered, now, wait) <==> now - entered >= wait)
            <==> !(Overflows(now) >= Overflows(entered) + 2 && Of(now) < Of(entered) && Sub(Of(now), Of(entered)) < wait)
  {
    SameOverflows(entered, now);
    OverflowsMonotone(entered, now);
    hide Of, EpochStart, Overflows;
  }

  /** A clock that wraps twice and stops just short of the entry value hides a timeout long past. */
  lemma TwoWrapsMissed()
    requires TICKS >= 4
    ensures !Answer(TICKS - 1, TICKS + TICKS, 2) && TICKS + TICKS - (TICKS - 1) >= 2
  {
    Division.Unique(TICKS - 1, TICKS, 0, TICKS - 1);
    Division.Unique(TICKS + TICKS, TICKS, 2, 0);
  }

  /** With at most one overflow since the mark, the machine difference is the true one. */
  lemma CheckElapsed(entered: nat, now: nat, wait: Tick)
    requires entered <= now && wait != MAX_DELAY && Overflows(now) <= Overflows(entered) + 1
    ensures Answer(entered, now, wait) <==> now - entered >= wait
    ensures !Answer(entered, now, wait) ==> Sub(Of(now), Of(entered)) == now - entered
  {
    CheckExact(entered, now, wait);
    if !Answer(entered, now, wait) {
      SameOverflows(entered, now);
      OverflowsMonotone(entered, now);
      SubDuration(entered, now);
    }
  }

  // ---------------------------------------------------------------------------
  // One blocking call
  // ---------------------------------------------------------------------------

  /**
   What a caller meets in one turn of the retry loop: whether the operation can be done at once, the time of
   the timeout check, and whether the operation is still impossible then.
   */
  datatype Round = Round(available: bool, at: nat, stillUnavailable: bool)

  datatype Outcome = Succeeded | Refused | TimedOut | Waiting

  ghost predicate Clocked(entered: nat, rounds: seq<Round>) {
    && (rounds != [] ==> entered <= rounds[0].at && Overflows(rounds[0].at) <= Overflows(entered) + 1)
    && forall i :: 0 < i < |rounds| ==>
         rounds[i - 1].at <= rounds[i].at && Overflows(rounds[i].at) <= Overflows(rounds[i - 1].at) + 1
  }

  /** No turn before k could succeed, and none of their checks came at or after the deadline. */
  ghost predicate KeptWaiting(entered: nat, wait: Tick, rounds: seq<Round>, k: nat) {
    k <= |rounds| &&
    forall i :: 0 <= i < k ==> !rounds[i].available && (wait == MAX_DELAY || rounds[i].at < entered + wait)
  }

  /**
   The retry loop shared by blocking sends and receives.  `used` is the last turn entered and `wakes` the
   absolute wake times of the blocks on the way.
   */
  method BlockingCall(entered: nat, wait: Tick, rounds: seq<Round>)
    returns (outcome: Outcome, used: nat, wakes: seq<nat>)
    requires Clocked(entered, rounds)
    ensures KeptWaiting(entered, wait, rounds, used)
    ensures outcome == Waiting <==> used == |rounds|
    ensures outcome == Succeeded <==> used < |rounds| && rounds[used].available
    ensures outcome == Refused <==> used < |rounds| && !rounds[used].available && wait == 0
    ensures outcome == TimedOut <==> used < |rounds| && !rounds[used].available && 0 < wait < MAX_DELAY
                                     && rounds[used].at >= entered + wait
    ensures forall i :: 0 <= i < |wakes| ==> wakes[i] == entered + wait
  {
    hide Of, Overflows, EpochStart;
    var remaining: Tick := wait;
    var entryTimeSet := false;
    var timeOut := new TimeOut();
    ghost var last: nat := entered;
    used, wakes := 0, [];
    while used < |rounds|
      invariant used <= |rounds| && KeptWaiting(entered, wait, rounds, used)
      invariant entryTimeSet ==> timeOut.Marks(last)
      invariant !entryTimeSet ==> used == 0 && last == entered && remaining == wait
      invariant entered <= last
      invariant last == if used == 0 || wait == MAX_DELAY then entered else rounds[used - 1].at
      invariant if wait == MAX_DELAY then remaining == wait else last + remaining == entered + wait
      invariant used > 0 ==> wait > 0 && remaining > 0
      invariant forall i :: 0 <= i < |wakes| ==> wakes[i] == entered + wait
    {
      var round := rounds[used];
      if round.available {
        return Succeeded, used, wakes;
      }
      if remaining == 0 {
        return Refused, used, wakes;
      }
      if !entryTimeSet {
        timeOut.SetState(Overflows(entered), Of(entered));
        entryTimeSet := true;
      }
      var timedOut: bool;
      ghost var before := remaining;
      timedOut, remaining := timeOut.Check(Overflows(round.at), Of(round.at), remaining);
      if before != MAX_DELAY {
        CheckElapsed(last, round.at, before);
        last := round.at;
      }
      if timedOut {
        return TimedOut, used, wakes;
      }
      if round.stillUnavailable && remaining != MAX_DELAY {
        wakes := wakes + [round.at + remaining];
      }
      used := used + 1;
    }
    outcome := Waiting;
  }
}
