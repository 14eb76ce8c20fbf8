/**
 Tick arithmetic.  TickType_t is an unsigned machine word that wraps; absolute time is a natural number.
 The width is symbolic: every result below holds for 16-bit ticks, for the 32-bit ticks of this
 configuration, and for any other modulus of at least two.
 */
module Ticks {
  import Division

  type Modulus = m: int | 2 <= m witness 2

  /** The number of distinct tick values, for instance 2^32. */
  const TICKS: Modulus

  type Tick = t: int | 0 <= t < TICKS witness 0

  /** portMAX_DELAY: every bit set. */
  const MAX_DELAY: Tick := TICKS - 1

  /** The machine tick count that represents an absolute time. */
  function Of(time: nat): (t: Tick) {
    time % TICKS
  }

  /** The machine addition and subtraction, which wrap. */
  function Add(a: Tick, b: Tick): (t: Tick) {
    if a + b < TICKS then a + b else a + b - TICKS
  }

  function Sub(a: Tick, b: Tick): (t: Tick) {
    if b <= a then a - b else a - b + TICKS
  }

  /** The absolute time at which the tick count last read zero. */
  function EpochStart(time: nat): (e: nat)
    ensures e <= time < e + TICKS && e + Of(time) == time
  {
    time - Of(time)
  }

  /** The absolute time of the n-th wrap. */
  function WrapTime(n: nat): (time: nat) {
    TICKS * n
  }

  lemma WrapTimeNext(n: nat)
    ensures WrapTime(0) == 0 && WrapTime(n + 1) == WrapTime(n) + TICKS
  {
  }

  /** The remainder of a sum, when the summand is shorter than a whole wrap. */
  lemma RemainderOfSum(time: nat, d: nat)
    requires d < TICKS
    ensures (time + d) % TICKS == if time % TICKS + d < TICKS then time % TICKS + d else time % TICKS + d - TICKS
  {
    var q, r := time / TICKS, time % TICKS;
    if r + d < TICKS {
      Division.Unique(time + d, TICKS, q, r + d);
    } else {
      assert TICKS * (q + 1) == TICKS * q + TICKS;
      Division.Unique(time + d, TICKS, q + 1, r + d - TICKS);
    }
  }

  /** Adding a duration shorter than a whole wrap: the epoch moves on exactly when the machine sum wraps. */
  lemma AddDuration(time: nat, d: nat)
    requires d < TICKS
    ensures Of(time + d) == Add(Of(time), d)
    ensures EpochStart(time + d) == if Of(time) + d < TICKS then EpochStart(time) else EpochStart(time) + TICKS
  {
    RemainderOfSum(time, d);
  }

  /** The machine difference of two instants less than a wrap apart is the true difference. */
  lemma SubDuration(earlier: nat, later: nat)
    requires earlier <= later < earlier + TICKS
    ensures Sub(Of(later), Of(earlier)) == later - earlier
    ensures EpochStart(later) == if Of(earlier) <= Of(later) then EpochStart(earlier) else EpochStart(earlier) + TICKS
  {
    AddDuration(earlier, later - earlier);
  }
}
