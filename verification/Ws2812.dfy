/**
 The WS2812 driver: a circular DMA buffer of two halves that an interrupt handler refills while the other
 half is being emitted.
 */
module Ws2812 {
  import Division

  const TIM4_FREQ := 50_000_000
  const PERIOD_900NS := TIM4_FREQ / 1_111_111
  const PERIOD_350NS := TIM4_FREQ / 2_857_142
  const BIT_BUFFER_SIZE := 24 * 6
  const HALF := BIT_BUFFER_SIZE / 2

  type Byte = b: int | 0 <= b < 256 witness 0

  /** A colour, and the unused byte below it in the 32-bit word. */
  datatype Led = Led(g: Byte, r: Byte, b: Byte, unused: Byte)

  // ---------------------------------------------------------------------------
  // Bits
  // ---------------------------------------------------------------------------

  function Pow2(k: nat): (p: nat)
    ensures p > 0
  {
    if k == 0 then 1 else 2 * Pow2(k - 1)
  }

  predicate Bit(v: nat, k: nat) {
    v / Pow2(k) % 2 == 1
  }

  /** The word the driver shifts. */
  function Grbu(led: Led): nat {
    ((led.g * 256 + led.r) * 256 + led.b) * 256 + led.unused
  }

  /** The i-th bit on the wire: green, red, blue, each most significant bit first. */
  predicate WireBit(led: Led, i: nat)
    requires i < 24
  {
    if i < 8 then Bit(led.g, 7 - i) else if i < 16 then Bit(led.r, 15 - i) else Bit(led.b, 23 - i)
  }

  lemma {:induction false} Pow2Sum(a: nat, b: nat)
    ensures Pow2(a + b) == Pow2(a) * Pow2(b)
  {
    if a > 0 {
      Pow2Sum(a - 1, b);
      MulAssociates(2, Pow2(a - 1), Pow2(b));
    }
  }

  lemma MulAssociates(a: int, b: int, c: int)
    ensures a * (b * c) == (a * b) * c
  {
  }

  lemma ModTwo(q: nat, h: nat)
    ensures (2 * h + q) % 2 == q % 2
  {
  }

  lemma NestedQuotient(a: nat, low: nat, p: nat, m: nat)
    requires low < p && m > 0 && p * m > 0
    ensures (a * p + low) / (p * m) == a / m
  {
    var q, r := a / m, a % m;
    assert a == q * m + r;
    Regroup(q, m, r, p);
    Division.OneApart(p, r, m);
    Division.Unique(a * p + low, p * m, q, r * p + low);
  }

  lemma Regroup(q: int, m: int, r: int, p: int)
    ensures (q * m + r) * p == q * (p * m) + r * p
  {
  }

  lemma LowQuotient(a: nat, low: nat, m: nat, h: nat)
    requires m > 0
    ensures (a * (m * (2 * h)) + low) / m == 2 * (a * h) + low / m
  {
    var q, r := low / m, low % m;
    assert low == q * m + r;
    Expand(a, m, h, q);
    Division.Unique(a * (m * (2 * h)) + low, m, 2 * (a * h) + q, r);
  }

  /** Bits above position n of a*2^n + low are the bits of a. */
  lemma BitHigh(a: nat, low: nat, n: nat, k: nat)
    requires low < Pow2(n)
    ensures Bit(a * Pow2(n) + low, n + k) == Bit(a, k)
  {
    hide Pow2;
    Pow2Sum(n, k);
    NestedQuotient(a, low, Pow2(n), Pow2(k));
  }

  /** Bits below position n are the bits of low. */
  lemma BitLow(a: nat, low: nat, n: nat, k: nat)
    requires low < Pow2(n) && k < n
    ensures Bit(a * Pow2(n) + low, k) == Bit(low, k)
  {
    Pow2Split(n, k);
    ParityKept(a, low, Pow2(n), Pow2(k), Pow2(n - k - 1));
  }

  lemma Pow2Split(n: nat, k: nat)
    requires k < n
    ensures Pow2(n) == Pow2(k) * (2 * Pow2(n - k - 1))
  {
    Pow2Sum(k, n - k);
  }

  lemma ParityKept(a: nat, low: nat, p: nat, m: nat, h: nat)
    requires m > 0 && p == m * (2 * h)
    ensures (a * p + low) / m % 2 == low / m % 2
  {
    LowQuotient(a, low, m, h);
    ModTwo(low / m, a * h);
  }

  lemma Expand(a: int, m: int, h: int, q: int)
    ensures (2 * (a * h) + q) * m == a * (m * (2 * h)) + q * m
  {
    calc {
      (2 * (a * h) + q) * m;
      2 * (a * h) * m + q * m;
      { MulAssociates(a, h, m); }
      2 * (a * (h * m)) + q * m;
      a * (2 * (h * m)) + q * m;
      a * (m * (2 * h)) + q * m;
    }
  }

  /** Shifting the word by 31 - i and testing its lowest bit reads the i-th bit on the wire. */
  lemma ShiftReadsWire(led: Led, i: nat)
    requires i < 24
    ensures Bit(Grbu(led), 31 - i) == WireBit(led, i)
  {
    hide Bit;
    Powers();
    var bu := led.b * 256 + led.unused;
    var rbu := led.r * 65536 + bu;
    assert Grbu(led) == led.g * Pow2(24) + rbu;
    if i < 8 {
      BitHigh(led.g, rbu, 24, 7 - i);
    } else {
      BitLow(led.g, rbu, 24, 31 - i);
      if i < 16 {
        BitHigh(led.r, bu, 16, 15 - i);
      } else {
        BitLow(led.r, bu, 16, 31 - i);
        BitHigh(led.b, led.unused, 8, 23 - i);
      }
    }
  }

  lemma Powers()
    ensures Pow2(8) == 256 && Pow2(16) == 65536 && Pow2(24) == 16777216
  {
    assert Pow2(8) == 256;
    Pow2Sum(8, 8);
    Pow2Sum(16, 8);
  }

  // ---------------------------------------------------------------------------
  // The stream
  // ---------------------------------------------------------------------------

  type Pulse = p: int | 0 <= p < 65536 witness 0

  function Code(bit: bool): Pulse {
    if bit then PERIOD_900NS else PERIOD_350NS
  }

  /** What ought to be on the wire at position i: the LEDs' bits in order, then nothing. */
  function Wire(leds: seq<Led>, count: int, i: nat): Pulse
    requires count <= |leds|
  {
    if i < count * 24 then Code(WireBit(leds[i / 24], i % 24)) else 0
  }

  /** What a fill writes at position i of its half, with `sent` LEDs already dealt with. */
  function Fill(leds: seq<Led>, count: int, sent: nat, i: nat): Pulse
    requires count <= |leds| && i < HALF
  {
    if i < (count - sent) * 24 then Code(Bit(Grbu(leds[sent + i / 24]), 31 - i % 24)) else 0
  }

  /** leds_sent after a fill: the last LED dealt with, plus one, even when there was none. */
  function SentAfter(count: int, sent: nat): nat {
    if sent >= count then sent + 1 else if count - sent >= 3 then sent + 3 else count
  }

  /** After j fills leds_sent is 3j, or everything has been sent. */
  predicate OnTrack(count: int, sent: nat, j: nat) {
    sent == 3 * j || (sent >= count && 3 * j >= count)
  }

  lemma SentOnTrack(count: int, sent: nat, j: nat)
    requires OnTrack(count, sent, j)
    ensures OnTrack(count, SentAfter(count, sent), j + 1)
    ensures count - sent < 3 <==> 3 * j + 3 > count
  {
  }

  /** The j-th fill writes the j-th half-buffer of the wire. */
  lemma FillIsWire(leds: seq<Led>, count: int, sent: nat, j: nat, i: nat)
    requires count <= |leds| && OnTrack(count, sent, j) && i < HALF
    ensures Fill(leds, count, sent, i) == Wire(leds, count, j * HALF + i)
  {
    hide Bit, WireBit, Grbu;
    var led := 3 * j + i / 24;
    assert j * HALF + i == led * 24 + i % 24;
    assert (j * HALF + i) / 24 == led && (j * HALF + i) % 24 == i % 24;
    if sent == 3 * j && i < (count - sent) * 24 {
      ShiftReadsWire(leds[led], i % 24);
    }
  }

  /** The half-buffers emitted before the driver stops. */
  function Halves(count: int): nat {
    (if count < 6 then 1 else count / 3) + 1
  }

  /** They hold every LED, and at least one LED's worth of silence after them. */
  lemma HalvesSuffice(count: int)
    ensures Halves(count) * HALF >= count * 24 + 24
  {
  }

  // ---------------------------------------------------------------------------
  // The driver
  // ---------------------------------------------------------------------------

  datatype Stage = Idle | Sending | Done

  /** The stage after a fill, for which `left` LEDs were still to be sent. */
  function NextStage(stage: Stage, left: int): Stage {
    if stage == Done then Idle else if left < 3 then Done else Sending
  }

  class Driver {
    var leds: seq<Led>
    var ledCount: int
    var ledsSent: nat
    var stage: Stage
    var dmaEnabled: bool
    const bitBuffer: array<Pulse>

    ghost predicate Valid()
      reads this
    {
      bitBuffer.Length == BIT_BUFFER_SIZE && ledCount <= |leds|
    }

    /** One half of the buffer. */
    ghost function Half(high: bool): seq<Pulse>
      requires Valid()
      reads this, bitBuffer
    {
      if high then bitBuffer[HALF..] else bitBuffer[..HALF]
    }

    constructor ()
      ensures Valid() && stage == Idle && !dmaEnabled && fresh(bitBuffer)
    {
      leds, ledCount, ledsSent, stage, dmaEnabled := [], 0, 0, Idle, false;
      bitBuffer := new Pulse[BIT_BUFFER_SIZE];
    }

    /** The first loop of ws2812_fill_bit_buffer: until the half is full or the LEDs are finished. */
    method EncodeLeds(offset: nat) returns (i: nat, led: nat)
      requires Valid() && offset + HALF <= bitBuffer.Length
      modifies this`stage, bitBuffer
      ensures i <= HALF && (i < HALF ==> i >= (ledCount - ledsSent) * 24)
      ensures led + 1 == SentAfter(ledCount, ledsSent)
      ensures stage == if ledCount - ledsSent < 3 then Done else Sending
      ensures forall j :: 0 <= j < i ==> bitBuffer[offset + j] == Fill(leds, ledCount, ledsSent, j)
      ensures forall j :: 0 <= j < BIT_BUFFER_SIZE && !(offset <= j < offset + HALF) ==> bitBuffer[j] == old(bitBuffer[j])
    {
      hide Bit, Grbu;
      led := ledsSent;
      stage := Sending;
      i := 0;
      while i < HALF
        invariant 0 <= i <= HALF && stage == Sending
        invariant i <= (ledCount - ledsSent) * 24 || i == 0
        invariant led == if i == 0 then ledsSent else ledsSent + (i - 1) / 24
        invariant forall j :: 0 <= j < i ==> bitBuffer[offset + j] == Fill(leds, ledCount, ledsSent, j)
        invariant forall j :: 0 <= j < BIT_BUFFER_SIZE && !(offset <= j < offset + HALF) ==> bitBuffer[j] == old(bitBuffer[j])
      {
        if i < (ledCount - ledsSent) * 24 {
          if Bit(Grbu(leds[ledsSent + i / 24]), 31 - i % 24) {
            bitBuffer[offset + i] := PERIOD_900NS;
          } else {
            bitBuffer[offset + i] := PERIOD_350NS;
          }
          led := ledsSent + i / 24;
        } else {
          stage := Done;
          break;
        }
        i := i + 1;
      }
    }

    /** ws2812_fill_bit_buffer. */
    method FillBitBuffer(high: bool)
      requires Valid()
      modifies this`ledsSent, this`stage, bitBuffer
      ensures forall i :: 0 <= i < HALF ==> Half(high)[i] == Fill(leds, ledCount, old(ledsSent), i)
      ensures Half(!high) == old(Half(!high))
      ensures ledsSent == SentAfter(ledCount, old(ledsSent))
      ensures stage == if ledCount - old(ledsSent) < 3 then Done else Sending
    {
      hide Bit, Grbu;
      var offset := if high then HALF else 0;
      var i, led := EncodeLeds(offset);
      while i < HALF
        modifies bitBuffer
        invariant i <= HALF && (i < HALF ==> i >= (ledCount - ledsSent) * 24)
        invariant forall j :: 0 <= j < i ==> bitBuffer[offset + j] == Fill(leds, ledCount, ledsSent, j)
        invariant forall j :: 0 <= j < BIT_BUFFER_SIZE && !(offset <= j < offset + HALF) ==> bitBuffer[j] == old(bitBuffer[j])
      {
        bitBuffer[offset + i] := 0;
        i := i + 1;
      }
      hide Fill;
      ghost var half := bitBuffer[offset..offset + HALF];
      assert forall j :: 0 <= j < HALF ==> half[j] == Fill(leds, ledCount, ledsSent, j);
      ledsSent := led + 1;
      assert Half(high) == half;
    }

    method ClearBitBuffer()
      requires Valid()
      modifies bitBuffer
      ensures forall i :: 0 <= i < BIT_BUFFER_SIZE ==> bitBuffer[i] == 0
    {
      for i := 0 to BIT_BUFFER_SIZE
        invariant forall j :: 0 <= j < i ==> bitBuffer[j] == 0
      {
        bitBuffer[i] := 0;
      }
    }

    /** ws2812_send. */
    method Send(leds: seq<Led>, ledCount: int)
      requires Valid() && ledCount <= |leds|
      modifies this, bitBuffer
      ensures Valid() && this.leds == leds && this.ledCount == ledCount && dmaEnabled
      ensures forall i :: 0 <= i < HALF ==> Half(false)[i] == Fill(leds, ledCount, 0, i)
      ensures forall i :: 0 <= i < HALF ==> Half(true)[i] == Fill(leds, ledCount, SentAfter(ledCount, 0), i)
      ensures ledsSent == SentAfter(ledCount, SentAfter(ledCount, 0))
      ensures stage == if ledCount - SentAfter(ledCount, 0) < 3 then Done else Sending
    {
      hide Fill;
      this.leds, this.ledCount, ledsSent := leds, ledCount, 0;
      FillBitBuffer(false);
      FillBitBuffer(true);
      dmaEnabled := true;
    }

    /** What the interrupt does about the half that has just been emitted. */
    method RefillOrStop(high: bool)
      requires Valid()
      modifies this`ledsSent, this`stage, this`dmaEnabled, bitBuffer
      ensures old(stage) == Idle ==> !dmaEnabled && stage == Idle && ledsSent == old(ledsSent)
      ensures old(stage) != Idle ==>
                && dmaEnabled == old(dmaEnabled) && ledsSent == SentAfter(ledCount, old(ledsSent))
                && Half(!high) == old(Half(!high))
                && (forall i :: 0 <= i < HALF ==> Half(high)[i] == Fill(leds, ledCount, old(ledsSent), i))
                && stage == NextStage(old(stage), ledCount - old(ledsSent))
    {
      hide Fill;
      if stage != Idle {
        if stage == Done {
          FillBitBuffer(high);
          stage := Idle;
        } else {
          FillBitBuffer(high);
        }
      } else {
        ClearBitBuffer();
        dmaEnabled := false;
      }
    }

    /** DMA1_Stream6_IRQHandler, with the two interrupt flags; when both are set the two halves are served in turn. */
    method InterruptHandler(halfTransfer: bool, transferComplete: bool)
      requires Valid()
      modifies this`ledsSent, this`stage, this`dmaEnabled, bitBuffer
      ensures !halfTransfer && !transferComplete ==>
                && stage == old(stage) && ledsSent == old(ledsSent) && dmaEnabled == old(dmaEnabled)
                && bitBuffer[..] == old(bitBuffer[..])
      ensures halfTransfer != transferComplete && old(stage) == Idle ==>
                !dmaEnabled && stage == Idle && ledsSent == old(ledsSent)
      ensures halfTransfer != transferComplete && old(stage) != Idle ==>
                && dmaEnabled == old(dmaEnabled) && ledsSent == SentAfter(ledCount, old(ledsSent))
                && Half(halfTransfer) == old(Half(halfTransfer))
                && (forall i :: 0 <= i < HALF ==> Half(transferComplete)[i] == Fill(leds, ledCount, old(ledsSent), i))
                && stage == NextStage(old(stage), ledCount - old(ledsSent))
      ensures halfTransfer && transferComplete && old(stage) != Sending ==> !dmaEnabled && stage == Idle
      ensures halfTransfer && transferComplete && old(stage) == Sending ==>
                var sent := SentAfter(ledCount, old(ledsSent));
                && dmaEnabled == old(dmaEnabled) && ledsSent == SentAfter(ledCount, sent)
                && (forall i :: 0 <= i < HALF ==> Half(false)[i] == Fill(leds, ledCount, old(ledsSent), i))
                && (forall i :: 0 <= i < HALF ==> Half(true)[i] == Fill(leds, ledCount, sent, i))
                && stage == NextStage(NextStage(Sending, ledCount - old(ledsSent)), ledCount - sent)
    {
      hide Fill;
      if halfTransfer {
        RefillOrStop(false);
      }
      if transferComplete {
        RefillOrStop(true);
      }
    }

    ghost predicate HoldsFill(high: bool, j: nat)
      requires Valid()
      reads this, bitBuffer
    {
      forall i :: 0 <= i < HALF ==> Half(high)[i] == Wire(leds, ledCount, j * HALF + i)
    }

    /** With j half-buffers emitted: which fills the buffer holds, and what the stage means. */
    ghost predicate Streaming(j: nat, high: bool)
      requires Valid()
      reads this, bitBuffer
    {
      && OnTrack(ledCount, ledsSent, j + 2)
      && HoldsFill(high, j)
      && match stage
         case Sending => 3 * j + 6 <= ledCount && HoldsFill(!high, j + 1)
         case Done => 3 * j + 6 > ledCount && (j == 0 || 3 * j + 3 <= ledCount) && HoldsFill(!high, j + 1)
         case Idle => j + 1 == Halves(ledCount)
    }

    /**
     The stage is idle, and ws2812_is_sending false, exactly while the last half-buffer is being emitted: LED data
     is then still to come exactly when the count exceeds 3 and is not a multiple of it.
     */
    lemma IdleBeforeLastLeds(j: nat, high: bool)
      requires Valid() && Streaming(j, high)
      ensures stage == Idle <==> j + 1 == Halves(ledCount)
      ensures stage == Idle ==> (j * HALF < ledCount * 24 <==> ledCount > 3 && ledCount % 3 != 0)
    {
    }

    /** A fill, in the terms of the wire. */
    lemma FilledHalf(high: bool, sent: nat, j: nat)
      requires Valid() && OnTrack(ledCount, sent, j)
      requires forall i :: 0 <= i < HALF ==> Half(high)[i] == Fill(leds, ledCount, sent, i)
      ensures HoldsFill(high, j)
    {
      hide Fill, Wire;
      forall i | 0 <= i < HALF
        ensures Half(high)[i] == Wire(leds, ledCount, j * HALF + i)
      {
        FillIsWire(leds, ledCount, sent, j, i);
      }
    }

    method SendOnTrack(leds: seq<Led>, ledCount: int)
      requires Valid() && ledCount <= |leds|
      modifies this, bitBuffer
      ensures Valid() && this.leds == leds && this.ledCount == ledCount && dmaEnabled
      ensures Streaming(0, false)
    {
      hide Fill, Wire;
      Send(leds, ledCount);
      SentOnTrack(ledCount, 0, 0);
      SentOnTrack(ledCount, SentAfter(ledCount, 0), 1);
      FilledHalf(false, 0, 0);
      FilledHalf(true, SentAfter(ledCount, 0), 1);
    }

    /** One half has been emitted and its interrupt is served. */
    method ServeInterrupt(high: bool, ghost j: nat)
      requires Valid() && dmaEnabled && Streaming(j, high)
      modifies this`ledsSent, this`stage, this`dmaEnabled, bitBuffer
      ensures dmaEnabled <==> old(stage) != Idle
      ensures dmaEnabled ==> Streaming(j + 1, !high)
      ensures !dmaEnabled ==> j + 1 == Halves(ledCount)
    {
      hide Fill, Wire;
      SentOnTrack(ledCount, ledsSent, j + 2);
      InterruptHandler(!high, high);
      if old(stage) != Idle {
        FilledHalf(high, old(ledsSent), j + 2);
      }
    }

    /**
     A whole transmission, with half-transfer and transfer-complete interrupts alternating and each served
     before the next: what is emitted until the DMA stops is every LED in order, each once, and then silence.
     */
    method Transmit(leds: seq<Led>, ledCount: int) returns (emitted: seq<Pulse>)
      requires Valid() && ledCount <= |leds|
      modifies this, bitBuffer
      ensures !dmaEnabled && |emitted| == Halves(ledCount) * HALF
      ensures forall i :: 0 <= i < |emitted| ==> emitted[i] == Wire(leds, ledCount, i)
    {
      hide Fill, Wire;
      SendOnTrack(leds, ledCount);
      emitted := [];
      var high := false;
      ghost var j := 0;
      while dmaEnabled
        invariant Valid() && this.leds == leds && this.ledCount == ledCount
        invariant |emitted| == j * HALF && (dmaEnabled ==> Streaming(j, high) && j < Halves(ledCount))
        invariant !dmaEnabled ==> j == Halves(ledCount)
        invariant forall i :: 0 <= i < |emitted| ==> emitted[i] == Wire(leds, ledCount, i)
        decreases Halves(ledCount) - j
      {
        var half := if high then bitBuffer[HALF..] else bitBuffer[..HALF];
        forall i | |emitted| <= i < |emitted| + HALF
          ensures half[i - |emitted|] == Wire(leds, ledCount, i)
        {
          assert Half(high)[i - |emitted|] == Wire(leds, ledCount, j * HALF + (i - |emitted|));
        }
        emitted := emitted + half;
        ServeInterrupt(high, j);
        high := !high;
        j := j + 1;
      }
    }
  }

  /** A pulse of as many whole counts of a 50 MHz timer as fit in ns nanoseconds. */
  predicate Lasts(pulse: int, ns: nat) {
    pulse * 1_000_000_000 <= ns * 50_000_000 < pulse * 1_000_000_000 + 1_000_000_000
  }

  /**
   What the codes are in time: with 50 million counts a second, a one is the greatest number of counts within 900 ns
   and a zero the greatest within 350 ns; neither is silence, and they are far enough apart to be told.
   */
  lemma PulseWidths()
    ensures Lasts(Code(true), 900) && Lasts(Code(false), 350)
    ensures 0 < Code(false) && Code(false) as int + 27 < Code(true) as int
  {
  }

  /** The transmission in full: the encoded LEDs, followed by zeros only, and at least one LED's worth of them. */
  lemma WireIsEncoding(leds: seq<Led>, count: int, emitted: seq<Pulse>)
    requires count <= |leds| && |emitted| == Halves(count) * HALF
    requires forall i :: 0 <= i < |emitted| ==> emitted[i] == Wire(leds, count, i)
    ensures count * 24 + 24 <= |emitted|
    ensures forall led, bit :: 0 <= led < count && 0 <= bit < 24 ==>
              Lasts(emitted[led * 24 + bit], if WireBit(leds[led], bit) then 900 else 350)
    ensures forall i :: 0 <= i < |emitted| && i >= count * 24 ==> emitted[i] == 0
  {
    hide WireBit, Code, Lasts;
    PulseWidths();
    HalvesSuffice(count);
    forall led, bit | 0 <= led < count && 0 <= bit < 24
      ensures emitted[led * 24 + bit] == Code(WireBit(leds[led], bit))
    {
      assert (led * 24 + bit) / 24 == led && (led * 24 + bit) % 24 == bit;
    }
  }

  // ---------------------------------------------------------------------------
  // Decoding
  // ---------------------------------------------------------------------------

  /** What a receiver makes of some pulses: one longer than the threshold is a one, and the first bit counts most. */
  function Received(pulses: seq<Pulse>, threshold: Pulse): nat {
    if pulses == [] then 0
    else
      var n := |pulses| - 1;
      2 * Received(pulses[..n], threshold) + if pulses[n] > threshold then 1 else 0
  }

  lemma BitStep(v: nat, k: nat)
    ensures v / Pow2(k) == 2 * (v / Pow2(k + 1)) + if Bit(v, k) then 1 else 0
  {
    var p := Pow2(k);
    var q, r := v / p, v % p;
    assert Pow2(k + 1) == p * 2;
    hide Pow2;
    assert v == q * p + r;
    NestedQuotient(q, r, p, 2);
    assert v / (p * 2) == q / 2;
    Halved(q);
  }

  lemma Halved(q: nat)
    ensures q == 2 * (q / 2) + if q % 2 == 1 then 1 else 0
  {
  }

  /** The first pulses of a byte give its leading bits. */
  lemma {:induction false} LeadingBits(pulses: seq<Pulse>, threshold: Pulse, v: Byte)
    requires |pulses| <= 8
    requires forall j :: 0 <= j < |pulses| ==> (pulses[j] > threshold <==> Bit(v, 7 - j))
    ensures Received(pulses, threshold) == v / Pow2(8 - |pulses|)
  {
    hide Pow2, Bit;
    if pulses == [] {
      Powers();
    } else {
      LeadingBits(pulses[..|pulses| - 1], threshold, v);
      BitStep(v, 8 - |pulses|);
    }
  }

  /** The j-th byte on the wire. */
  function WireByte(led: Led, j: nat): Byte {
    if j == 0 then led.g else if j == 1 then led.r else led.b
  }

  lemma ByteReceived(led: Led, j: nat, pulses: seq<Pulse>, threshold: Pulse)
    requires j < 3 && |pulses| == 8
    requires forall i :: 0 <= i < 8 ==> (pulses[i] > threshold <==> WireBit(led, 8 * j + i))
    ensures Received(pulses, threshold) == WireByte(led, j)
  {
    hide Bit;
    LeadingBits(pulses, threshold, WireByte(led, j));
    assert Pow2(0) == 1;
  }

  /**
   The decoding law: a receiver that tells the pulses apart by any threshold from 350 ns up to 900 ns and reads eight
   bits at a time gets back the green, red and blue of every LED, in order.
   */
  lemma ReceivesLeds(leds: seq<Led>, count: int, emitted: seq<Pulse>, threshold: Pulse, led: nat)
    requires count <= |leds| && |emitted| == Halves(count) * HALF
    requires forall i :: 0 <= i < |emitted| ==> emitted[i] == Wire(leds, count, i)
    requires 350 * 50_000_000 <= threshold as int * 1_000_000_000 < 900 * 50_000_000 && led < count
    ensures led * 24 + 24 <= |emitted|
    ensures Received(emitted[led * 24..led * 24 + 8], threshold) == leds[led].g
    ensures Received(emitted[led * 24 + 8..led * 24 + 16], threshold) == leds[led].r
    ensures Received(emitted[led * 24 + 16..led * 24 + 24], threshold) == leds[led].b
  {
    hide Code, WireBit, Wire;
    WireIsEncoding(leds, count, emitted);
    forall j | 0 <= j < 3
      ensures Received(emitted[led * 24 + 8 * j..led * 24 + 8 * j + 8], threshold) == WireByte(leds[led], j)
    {
      var pulses := emitted[led * 24 + 8 * j..led * 24 + 8 * j + 8];
      forall i | 0 <= i < 8
        ensures pulses[i] > threshold <==> WireBit(leds[led], 8 * j + i)
      {
        assert pulses[i] == emitted[led * 24 + (8 * j + i)];
      }
      ByteReceived(leds[led], j, pulses, threshold);
    }
    assert WireByte(leds[led], 0) == leds[led].g && WireByte(leds[led], 1) == leds[led].r && WireByte(leds[led], 2) == leds[led].b;
  }
}
