/**
 Event groups: tasks wait for any or all bits of a mask, setting bits wakes every task whose condition then
 holds, and the masks of those that asked for it are cleared afterwards.
 */
module EventGroups {

  type TaskId = nat

  type Bits = bv32

  const CLEAR_ON_EXIT: Bits := 0x0100_0000
  const UNBLOCKED: Bits := 0x0200_0000
  const WAIT_FOR_ALL: Bits := 0x0400_0000
  const CONTROL: Bits := 0xff00_0000
  const IN_USE: Bits := 0x8000_0000

  /** The group, and the event item values of the tasks that wait or have waited on it. */
  datatype Group = Group(bits: Bits, waiting: seq<TaskId>, items: map<TaskId, Bits>)

  // Bit operations, named so that proofs about groups need not look inside them.

  function Union(a: Bits, b: Bits): Bits {
    a | b
  }

  function Cleared(a: Bits, mask: Bits): Bits {
    a & !mask
  }

  predicate Meets(a: Bits, b: Bits) {
    a & b != 0
  }

  function Common(a: Bits, b: Bits): Bits {
    a & b
  }

  predicate Within(a: Bits, b: Bits) {
    a & b == a
  }

  function ControlOf(item: Bits): Bits {
    item & CONTROL
  }

  // ---------------------------------------------------------------------------
  // Conditions
  // ---------------------------------------------------------------------------

  /** prvTestWaitCondition. */
  predicate TestWaitCondition(current: Bits, wanted: Bits, all: bool) {
    if all then current & wanted == wanted else current & wanted != 0
  }

  function Wanted(item: Bits): Bits {
    item & !CONTROL
  }

  function ItemOf(items: map<TaskId, Bits>, t: TaskId): Bits {
    if t in items then items[t] else 0
  }

  /** The condition a queued waiter's item encodes. */
  predicate Satisfied(item: Bits, bits: Bits) {
    TestWaitCondition(bits, Wanted(item), Meets(item, WAIT_FOR_ALL))
  }

  predicate ClearsOnExit(item: Bits) {
    Meets(item, CLEAR_ON_EXIT)
  }

  /** The value left in the item of a task that setting bits has woken. */
  function Delivered(bits: Bits): Bits {
    bits | UNBLOCKED | IN_USE
  }

  /** The item of a task that blocks for `wanted`. */
  function Encode(wanted: Bits, clear: bool, all: bool): Bits {
    wanted | (if clear then CLEAR_ON_EXIT else 0) | (if all then WAIT_FOR_ALL else 0) | IN_USE
  }

  predicate NoControl(b: Bits) {
    b & CONTROL == 0
  }

  lemma EncodeMeans(wanted: Bits, clear: bool, all: bool)
    requires NoControl(wanted)
    ensures var item := Encode(wanted, clear, all);
            && Wanted(item) == wanted && !Meets(item, UNBLOCKED)
            && (ClearsOnExit(item) <==> clear) && (Meets(item, WAIT_FOR_ALL) <==> all)
            && item & 0x8000_0000 != 0
  {
  }

  /** With fewer bits set, no more conditions hold. */
  lemma FewerBits(item: Bits, bits: Bits, mask: Bits)
    ensures Satisfied(item, Cleared(bits, mask)) ==> Satisfied(item, bits)
  {
  }

  /** What a woken task returns is the value that woke it; the item stays marked as in use, so the kernel lets it be. */
  lemma DeliveredValue(bits: Bits)
    requires NoControl(bits)
    ensures Meets(Delivered(bits), UNBLOCKED) && Wanted(Delivered(bits)) == bits && Delivered(bits) & 0x8000_0000 != 0
  {
  }

  // ---------------------------------------------------------------------------
  // The broadcast
  // ---------------------------------------------------------------------------

  /** The waiters whose condition holds, in list order, and those whose condition does not. */
  function Awoken(q: seq<TaskId>, items: map<TaskId, Bits>, bits: Bits): (r: seq<TaskId>)
    ensures forall t :: t in r <==> t in q && Satisfied(ItemOf(items, t), bits)
  {
    if q == [] then []
    else
      var n := |q| - 1;
      assert q == q[..n] + [q[n]];
      Awoken(q[..n], items, bits) + if Satisfied(ItemOf(items, q[n]), bits) then [q[n]] else []
  }

  function Remaining(q: seq<TaskId>, items: map<TaskId, Bits>, bits: Bits): (r: seq<TaskId>)
    ensures forall t :: t in r <==> t in q && !Satisfied(ItemOf(items, t), bits)
    ensures |r| <= |q|
  {
    if q == [] then []
    else
      var n := |q| - 1;
      assert q == q[..n] + [q[n]];
      Remaining(q[..n], items, bits) + if Satisfied(ItemOf(items, q[n]), bits) then [] else [q[n]]
  }

  /** The union of the masks of the satisfied waiters that clear on exit. */
  function ClearMask(q: seq<TaskId>, items: map<TaskId, Bits>, bits: Bits): Bits {
    if q == [] then 0
    else
      var n := |q| - 1;
      var item := ItemOf(items, q[n]);
      Union(ClearMask(q[..n], items, bits), if Satisfied(item, bits) && ClearsOnExit(item) then Wanted(item) else 0)
  }

  /** A bit is in the mask exactly when some satisfied waiter that clears on exit wanted it. */
  lemma {:induction false} ClearMaskExact(q: seq<TaskId>, items: map<TaskId, Bits>, bits: Bits, b: Bits)
    ensures Meets(ClearMask(q, items, bits), b) <==>
            exists t :: t in q && Satisfied(ItemOf(items, t), bits) && ClearsOnExit(ItemOf(items, t))
                        && Meets(Wanted(ItemOf(items, t)), b)
  {
    hide Union, Meets, Satisfied, ClearsOnExit, Wanted;
    NothingMeets(b);
    if q != [] {
      var n := |q| - 1;
      assert q == q[..n] + [q[n]];
      ClearMaskExact(q[..n], items, bits, b);
      var item := ItemOf(items, q[n]);
      UnionMeets(ClearMask(q[..n], items, bits), if Satisfied(item, bits) && ClearsOnExit(item) then Wanted(item) else 0, b);
    }
  }

  lemma UnionMeets(x: Bits, y: Bits, b: Bits)
    ensures Meets(Union(x, y), b) <==> Meets(x, b) || Meets(y, b)
  {
    hide Meets, Union;
    if Meets(x, b) || Meets(y, b) {
      UnionMeetsOne(x, y, b);
    } else {
      UnionMeetsNone(x, y, b);
    }
  }

  lemma UnionMeetsOne(x: Bits, y: Bits, b: Bits)
    requires Meets(x, b) || Meets(y, b)
    ensures Meets(Union(x, y), b)
  {
    assert (x | y) & b == (x & b) | (y & b);
    OrNonZero(x & b, y & b);
  }

  lemma OrNonZero(x: Bits, y: Bits)
    ensures x != 0 || y != 0 ==> x | y != 0
  {
  }

  lemma UnionMeetsNone(x: Bits, y: Bits, b: Bits)
    requires !Meets(x, b) && !Meets(y, b)
    ensures !Meets(Union(x, y), b)
  {
  }

  lemma NothingMeets(b: Bits)
    ensures !Meets(0, b)
  {
  }

  function Deliver(items: map<TaskId, Bits>, woken: seq<TaskId>, value: Bits): map<TaskId, Bits> {
    items + map t | t in woken :: value
  }

  /** xEventGroupSetBits. */
  function SetBits(g: Group, added: Bits): Group {
    var bits := Union(g.bits, added);
    Group(Cleared(bits, ClearMask(g.waiting, g.items, bits)),
          Remaining(g.waiting, g.items, bits),
          Deliver(g.items, Awoken(g.waiting, g.items, bits), Delivered(bits)))
  }

  function ClearBits(g: Group, clear: Bits): Group {
    g.(bits := Cleared(g.bits, clear))
  }

  /** vTaskPlaceOnUnorderedEventList: the task joins at the end of the list as the list's index never moves. */
  function Join(g: Group, t: TaskId, item: Bits): Group {
    g.(waiting := g.waiting + [t], items := g.items[t := item])
  }

  /** The outcome of the part of a call that runs with the scheduler suspended. */
  datatype Outcome = Returned(value: Bits) | Blocked

  function WaitBits(g: Group, t: TaskId, wanted: Bits, clear: bool, all: bool, mayWait: bool): (Group, Outcome) {
    if TestWaitCondition(g.bits, wanted, all) then (if clear then ClearBits(g, wanted) else g, Returned(g.bits))
    else if !mayWait then (g, Returned(g.bits))
    else (Join(g, t, Encode(wanted, clear, all)), Blocked)
  }

  function Sync(g: Group, t: TaskId, added: Bits, wanted: Bits, mayWait: bool): (Group, Outcome) {
    var g1 := SetBits(g, added);
    if TestWaitCondition(Union(g.bits, added), wanted, true) then (ClearBits(g1, wanted), Returned(Union(g.bits, added)))
    else if !mayWait then (g1, Returned(g1.bits))
    else (Join(g1, t, Encode(wanted, true, true)), Blocked)
  }

  /** The part of a call that runs once a blocked task is running again. */
  function Finish(g: Group, t: TaskId, wanted: Bits, clear: bool, all: bool): (Group, Bits) {
    if Meets(ItemOf(g.items, t), UNBLOCKED) then (g, Wanted(ItemOf(g.items, t)))
    else (if TestWaitCondition(g.bits, wanted, all) && clear then ClearBits(g, wanted) else g, Wanted(g.bits))
  }

  /** A waiter whose time is up leaves the list, its item untouched. */
  function TimeOut(g: Group, t: TaskId): (g': Group)
    ensures forall u :: u in g'.waiting <==> u in g.waiting && u != t
  {
    g.(waiting := Without(g.waiting, t))
  }

  function Without(q: seq<TaskId>, t: TaskId): (r: seq<TaskId>)
    ensures forall u :: u in r <==> u in q && u != t
  {
    if q == [] then [] else if q[0] == t then Without(q[1..], t) else [q[0]] + Without(q[1..], t)
  }

  // ---------------------------------------------------------------------------
  // Quiescence
  // ---------------------------------------------------------------------------

  /** Between operations no queued waiter's condition holds, and the control byte of the group is clear. */
  ghost predicate Quiet(g: Group) {
    NoControl(g.bits) && forall t :: t in g.waiting ==> !Satisfied(ItemOf(g.items, t), g.bits)
  }

  lemma BitsNoControl(a: Bits, b: Bits)
    requires NoControl(a)
    ensures NoControl(Cleared(a, b)) && (NoControl(b) ==> NoControl(Union(a, b)))
  {
  }

  lemma ClearQuiet(g: Group, clear: Bits)
    requires Quiet(g)
    ensures Quiet(ClearBits(g, clear))
  {
    hide Satisfied, NoControl, Cleared;
    BitsNoControl(g.bits, clear);
    forall t | t in g.waiting {
      FewerBits(ItemOf(g.items, t), g.bits, clear);
    }
  }

  /** After a broadcast nobody is left waiting whose condition the new bits meet, whatever was true before. */
  lemma SetQuiet(g: Group, added: Bits)
    requires NoControl(g.bits) && NoControl(added)
    ensures Quiet(SetBits(g, added))
  {
    hide Satisfied, NoControl, Cleared, Union, Delivered, Remaining, Awoken, ClearMask;
    var bits := Union(g.bits, added);
    var mask := ClearMask(g.waiting, g.items, bits);
    BitsNoControl(g.bits, added);
    BitsNoControl(bits, mask);
    forall t | t in Remaining(g.waiting, g.items, bits)
      ensures !Satisfied(ItemOf(SetBits(g, added).items, t), Cleared(bits, mask))
    {
      assert t !in Awoken(g.waiting, g.items, bits);
      FewerBits(ItemOf(g.items, t), bits, mask);
    }
  }

  lemma JoinQuiet(g: Group, t: TaskId, item: Bits)
    requires Quiet(g) && t !in g.waiting && !Satisfied(item, g.bits)
    ensures Quiet(Join(g, t, item))
  {
  }

  lemma WaitQuiet(g: Group, t: TaskId, wanted: Bits, clear: bool, all: bool, mayWait: bool)
    requires Quiet(g) && NoControl(wanted) && t !in g.waiting
    ensures Quiet(WaitBits(g, t, wanted, clear, all, mayWait).0)
  {
    hide Encode, NoControl, Meets, Wanted, Cleared;
    ClearQuiet(g, wanted);
    EncodeMeans(wanted, clear, all);
    if !TestWaitCondition(g.bits, wanted, all) {
      JoinQuiet(g, t, Encode(wanted, clear, all));
    }
  }

  lemma SyncQuiet(g: Group, t: TaskId, added: Bits, wanted: Bits, mayWait: bool)
    requires Quiet(g) && NoControl(added) && NoControl(wanted) && t !in g.waiting
    ensures Quiet(Sync(g, t, added, wanted, mayWait).0)
  {
    hide Encode, NoControl, SetBits, Quiet, Meets, Wanted, Cleared, Union, ClearMask;
    var g1 := SetBits(g, added);
    QuietNoControl(g);
    SetQuiet(g, added);
    ClearQuiet(g1, wanted);
    EncodeMeans(wanted, true, true);
    if !TestWaitCondition(Union(g.bits, added), wanted, true) {
      SetMembers(g, added, t);
      FewerBits(Encode(wanted, true, true), Union(g.bits, added), ClearMask(g.waiting, g.items, Union(g.bits, added)));
      SetBitsValue(g, added);
      JoinQuiet(g1, t, Encode(wanted, true, true));
    }
  }

  lemma QuietNoControl(g: Group)
    requires Quiet(g)
    ensures NoControl(g.bits)
  {
  }

  lemma SetMembers(g: Group, added: Bits, t: TaskId)
    requires t !in g.waiting
    ensures t !in SetBits(g, added).waiting
  {
  }

  lemma SetBitsValue(g: Group, added: Bits)
    ensures SetBits(g, added).bits == Cleared(Union(g.bits, added), ClearMask(g.waiting, g.items, Union(g.bits, added)))
  {
    hide Cleared, Union, ClearMask;
  }

  lemma FinishQuiet(g: Group, t: TaskId, wanted: Bits, clear: bool, all: bool)
    requires Quiet(g)
    ensures Quiet(Finish(g, t, wanted, clear, all).0) && Quiet(TimeOut(g, t))
  {
    ClearQuiet(g, wanted);
  }

  // ---------------------------------------------------------------------------
  // Runs
  // ---------------------------------------------------------------------------

  datatype Step =
    | Setting(added: Bits)
    | Clearing(mask: Bits)
    | AwaitingBits(t: TaskId, wanted: Bits, clear: bool, all: bool, mayWait: bool)
    | Syncing(t: TaskId, added: Bits, wanted: Bits, mayWait: bool)
    | Finishing(t: TaskId, wanted: Bits, clear: bool, all: bool)
    | Expiring(t: TaskId)

  /** What the calls assert: the control byte is the kernel's own; and a waiting task makes no other call. */
  predicate Proper(g: Group, s: Step) {
    match s
    case Setting(added) => NoControl(added)
    case Clearing(_) => true
    case AwaitingBits(t, wanted, _, _, _) => t !in g.waiting && NoControl(wanted) && wanted != 0
    case Syncing(t, added, wanted, _) => t !in g.waiting && NoControl(added) && NoControl(wanted) && wanted != 0
    case Finishing(t, _, _, _) => t !in g.waiting
    case Expiring(t) => t in g.waiting
  }

  function Do(g: Group, s: Step): Group {
    match s
    case Setting(added) => SetBits(g, added)
    case Clearing(mask) => ClearBits(g, mask)
    case AwaitingBits(t, wanted, clear, all, mayWait) => WaitBits(g, t, wanted, clear, all, mayWait).0
    case Syncing(t, added, wanted, mayWait) => Sync(g, t, added, wanted, mayWait).0
    case Finishing(t, wanted, clear, all) => Finish(g, t, wanted, clear, all).0
    case Expiring(t) => TimeOut(g, t)
  }

  ghost predicate Runs(g: Group, steps: seq<Step>, g': Group)
    decreases |steps|
  {
    if steps == [] then g' == g else Proper(g, steps[0]) && Runs(Do(g, steps[0]), steps[1..], g')
  }

  lemma StepQuiet(g: Group, s: Step)
    requires Quiet(g) && Proper(g, s)
    ensures Quiet(Do(g, s))
  {
    hide Quiet, NoControl, SetBits, ClearBits, WaitBits, Sync, Finish, TimeOut;
    QuietNoControl(g);
    match s
    case Setting(added) => SetQuiet(g, added);
    case Clearing(mask) => ClearQuiet(g, mask);
    case AwaitingBits(t, wanted, clear, all, mayWait) => WaitQuiet(g, t, wanted, clear, all, mayWait);
    case Syncing(t, added, wanted, mayWait) => SyncQuiet(g, t, added, wanted, mayWait);
    case Finishing(t, wanted, clear, all) => FinishQuiet(g, t, wanted, clear, all);
    case Expiring(t) => FinishQuiet(g, t, 0, false, false);
  }

  lemma {:induction false} RunQuiet(g: Group, steps: seq<Step>, g': Group)
    requires Quiet(g) && Runs(g, steps, g')
    ensures Quiet(g')
    decreases |steps|
  {
    hide Quiet, Proper, Do;
    if steps != [] {
      StepQuiet(g, steps[0]);
      RunQuiet(Do(g, steps[0]), steps[1..], g');
    }
  }

  /** From the creation of the group on, no waiter is ever left queued with its condition met. */
  lemma NeverLeftWaiting(steps: seq<Step>, g: Group)
    requires Runs(Group(0, [], map[]), steps, g)
    ensures forall t :: t in g.waiting ==> !Satisfied(ItemOf(g.items, t), g.bits)
  {
    RunQuiet(Group(0, [], map[]), steps, g);
  }

  // ---------------------------------------------------------------------------
  // Delivery
  // ---------------------------------------------------------------------------

  /** Exactly the satisfied waiters leave the list, each with the same value; nobody else is touched. */
  lemma SetDelivers(g: Group, added: Bits, t: TaskId)
    requires t in g.waiting
    ensures var bits := Union(g.bits, added);
            var g' := SetBits(g, added);
            && (t in g'.waiting <==> !Satisfied(ItemOf(g.items, t), bits))
            && ItemOf(g'.items, t) == if Satisfied(ItemOf(g.items, t), bits) then Delivered(bits) else ItemOf(g.items, t)
  {
    hide Satisfied, Union, Cleared, Delivered;
  }

  /** A woken task returns the value that satisfied it, and the group is left alone. */
  lemma WokenReturns(g: Group, added: Bits, t: TaskId, wanted: Bits, clear: bool, all: bool)
    requires NoControl(g.bits) && NoControl(added) && t in g.waiting
    requires Satisfied(ItemOf(g.items, t), Union(g.bits, added))
    ensures Finish(SetBits(g, added), t, wanted, clear, all) == (SetBits(g, added), Union(g.bits, added))
  {
    hide Satisfied, Union, Cleared, Delivered, NoControl, Meets, Wanted, Awoken, Remaining, ClearMask;
    SetDelivers(g, added, t);
    BitsNoControl(g.bits, added);
    DeliveredValue(Union(g.bits, added));
  }

  // ---------------------------------------------------------------------------
  // Bit by bit
  // ---------------------------------------------------------------------------

  predicate Single(b: Bits) {
    b != 0 && b & (b - 1) == 0
  }

  /** Bit b is set. */
  predicate Has(bits: Bits, b: Bits) {
    bits & b != 0
  }

  lemma SingleIn(x: Bits, b: Bits)
    requires Single(b)
    ensures x & b == 0 || x & b == b
  {
  }

  lemma ClearedBit(a: Bits, mask: Bits, b: Bits)
    requires Single(b)
    ensures Has(Cleared(a, mask), b) <==> Has(a, b) && !Has(mask, b)
  {
    SingleIn(a, b);
    SingleIn(mask, b);
    assert (a & !mask) & b == (a & b) & !(mask & b);
  }

  lemma UnionBit(x: Bits, y: Bits, b: Bits)
    ensures Has(Union(x, y), b) <==> Has(x, b) || Has(y, b)
  {
    hide Union, Meets, Has;
    UnionMeets(x, y, b);
    HasIs(x, b);
    HasIs(y, b);
    HasIs(Union(x, y), b);
  }

  lemma HasIs(a: Bits, b: Bits)
    ensures Has(a, b) == Meets(a, b)
  {
  }

  /** The lowest bit that is set. */
  function Lowest(x: Bits): (b: Bits)
    requires x != 0
    ensures Single(b) && x & b == b
  {
    x & (0 - x)
  }

  predicate Met(bits: Bits, wanted: Bits, all: bool) {
    if all then bits & wanted == wanted else bits & wanted != 0
  }

  /** A condition for all bits holds when every one of them is set, and one for any when some one is. */
  lemma ConditionBits(wanted: Bits, clear: bool, all: bool, bits: Bits)
    requires NoControl(wanted)
    ensures Satisfied(Encode(wanted, clear, all), bits) <==> Met(bits, wanted, all)
    ensures Met(bits, wanted, all) <==>
            if all then forall b :: Single(b) && Has(wanted, b) ==> Has(bits, b)
            else exists b :: Single(b) && Has(wanted, b) && Has(bits, b)
  {
    hide Encode, Single, Has, Met;
    SatisfiedMet(wanted, clear, all, bits);
    if all {
      AllBits(wanted, bits);
    } else {
      AnyBit(wanted, bits);
    }
  }

  lemma SatisfiedMet(wanted: Bits, clear: bool, all: bool, bits: Bits)
    requires NoControl(wanted)
    ensures Satisfied(Encode(wanted, clear, all), bits) <==> Met(bits, wanted, all)
  {
    hide Encode;
    EncodeMeans(wanted, clear, all);
  }

  lemma AllBits(wanted: Bits, bits: Bits)
    ensures Met(bits, wanted, true) <==> forall b :: Single(b) && Has(wanted, b) ==> Has(bits, b)
  {
    hide Single, Has, Met;
    if !Met(bits, wanted, true) {
      var b := MissingBit(wanted, bits);
    } else {
      forall b | Single(b) && Has(wanted, b)
        ensures Has(bits, b)
      {
        CoveredBit(wanted, bits, b);
      }
    }
  }

  lemma MissingBit(wanted: Bits, bits: Bits) returns (b: Bits)
    requires !Met(bits, wanted, true)
    ensures Single(b) && Has(wanted, b) && !Has(bits, b)
  {
    hide Single, Has;
    LeftOver(wanted, bits);
    b := Lowest(wanted & !bits);
    OutOf(wanted, bits, b);
  }

  lemma LeftOver(wanted: Bits, bits: Bits)
    requires bits & wanted != wanted
    ensures wanted & !bits != 0
  {
  }

  lemma OutOf(wanted: Bits, bits: Bits, b: Bits)
    requires Single(b) && (wanted & !bits) & b == b
    ensures Has(wanted, b) && !Has(bits, b)
  {
  }

  lemma CoveredBit(wanted: Bits, bits: Bits, b: Bits)
    requires Met(bits, wanted, true) && Has(wanted, b)
    ensures Has(bits, b)
  {
    assert (bits & wanted) & b == (bits & b) & wanted;
  }

  lemma AnyBit(wanted: Bits, bits: Bits)
    ensures Met(bits, wanted, false) <==> exists b :: Single(b) && Has(wanted, b) && Has(bits, b)
  {
    hide Single, Has, Met;
    if Met(bits, wanted, false) {
      var b := SharedBit(wanted, bits);
    } else {
      forall b | Single(b) && Has(wanted, b) && Has(bits, b)
        ensures false
      {
        Shared(wanted, bits, b);
      }
    }
  }

  lemma SharedBit(wanted: Bits, bits: Bits) returns (b: Bits)
    requires Met(bits, wanted, false)
    ensures Single(b) && Has(wanted, b) && Has(bits, b)
  {
    hide Single, Has;
    b := Lowest(bits & wanted);
    InBoth(wanted, bits, b);
  }

  lemma InBoth(wanted: Bits, bits: Bits, b: Bits)
    requires Single(b) && (bits & wanted) & b == b
    ensures Has(wanted, b) && Has(bits, b)
  {
  }

  lemma Shared(wanted: Bits, bits: Bits, b: Bits)
    requires Single(b) && Has(wanted, b) && Has(bits, b)
    ensures Met(bits, wanted, false)
  {
    SingleIn(wanted, b);
    SingleIn(bits, b);
    assert (bits & wanted) & b == (bits & b) & (wanted & b);
  }

  /** After a broadcast a bit is set exactly when it was or was added, and no waiter that was woken and clears on exit wanted it. */
  lemma SetLeaves(g: Group, added: Bits, b: Bits)
    requires Single(b)
    ensures Has(SetBits(g, added).bits, b) <==>
            (Has(g.bits, b) || Has(added, b))
            && !exists t :: t in g.waiting && Satisfied(ItemOf(g.items, t), Union(g.bits, added)) && ClearsOnExit(ItemOf(g.items, t))
                            && Has(Wanted(ItemOf(g.items, t)), b)
  {
    hide Single, Has, Meets, Cleared, Union, ClearMask, Satisfied, ClearsOnExit, Wanted, SetBits, ItemOf;
    var bits := Union(g.bits, added);
    SetBitsValue(g, added);
    ClearMaskExact(g.waiting, g.items, bits, b);
    ClearedBit(bits, ClearMask(g.waiting, g.items, bits), b);
    UnionBit(g.bits, added, b);
    HasIs(ClearMask(g.waiting, g.items, bits), b);
    forall t {
      HasIs(Wanted(ItemOf(g.items, t)), b);
    }
  }

  /** After clearing a bit is set exactly when it was and is not in the mask; nobody is woken. */
  lemma ClearLeaves(g: Group, clear: Bits, b: Bits)
    requires Single(b)
    ensures Has(ClearBits(g, clear).bits, b) <==> Has(g.bits, b) && !Has(clear, b)
    ensures ClearBits(g, clear).waiting == g.waiting && ClearBits(g, clear).items == g.items
  {
    hide Single, Has, Cleared;
    ClearedBit(g.bits, clear, b);
  }

  lemma MetIs(bits: Bits, wanted: Bits, all: bool)
    ensures Met(bits, wanted, all) == TestWaitCondition(bits, wanted, all)
  {
  }

  /**
   A wait returns the bits at once when they meet the condition or it may not wait, and otherwise blocks; bits are
   cleared only when the condition was met, and then exactly those wanted.
   */
  lemma WaitLeaves(g: Group, t: TaskId, wanted: Bits, clear: bool, all: bool, mayWait: bool, b: Bits)
    requires Single(b)
    ensures var (g', outcome) := WaitBits(g, t, wanted, clear, all, mayWait);
            && outcome == (if Met(g.bits, wanted, all) || !mayWait then Returned(g.bits) else Blocked)
            && (Has(g'.bits, b) <==> Has(g.bits, b) && !(Met(g.bits, wanted, all) && clear && Has(wanted, b)))
            && g'.waiting == if outcome.Blocked? then g.waiting + [t] else g.waiting
  {
    hide Single, Has, Encode, Cleared, Met, TestWaitCondition;
    MetIs(g.bits, wanted, all);
    ClearedBit(g.bits, wanted, b);
  }

  /** A sync returns the union when it covers the mask, and clears the mask then; otherwise what the broadcast left, or blocks. */
  lemma SyncLeaves(g: Group, t: TaskId, added: Bits, wanted: Bits, mayWait: bool, b: Bits)
    requires Single(b)
    ensures var (g', outcome) := Sync(g, t, added, wanted, mayWait);
            var met := Met(Union(g.bits, added), wanted, true);
            && outcome == (if met then Returned(Union(g.bits, added)) else if mayWait then Blocked else Returned(SetBits(g, added).bits))
            && (Has(g'.bits, b) <==> Has(SetBits(g, added).bits, b) && !(met && Has(wanted, b)))
            && g'.waiting == if outcome.Blocked? then SetBits(g, added).waiting + [t] else SetBits(g, added).waiting
  {
    hide Single, Has, Encode, Cleared, SetBits, Union, Met, TestWaitCondition;
    MetIs(Union(g.bits, added), wanted, true);
    ClearedBit(SetBits(g, added).bits, wanted, b);
  }

  /** A task whose wait has expired returns the bits as they are, and clears those it wanted if they meet its condition after all. */
  lemma ExpiredLeaves(g: Group, t: TaskId, wanted: Bits, clear: bool, all: bool, b: Bits)
    requires Single(b) && NoControl(g.bits) && !Has(ItemOf(g.items, t), UNBLOCKED)
    ensures var (g', value) := Finish(g, t, wanted, clear, all);
            && value == g.bits && g'.waiting == g.waiting && g'.items == g.items
            && (Has(g'.bits, b) <==> Has(g.bits, b) && !(Met(g.bits, wanted, all) && clear && Has(wanted, b)))
  {
    hide Single, Has, Meets, Cleared, Met, TestWaitCondition, NoControl, Wanted, ItemOf;
    HasIs(ItemOf(g.items, t), UNBLOCKED);
    MetIs(g.bits, wanted, all);
    ClearedBit(g.bits, wanted, b);
    NothingMasked(g.bits);
  }

  lemma NothingMasked(bits: Bits)
    requires NoControl(bits)
    ensures Wanted(bits) == bits
  {
  }

  // ---------------------------------------------------------------------------
  // Rendezvous
  // ---------------------------------------------------------------------------

  /** What a task that syncs on a mask waits for. */
  predicate Covers(bits: Bits, wanted: Bits) {
    TestWaitCondition(bits, wanted, true)
  }

  lemma SatisfiedBySync(wanted: Bits, bits: Bits)
    requires NoControl(wanted)
    ensures Satisfied(Encode(wanted, true, true), bits) <==> Covers(bits, wanted)
    ensures ClearsOnExit(Encode(wanted, true, true)) && Wanted(Encode(wanted, true, true)) == wanted
  {
    EncodeMeans(wanted, true, true);
  }

  /** Blocked in xEventGroupSync on the mask. */
  ghost predicate Queued(g: Group, t: TaskId, wanted: Bits) {
    t in g.waiting && ItemOf(g.items, t) == Encode(wanted, true, true)
  }

  /** Woken with a value, and not yet running again. */
  ghost predicate Released(g: Group, t: TaskId, value: Bits) {
    t !in g.waiting && ItemOf(g.items, t) == Delivered(value)
  }

  /** The whole mask of a woken task that clears on exit is cleared. */
  lemma {:induction false} MaskIncludes(q: seq<TaskId>, items: map<TaskId, Bits>, bits: Bits, t: TaskId)
    requires t in q && Satisfied(ItemOf(items, t), bits) && ClearsOnExit(ItemOf(items, t))
    ensures Within(Wanted(ItemOf(items, t)), ClearMask(q, items, bits))
  {
    hide Satisfied, ClearsOnExit, Wanted, Within, Union, ItemOf;
    var n := |q| - 1;
    var last := if Satisfied(ItemOf(items, q[n]), bits) && ClearsOnExit(ItemOf(items, q[n])) then Wanted(ItemOf(items, q[n])) else 0;
    assert q == q[..n] + [q[n]];
    WithinUnion(Wanted(ItemOf(items, t)), ClearMask(q[..n], items, bits), last);
    if t != q[n] {
      MaskIncludes(q[..n], items, bits, t);
    } else {
      WithinSelf(last);
    }
  }

  lemma WithinUnion(a: Bits, x: Bits, y: Bits)
    ensures Within(a, x) || Within(a, y) ==> Within(a, Union(x, y))
  {
    AndOr(a, x, y);
    if Within(a, x) {
      Absorbs(a, y);
    }
    if Within(a, y) {
      Absorbs(a, x);
    }
  }

  lemma AndOr(a: Bits, x: Bits, y: Bits)
    ensures a & (x | y) == (a & x) | (a & y)
  {
  }

  lemma Absorbs(a: Bits, x: Bits)
    ensures a | (a & x) == a && (a & x) | a == a
  {
  }

  lemma UnionWithin(x: Bits, y: Bits, b: Bits)
    requires Within(x, b) && Within(y, b)
    ensures Within(Union(x, y), b)
  {
    OrAnd(x, y, b);
  }

  lemma OrAnd(x: Bits, y: Bits, b: Bits)
    ensures (x | y) & b == (x & b) | (y & b)
  {
  }

  lemma WithinSelf(a: Bits)
    ensures Within(a, a)
  {
  }

  lemma ClearedOut(value: Bits, mask: Bits, wanted: Bits)
    requires Within(wanted, mask)
    ensures !Meets(Cleared(value, mask), wanted)
  {
    assert wanted == wanted & mask;
    assert (value & !mask) & (wanted & mask) == 0;
  }

  lemma StaysCleared(bits: Bits, mask: Bits, wanted: Bits)
    ensures !Meets(bits, wanted) ==> !Meets(Cleared(bits, mask), wanted)
    ensures !Meets(Cleared(bits, wanted), wanted)
  {
    assert (bits & !mask) & wanted == (bits & wanted) & !mask;
    assert (bits & !wanted) & wanted == 0;
  }

  /**
   Setting bits, whoever else waits: a task blocked on a mask is released with the union of the bits, and its whole
   mask is cleared, if the union covers the mask; otherwise it stays as it is.
   */
  lemma SetReleases(g: Group, added: Bits, t: TaskId, wanted: Bits)
    requires NoControl(wanted) && Queued(g, t, wanted)
    ensures var value := Union(g.bits, added);
            if Covers(value, wanted) then Released(SetBits(g, added), t, value) && !Meets(SetBits(g, added).bits, wanted)
            else Queued(SetBits(g, added), t, wanted)
  {
    hide Satisfied, Covers, NoControl, Encode, Union, Cleared, Delivered, SetBits, Wanted, ClearsOnExit, ItemOf, Meets, Within;
    var value := Union(g.bits, added);
    SatisfiedBySync(wanted, value);
    SetDelivers(g, added, t);
    if Covers(value, wanted) {
      SetBitsValue(g, added);
      MaskIncludes(g.waiting, g.items, value, t);
      ClearedOut(value, ClearMask(g.waiting, g.items, value), wanted);
    }
  }

  /** The bits a step holds against the conditions of the waiters. */
  function Offered(g: Group, s: Step): Bits {
    match s
    case Setting(added) => Union(g.bits, added)
    case Syncing(_, added, _, _) => Union(g.bits, added)
    case _ => g.bits
  }

  function Added(s: Step): Bits {
    match s case Setting(added) => added case Syncing(_, added, _, _) => added case _ => 0
  }

  /** A step of task t's own, or the expiry of its wait. */
  predicate ActsOn(s: Step, t: TaskId) {
    match s
    case AwaitingBits(u, _, _, _, _) => u == t
    case Syncing(u, _, _, _) => u == t
    case Finishing(u, _, _, _) => u == t
    case Expiring(u) => u == t
    case _ => false
  }

  lemma SyncReleases(g: Group, u: TaskId, added: Bits, mask: Bits, mayWait: bool, t: TaskId, wanted: Bits)
    requires NoControl(wanted) && Queued(g, t, wanted) && u != t
    ensures var value, g' := Union(g.bits, added), Sync(g, u, added, mask, mayWait).0;
            if Covers(value, wanted) then Released(g', t, value) && !Meets(g'.bits, wanted) else Queued(g', t, wanted)
  {
    hide TestWaitCondition, NoControl, Encode, Union, Cleared, Delivered, SetBits, Meets, Covers;
    SetReleases(g, added, t, wanted);
    StaysCleared(SetBits(g, added).bits, mask, wanted);
  }

  /** Every step of anybody else, in any group: the first that offers a covering value releases the task with it. */
  lemma StepReleases(g: Group, s: Step, t: TaskId, wanted: Bits)
    requires Quiet(g) && Proper(g, s) && NoControl(wanted) && Queued(g, t, wanted) && !ActsOn(s, t)
    ensures var value := Offered(g, s);
            if Covers(value, wanted) then Released(Do(g, s), t, value) && !Meets(Do(g, s).bits, wanted)
            else Queued(Do(g, s), t, wanted)
  {
    hide TestWaitCondition, NoControl, Encode, Union, Cleared, Delivered, SetBits, Sync, Meets, Covers, Satisfied;
    SatisfiedBySync(wanted, g.bits);
    match s
    case Setting(added) => SetReleases(g, added, t, wanted);
    case Syncing(u, added, mask, mayWait) => SyncReleases(g, u, added, mask, mayWait, t, wanted);
    case _ =>
  }

  lemma SetHolds(g: Group, added: Bits, t: TaskId)
    requires t !in g.waiting
    ensures t !in SetBits(g, added).waiting && ItemOf(SetBits(g, added).items, t) == ItemOf(g.items, t)
  {
    hide Satisfied, Union, Cleared, Delivered, ClearMask;
  }

  /** What a released task has been given stays with it until it runs again. */
  lemma StepHolds(g: Group, s: Step, t: TaskId, value: Bits)
    requires Released(g, t, value) && !ActsOn(s, t)
    ensures Released(Do(g, s), t, value)
  {
    hide TestWaitCondition, Encode, Union, Cleared, Delivered, SetBits, Meets;
    match s
    case Setting(added) => SetHolds(g, added, t);
    case Syncing(u, added, mask, mayWait) => SetHolds(g, added, t);
    case _ =>
  }

  // ---------------------------------------------------------------------------
  // Rendezvous over runs
  // ---------------------------------------------------------------------------

  datatype Completion = Incomplete | CompletedWith(value: Bits)

  /** The first value offered in a run that covers the mask. */
  function CompletionOf(g: Group, steps: seq<Step>, wanted: Bits): Completion
    decreases |steps|
  {
    if steps == [] then Incomplete
    else if Covers(Offered(g, steps[0]), wanted) then CompletedWith(Offered(g, steps[0]))
    else CompletionOf(Do(g, steps[0]), steps[1..], wanted)
  }

  /** The step that offers it leaves no bit of the mask set. */
  ghost predicate LeavesCleared(g: Group, steps: seq<Step>, wanted: Bits)
    decreases |steps|
  {
    steps != [] &&
    if Covers(Offered(g, steps[0]), wanted) then !Meets(Do(g, steps[0]).bits, wanted)
    else LeavesCleared(Do(g, steps[0]), steps[1..], wanted)
  }

  ghost predicate LeavesAlone(steps: seq<Step>, t: TaskId) {
    forall s :: s in steps ==> !ActsOn(s, t)
  }

  lemma {:induction false} RunHolds(g: Group, steps: seq<Step>, g': Group, t: TaskId, value: Bits)
    requires Runs(g, steps, g') && Released(g, t, value) && LeavesAlone(steps, t)
    ensures Released(g', t, value)
    decreases |steps|
  {
    hide Proper, Do, ActsOn, Released;
    if steps != [] {
      StepHolds(g, steps[0], t, value);
      RunHolds(Do(g, steps[0]), steps[1..], g', t, value);
    }
  }

  /** A task blocked on a mask waits through any run until the mask is covered, and no longer. */
  lemma {:induction false} RunReleases(g: Group, steps: seq<Step>, g': Group, t: TaskId, wanted: Bits)
    requires Quiet(g) && Runs(g, steps, g') && NoControl(wanted) && Queued(g, t, wanted) && LeavesAlone(steps, t)
    ensures match CompletionOf(g, steps, wanted)
            case Incomplete => Queued(g', t, wanted)
            case CompletedWith(value) => Released(g', t, value) && LeavesCleared(g, steps, wanted)
    decreases |steps|
  {
    hide Proper, Do, ActsOn, Released, Queued, Quiet, NoControl, Covers, Offered, Meets;
    if steps != [] {
      StepReleases(g, steps[0], t, wanted);
      StepQuiet(g, steps[0]);
      if Covers(Offered(g, steps[0]), wanted) {
        RunHolds(Do(g, steps[0]), steps[1..], g', t, Offered(g, steps[0]));
      } else {
        RunReleases(Do(g, steps[0]), steps[1..], g', t, wanted);
      }
    }
  }

  /** What a call of xEventGroupSync returns, at once or, by the time the run has come to g', once its task runs again. */
  ghost predicate Returns(g: Group, t: TaskId, added: Bits, wanted: Bits, g': Group, value: Bits) {
    match Sync(g, t, added, wanted, true).1
    case Returned(v) => v == value
    case Blocked => t !in g'.waiting && Finish(g', t, wanted, true, true) == (g', value)
  }

  lemma ReleasedReturns(g: Group, t: TaskId, wanted: Bits, value: Bits)
    requires Released(g, t, value) && NoControl(value)
    ensures t !in g.waiting && Finish(g, t, wanted, true, true) == (g, value)
  {
    hide Delivered, Meets, Wanted, NoControl, TestWaitCondition, Cleared;
    DeliveredValue(value);
  }

  lemma {:induction false} CompletionNoControl(g: Group, steps: seq<Step>, g': Group, wanted: Bits)
    requires Quiet(g) && Runs(g, steps, g')
    ensures CompletionOf(g, steps, wanted).CompletedWith? ==>
              NoControl(CompletionOf(g, steps, wanted).value) && Covers(CompletionOf(g, steps, wanted).value, wanted)
    decreases |steps|
  {
    hide Do, Quiet, NoControl, Covers, Union;
    if steps != [] {
      QuietNoControl(g);
      OfferedNoControl(g, steps[0]);
      StepQuiet(g, steps[0]);
      CompletionNoControl(Do(g, steps[0]), steps[1..], g', wanted);
    }
  }

  lemma OfferedNoControl(g: Group, s: Step)
    requires NoControl(g.bits) && Proper(g, s)
    ensures NoControl(Offered(g, s))
  {
    hide NoControl, Union;
    match s
    case Setting(added) => BitsNoControl(g.bits, added);
    case Syncing(_, added, _, _) => BitsNoControl(g.bits, added);
    case _ =>
  }

  /** A call of xEventGroupSync itself. */
  lemma CallBlocks(g: Group, t: TaskId, added: Bits, wanted: Bits)
    requires NoControl(wanted)
    ensures var (g', outcome) := Sync(g, t, added, wanted, true);
            var value := Union(g.bits, added);
            if Covers(value, wanted) then outcome == Returned(value) && !Meets(g'.bits, wanted)
            else outcome == Blocked && Queued(g', t, wanted)
  {
    hide Encode, Union, Cleared, SetBits, NoControl, Meets;
    StaysCleared(SetBits(g, added).bits, 0, wanted);
  }

  /**
   One caller, in any run of anybody else's calls: it returns the first value offered, from its own call on, that covers
   its mask, with the mask left cleared, and blocks exactly as long as there is none.
   */
  lemma SyncReturns(g: Group, t: TaskId, added: Bits, wanted: Bits, steps: seq<Step>, g': Group)
    requires Quiet(g) && Proper(g, Syncing(t, added, wanted, true))
    requires Runs(Do(g, Syncing(t, added, wanted, true)), steps, g') && LeavesAlone(steps, t)
    ensures var run := [Syncing(t, added, wanted, true)] + steps;
            match CompletionOf(g, run, wanted)
            case Incomplete => Sync(g, t, added, wanted, true).1 == Blocked && Queued(g', t, wanted)
            case CompletedWith(value) =>
              Covers(value, wanted) && LeavesCleared(g, run, wanted) && Returns(g, t, added, wanted, g', value)
  {
    hide Sync, Quiet, NoControl, Covers, Union, Meets, Queued, Released, ActsOn, Finish;
    var call := Syncing(t, added, wanted, true);
    var run := [call] + steps;
    assert run[0] == call && run[1..] == steps;
    CallBlocks(g, t, added, wanted);
    if !Covers(Union(g.bits, added), wanted) {
      StepQuiet(g, call);
      RunReleases(Do(g, call), steps, g', t, wanted);
      CompletionNoControl(Do(g, call), steps, g', wanted);
      if CompletionOf(Do(g, call), steps, wanted).CompletedWith? {
        ReleasedReturns(g', t, wanted, CompletionOf(Do(g, call), steps, wanted).value);
      }
    }
  }

  /** The group after the first n steps. */
  function StateAt(g: Group, steps: seq<Step>, n: nat): Group
    requires n <= |steps|
    decreases n
  {
    if n == 0 then g else StateAt(Do(g, steps[0]), steps[1..], n - 1)
  }

  /** Where no step before the n-th covers the mask, the run completes as what is left of it does. */
  lemma {:induction false} SkipIncomplete(g: Group, steps: seq<Step>, g': Group, n: nat, wanted: Bits)
    requires Quiet(g) && Runs(g, steps, g') && n <= |steps|
    requires CompletionOf(g, steps[..n], wanted) == Incomplete
    ensures Quiet(StateAt(g, steps, n)) && Runs(StateAt(g, steps, n), steps[n..], g')
    ensures CompletionOf(g, steps, wanted) == CompletionOf(StateAt(g, steps, n), steps[n..], wanted)
    ensures LeavesCleared(g, steps, wanted) <==> LeavesCleared(StateAt(g, steps, n), steps[n..], wanted)
    decreases n
  {
    hide Quiet, Proper, Do, Covers, Offered, Meets;
    if n == 0 {
      assert steps[0..] == steps;
    } else {
      StepQuiet(g, steps[0]);
      assert steps[..n][0] == steps[0] && steps[..n][1..] == steps[1..][..n - 1];
      assert steps[1..][n - 1..] == steps[n..];
      SkipIncomplete(Do(g, steps[0]), steps[1..], g', n - 1, wanted);
    }
  }

  lemma {:induction false} IncompleteBefore(g: Group, steps: seq<Step>, n: nat, m: nat, wanted: Bits)
    requires n <= m <= |steps| && CompletionOf(g, steps[..m], wanted) == Incomplete
    ensures CompletionOf(g, steps[..n], wanted) == Incomplete
    decreases n
  {
    hide Do, Covers, Offered;
    if n > 0 {
      assert steps[..m][1..] == steps[1..][..m - 1] && steps[..n][1..] == steps[1..][..n - 1];
      IncompleteBefore(Do(g, steps[0]), steps[1..], n - 1, m - 1, wanted);
    }
  }

  /** The i-th step is t's call on the mask, after which it only waits. */
  ghost predicate CallsAt(steps: seq<Step>, t: TaskId, i: nat, wanted: Bits) {
    && i < |steps| && steps[i].Syncing? && steps[i].t == t && steps[i].wanted == wanted && steps[i].mayWait
    && LeavesAlone(steps[i + 1..], t)
  }

  /**
   Rendezvous: any number of tasks sync on one mask in the course of a run, with other waiters, setters and clearers in
   between and whoever completes the mask.  If nothing covers the mask before the last of them calls, then they all
   block until something does, and then all return that same value, with the mask set in it and left cleared.
   */
  lemma Rendezvous(g: Group, steps: seq<Step>, g': Group, party: map<TaskId, nat>, wanted: Bits, last: nat)
    requires Quiet(g) && Runs(g, steps, g') && party != map[] && last < |steps|
    requires forall t :: t in party ==> party[t] <= last && CallsAt(steps, t, party[t], wanted)
    requires CompletionOf(g, steps[..last], wanted) == Incomplete
    ensures match CompletionOf(g, steps, wanted)
            case Incomplete => forall t :: t in party ==> Queued(g', t, wanted)
            case CompletedWith(value) =>
              && Covers(value, wanted) && LeavesCleared(g, steps, wanted)
              && forall t :: t in party ==> Returns(StateAt(g, steps, party[t]), t, Added(steps[party[t]]), wanted, g', value)
  {
    hide Quiet, Runs, Covers, LeavesCleared, Returns, Queued, CompletionOf, StateAt;
    forall t | t in party
      ensures match CompletionOf(g, steps, wanted)
              case Incomplete => Queued(g', t, wanted)
              case CompletedWith(value) =>
                && Covers(value, wanted) && LeavesCleared(g, steps, wanted)
                && Returns(StateAt(g, steps, party[t]), t, Added(steps[party[t]]), wanted, g', value)
    {
      OneOfParty(g, steps, g', t, party[t], wanted, last);
    }
    var t :| t in party;
  }

  lemma OneOfParty(g: Group, steps: seq<Step>, g': Group, t: TaskId, i: nat, wanted: Bits, last: nat)
    requires Quiet(g) && Runs(g, steps, g') && i <= last < |steps| && CallsAt(steps, t, i, wanted)
    requires CompletionOf(g, steps[..last], wanted) == Incomplete
    ensures match CompletionOf(g, steps, wanted)
            case Incomplete => Queued(g', t, wanted)
            case CompletedWith(value) =>
              && Covers(value, wanted) && LeavesCleared(g, steps, wanted)
              && Returns(StateAt(g, steps, i), t, Added(steps[i]), wanted, g', value)
  {
    hide Quiet, Covers, LeavesCleared, Returns, Queued, CompletionOf, StateAt, Do, Proper, LeavesAlone;
    IncompleteBefore(g, steps, i, last, wanted);
    SkipIncomplete(g, steps, g', i, wanted);
    var gi, call := StateAt(g, steps, i), steps[i];
    assert steps[i..] == [call] + steps[i + 1..];
    assert call == Syncing(t, call.added, wanted, true);
    assert Proper(gi, call) && Runs(Do(gi, call), steps[i + 1..], g') by {
      assert steps[i..][0] == call && steps[i..][1..] == steps[i + 1..];
    }
    SyncReturns(gi, t, call.added, wanted, steps[i + 1..], g');
  }

  // ---------------------------------------------------------------------------
  // That a rendezvous completes
  // ---------------------------------------------------------------------------

  /** All bits that the steps of a run set. */
  function Contributed(steps: seq<Step>): Bits {
    if steps == [] then 0 else Union(Added(steps[0]), Contributed(steps[1..]))
  }

  /** Until the mask is covered no step takes a bit of it away. */
  ghost predicate KeepsMask(g: Group, steps: seq<Step>, wanted: Bits)
    decreases |steps|
  {
    steps == [] || Covers(Offered(g, steps[0]), wanted) ||
    (Within(Common(Offered(g, steps[0]), wanted), Do(g, steps[0]).bits) && KeepsMask(Do(g, steps[0]), steps[1..], wanted))
  }

  lemma OfferedIs(g: Group, s: Step)
    ensures Offered(g, s) == Union(g.bits, Added(s))
  {
    hide Union;
    UnionZero(g.bits);
  }

  lemma CoversMore(bits: Bits, added: Bits, rest: Bits, bits': Bits, wanted: Bits)
    requires Covers(Union(bits, Union(added, rest)), wanted) && Within(Common(Union(bits, added), wanted), bits')
    ensures Covers(Union(bits', rest), wanted)
  {
    hide Union, Within, Covers, Common;
    var c, r := Common(Union(bits, added), wanted), Common(rest, wanted);
    CoversIff(bits, added, rest, wanted);
    CommonWithin(rest, wanted);
    WithinUnion(c, bits', rest);
    WithinUnion(r, bits', rest);
    UnionWithin(c, r, Union(bits', rest));
    CoversWithin(Union(bits', rest), wanted);
  }

  lemma CoversIff(bits: Bits, added: Bits, rest: Bits, wanted: Bits)
    requires Covers(Union(bits, Union(added, rest)), wanted)
    ensures wanted == Union(Common(Union(bits, added), wanted), Common(rest, wanted))
  {
    OrAssociates(bits, added, rest);
    OrAnd(Union(bits, added), rest, wanted);
  }

  lemma OrAssociates(a: Bits, b: Bits, c: Bits)
    ensures a | (b | c) == (a | b) | c
  {
  }

  lemma CommonWithin(a: Bits, b: Bits)
    ensures Within(Common(a, b), a)
  {
  }

  lemma CoversWithin(bits: Bits, wanted: Bits)
    ensures Covers(bits, wanted) <==> Within(wanted, bits)
  {
    assert bits & wanted == wanted & bits;
  }

  /** Once all bits of the mask have been set, by whomever and in whatever portions, the rendezvous has completed. */
  lemma {:induction false} CompletesOnceSet(g: Group, steps: seq<Step>, wanted: Bits)
    requires steps != [] && KeepsMask(g, steps, wanted) && Covers(Union(g.bits, Contributed(steps)), wanted)
    ensures CompletionOf(g, steps, wanted).CompletedWith?
    decreases |steps|
  {
    hide Covers, Within, Union, Common, Do, Offered, Added;
    OfferedIs(g, steps[0]);
    if !Covers(Offered(g, steps[0]), wanted) {
      var g1 := Do(g, steps[0]);
      CoversMore(g.bits, Added(steps[0]), Contributed(steps[1..]), g1.bits, wanted);
      if steps[1..] == [] {
        UnionZero(Added(steps[0]));
      } else {
        CompletesOnceSet(g1, steps[1..], wanted);
      }
    }
  }

  /** Among themselves the tasks of a rendezvous take no bit away. */
  ghost predicate OnlySyncs(steps: seq<Step>, wanted: Bits) {
    forall s :: s in steps ==> s.Syncing? && s.wanted == wanted && s.mayWait
  }

  lemma {:induction false} NobodySatisfied(q: seq<TaskId>, items: map<TaskId, Bits>, bits: Bits)
    requires forall t :: t in q ==> !Satisfied(ItemOf(items, t), bits)
    ensures ClearMask(q, items, bits) == 0
  {
    hide Satisfied, ClearsOnExit, Wanted, ItemOf, Union;
    if q != [] {
      var n := |q| - 1;
      assert q == q[..n] + [q[n]];
      NobodySatisfied(q[..n], items, bits);
      UnionZero(0);
    }
  }

  lemma SyncKeepsBits(g: Group, t: TaskId, added: Bits, wanted: Bits)
    requires NoControl(wanted) && (forall u :: u in g.waiting ==> Queued(g, u, wanted))
    requires !Covers(Union(g.bits, added), wanted) && t !in g.waiting
    ensures var g' := Sync(g, t, added, wanted, true).0;
            g'.bits == Union(g.bits, added) && forall u :: u in g'.waiting ==> Queued(g', u, wanted)
  {
    hide Satisfied, NoControl, Encode, Union, Cleared, Delivered, SetBits, ItemOf, Covers, ClearMask;
    var value := Union(g.bits, added);
    SatisfiedBySync(wanted, value);
    NobodySatisfied(g.waiting, g.items, value);
    SetBitsValue(g, added);
    ClearedNothing(value);
    forall u | u in g.waiting
      ensures Queued(SetBits(g, added), u, wanted)
    {
      SetReleases(g, added, u, wanted);
    }
    SetNobodyNew(g, added);
    JoinQueues(SetBits(g, added), t, wanted);
    assert !TestWaitCondition(value, wanted, true) by { CoversIs(value, wanted); }
  }

  lemma CoversIs(bits: Bits, wanted: Bits)
    ensures Covers(bits, wanted) == TestWaitCondition(bits, wanted, true)
  {
  }

  lemma SetNobodyNew(g: Group, added: Bits)
    ensures forall u :: u in SetBits(g, added).waiting ==> u in g.waiting
  {
    hide Satisfied, Union, Cleared, Delivered, ClearMask;
  }

  lemma JoinQueues(g: Group, t: TaskId, wanted: Bits)
    requires forall u :: u in g.waiting ==> Queued(g, u, wanted)
    ensures forall u :: u in Join(g, t, Encode(wanted, true, true)).waiting ==> Queued(Join(g, t, Encode(wanted, true, true)), u, wanted)
  {
    hide Encode;
  }

  lemma ClearedNothing(a: Bits)
    ensures Cleared(a, 0) == a
  {
  }

  lemma {:induction false} PartyKeepsMask(g: Group, steps: seq<Step>, g': Group, wanted: Bits)
    requires Runs(g, steps, g') && NoControl(wanted) && OnlySyncs(steps, wanted)
    requires forall u :: u in g.waiting ==> Queued(g, u, wanted)
    ensures KeepsMask(g, steps, wanted)
    decreases |steps|
  {
    hide Covers, Within, Union, Common, NoControl, Sync, Queued;
    if steps != [] {
      var s := steps[0];
      if !Covers(Offered(g, s), wanted) {
        SyncKeepsBits(g, s.t, s.added, wanted);
        CommonWithin(Union(g.bits, s.added), wanted);
        PartyKeepsMask(Do(g, s), steps[1..], g', wanted);
      }
    }
  }

  /** So tasks that are by themselves and between them set the whole mask always meet. */
  lemma PartyMeets(g: Group, steps: seq<Step>, g': Group, wanted: Bits)
    requires steps != [] && Runs(g, steps, g') && NoControl(wanted) && OnlySyncs(steps, wanted)
    requires forall u :: u in g.waiting ==> Queued(g, u, wanted)
    requires Covers(Union(g.bits, Contributed(steps)), wanted)
    ensures CompletionOf(g, steps, wanted).CompletedWith?
  {
    PartyKeepsMask(g, steps, g', wanted);
    CompletesOnceSet(g, steps, wanted);
  }

  // ---------------------------------------------------------------------------
  // The group as it is kept
  // ---------------------------------------------------------------------------

  ghost predicate Distinct(q: seq<TaskId>) {
    forall i, j :: 0 <= i < j < |q| ==> q[i] != q[j]
  }

  class EventGroup {
    var eventBits: Bits
    var tasksWaitingForBits: seq<TaskId>
    var itemValues: map<TaskId, Bits>

    ghost function State(): Group
      reads this
    {
      Group(eventBits, tasksWaitingForBits, itemValues)
    }

    constructor ()
      ensures State() == Group(0, [], map[])
    {
      eventBits, tasksWaitingForBits, itemValues := 0, [], map[];
    }

    /** xTaskRemoveFromUnorderedEventList, for the waiter at position i; the kernel marks the item as in use. */
    method RemoveWaiter(i: nat, value: Bits)
      requires i < |tasksWaitingForBits|
      modifies this`tasksWaitingForBits, this`itemValues
      ensures tasksWaitingForBits == old(tasksWaitingForBits[..i] + tasksWaitingForBits[i + 1..])
      ensures itemValues == old(itemValues[tasksWaitingForBits[i] := Union(value, IN_USE)])
    {
      itemValues := itemValues[tasksWaitingForBits[i] := Union(value, IN_USE)];
      tasksWaitingForBits := tasksWaitingForBits[..i] + tasksWaitingForBits[i + 1..];
    }

    /** The state of the scan once the first n of the waiters in q have been looked at. */
    ghost predicate Scanned(q: seq<TaskId>, items: map<TaskId, Bits>, n: nat, bitsToClear: Bits)
      reads this
    {
      && n <= |q|
      && tasksWaitingForBits == Remaining(q[..n], items, eventBits) + q[n..]
      && itemValues == Deliver(items, Awoken(q[..n], items, eventBits), Delivered(eventBits))
      && bitsToClear == ClearMask(q[..n], items, eventBits)
    }

    /** One turn of the scan: waiters are removed while the list is walked. */
    method ScanOne(i: nat, bitsToClear: Bits, ghost q: seq<TaskId>, ghost items: map<TaskId, Bits>, ghost n: nat)
      returns (next: nat, mask: Bits)
      requires Distinct(q) && n < |q| && i == |Remaining(q[..n], items, eventBits)| && Scanned(q, items, n, bitsToClear)
      modifies this`tasksWaitingForBits, this`itemValues
      ensures Scanned(q, items, n + 1, mask) && next == |Remaining(q[..n + 1], items, eventBits)|
    {
      hide Satisfied, Union, Wanted, ClearsOnExit, Meets, Deliver, Awoken, Remaining, ClearMask, Delivered, ItemOf;
      ghost var t := q[n];
      SnocScan(q, n, items, eventBits);
      assert tasksWaitingForBits[i] == t && q[n..] == [t] + q[n + 1..];
      NotYetDelivered(q, n, items, eventBits, Delivered(eventBits));
      next, mask := i + 1, bitsToClear;
      var item := ItemOf(itemValues, tasksWaitingForBits[i]);
      var matchFound := ConditionMet(item);
      if matchFound {
        if ClearsOnExit(item) {
          mask := Union(mask, Wanted(item));
        }
        DeliveredParts(eventBits);
        DeliverOne(items, Awoken(q[..n], items, eventBits), t, Delivered(eventBits));
        RemoveWaiter(i, Union(eventBits, UNBLOCKED));
        next := i;
      }
      assert tasksWaitingForBits == Remaining(q[..n + 1], items, eventBits) + q[n + 1..];
    }

    /** The two ways of matching an item's bits. */
    method ConditionMet(item: Bits) returns (r: bool)
      ensures r == Satisfied(item, eventBits)
    {
      hide Wanted, Meets, Within, ControlOf, TestWaitCondition;
      r := false;
      var bitsWaitedFor, controlBits := Wanted(item), ControlOf(item);
      ControlBits(item);
      MatchForms(bitsWaitedFor, eventBits);
      if !Meets(controlBits, WAIT_FOR_ALL) {
        if Meets(bitsWaitedFor, eventBits) {
          r := true;
        }
      } else if Within(bitsWaitedFor, eventBits) {
        r := true;
      }
    }

    /** xEventGroupSetBits; each woken task is readied by the kernel as it is removed from the list. */
    method SetBitsInGroup(bitsToSet: Bits)
      requires Distinct(tasksWaitingForBits)
      modifies this
      ensures State() == SetBits(old(State()), bitsToSet)
    {
      hide Remaining, Awoken, ClearMask, Union, Cleared, Delivered, Satisfied, Deliver;
      ghost var q, items := tasksWaitingForBits, itemValues;
      eventBits := Union(eventBits, bitsToSet);
      var i, bitsToClear := 0, 0;
      ghost var n := 0;
      NothingScanned(q, items, eventBits, Delivered(eventBits));
      while i < |tasksWaitingForBits|
        invariant eventBits == Union(old(eventBits), bitsToSet)
        invariant Scanned(q, items, n, bitsToClear) && i == |Remaining(q[..n], items, eventBits)|
        decreases |q| - n
      {
        i, bitsToClear := ScanOne(i, bitsToClear, q, items, n);
        n := n + 1;
      }
      assert n == |q| && q[..n] == q && q[n..] == [];
      assert tasksWaitingForBits == Remaining(q, items, eventBits);
      eventBits := Cleared(eventBits, bitsToClear);
    }

    method ClearBitsInGroup(bitsToClear: Bits) returns (before: Bits)
      modifies this`eventBits
      ensures before == old(eventBits) && State() == ClearBits(old(State()), bitsToClear)
    {
      before := eventBits;
      eventBits := Cleared(eventBits, bitsToClear);
    }

    /** vTaskPlaceOnUnorderedEventList. */
    method PlaceWaiter(t: TaskId, value: Bits)
      modifies this`tasksWaitingForBits, this`itemValues
      ensures State() == Join(old(State()), t, Union(value, IN_USE))
    {
      itemValues := itemValues[t := Union(value, IN_USE)];
      tasksWaitingForBits := tasksWaitingForBits + [t];
    }

    /** The suspended part of xEventGroupWaitBits. */
    method WaitForBits(t: TaskId, wanted: Bits, clear: bool, all: bool, mayWait: bool) returns (outcome: Outcome)
      modifies this
      ensures (State(), outcome) == WaitBits(old(State()), t, wanted, clear, all, mayWait)
    {
      hide TestWaitCondition, Cleared, Union, Encode;
      if TestWaitCondition(eventBits, wanted, all) {
        outcome := Returned(eventBits);
        if clear {
          eventBits := Cleared(eventBits, wanted);
        }
      } else if !mayWait {
        outcome := Returned(eventBits);
      } else {
        var controlBits: Bits := 0;
        if clear {
          controlBits := Union(controlBits, CLEAR_ON_EXIT);
        }
        if all {
          controlBits := Union(controlBits, WAIT_FOR_ALL);
        }
        EncodeParts(wanted, clear, all);
        PlaceWaiter(t, Union(wanted, controlBits));
        outcome := Blocked;
      }
    }

    /** The suspended part of xEventGroupSync. */
    method SyncOnBits(t: TaskId, bitsToSet: Bits, wanted: Bits, mayWait: bool) returns (outcome: Outcome)
      requires Distinct(tasksWaitingForBits)
      modifies this
      ensures (State(), outcome) == Sync(old(State()), t, bitsToSet, wanted, mayWait)
    {
      hide SetBits, TestWaitCondition, Cleared, Union, Encode;
      var originalBits := eventBits;
      SetBitsInGroup(bitsToSet);
      if TestWaitCondition(Union(originalBits, bitsToSet), wanted, true) {
        outcome := Returned(Union(originalBits, bitsToSet));
        eventBits := Cleared(eventBits, wanted);
      } else if mayWait {
        EncodeParts(wanted, true, true);
        PlaceWaiter(t, Union(wanted, Union(Union(0, CLEAR_ON_EXIT), WAIT_FOR_ALL)));
        outcome := Blocked;
      } else {
        outcome := Returned(eventBits);
      }
    }

    /** The part of both calls that runs once a blocked task is running again. */
    method FinishWait(t: TaskId, wanted: Bits, clear: bool, all: bool) returns (result: Bits)
      modifies this`eventBits
      ensures (State(), result) == Finish(old(State()), t, wanted, clear, all)
    {
      hide TestWaitCondition, Cleared, Meets, Wanted;
      result := ItemOf(itemValues, t);
      if !Meets(result, UNBLOCKED) {
        result := eventBits;
        if TestWaitCondition(result, wanted, all) {
          if clear {
            eventBits := Cleared(eventBits, wanted);
          }
        }
      }
      result := Wanted(result);
    }
  }

  /** The scan of one more waiter, on each of the three accounts. */
  lemma SnocScan(q: seq<TaskId>, n: nat, items: map<TaskId, Bits>, bits: Bits)
    requires n < |q|
    ensures var item := ItemOf(items, q[n]);
            var hit := Satisfied(item, bits);
            && Remaining(q[..n + 1], items, bits)
               == (if hit then Remaining(q[..n], items, bits) else Remaining(q[..n], items, bits) + [q[n]])
            && Awoken(q[..n + 1], items, bits)
               == (if hit then Awoken(q[..n], items, bits) + [q[n]] else Awoken(q[..n], items, bits))
            && ClearMask(q[..n + 1], items, bits)
               == if hit && ClearsOnExit(item) then Union(ClearMask(q[..n], items, bits), Wanted(item)) else ClearMask(q[..n], items, bits)
  {
    hide Satisfied, Union, Wanted, ClearsOnExit, ItemOf;
    assert q[..n + 1][..n] == q[..n];
    UnionZero(ClearMask(q[..n], items, bits));
  }

  /** A waiter not yet looked at still has its own item. */
  lemma NotYetDelivered(q: seq<TaskId>, n: nat, items: map<TaskId, Bits>, bits: Bits, value: Bits)
    requires Distinct(q) && n < |q|
    ensures ItemOf(Deliver(items, Awoken(q[..n], items, bits), value), q[n]) == ItemOf(items, q[n])
  {
    hide Satisfied;
    assert q[n] !in q[..n];
  }

  lemma UnionZero(a: Bits)
    ensures Union(a, 0) == a
  {
  }

  lemma DeliveredParts(bits: Bits)
    ensures Union(Union(bits, UNBLOCKED), IN_USE) == Delivered(bits)
  {
  }

  lemma ControlBits(item: Bits)
    ensures Meets(ControlOf(item), WAIT_FOR_ALL) <==> Meets(item, WAIT_FOR_ALL)
  {
    assert item & CONTROL & WAIT_FOR_ALL == item & WAIT_FOR_ALL;
  }

  lemma MatchForms(wanted: Bits, bits: Bits)
    ensures Meets(wanted, bits) <==> TestWaitCondition(bits, wanted, false)
    ensures Within(wanted, bits) <==> TestWaitCondition(bits, wanted, true)
  {
    assert wanted & bits == bits & wanted;
  }

  lemma EncodeParts(wanted: Bits, clear: bool, all: bool)
    ensures var c1 := if clear then Union(0, CLEAR_ON_EXIT) else 0;
            var c2 := if all then Union(c1, WAIT_FOR_ALL) else c1;
            Union(Union(wanted, c2), IN_USE) == Encode(wanted, clear, all)
  {
  }

  lemma DeliverOne(items: map<TaskId, Bits>, woken: seq<TaskId>, t: TaskId, value: Bits)
    ensures Deliver(items, woken, value)[t := value] == Deliver(items, woken + [t], value)
  {
  }

  lemma NothingScanned(q: seq<TaskId>, items: map<TaskId, Bits>, bits: Bits, value: Bits)
    ensures Remaining(q[..0], items, bits) == [] && Awoken(q[..0], items, bits) == [] && ClearMask(q[..0], items, bits) == 0
    ensures Deliver(items, [], value) == items
  {
  }
}
