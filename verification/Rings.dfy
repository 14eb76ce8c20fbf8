/**
 The sequence view of a kernel list: its items in link order from the end marker, and the position of
 the roving index.  The heap-level list in KernelList is proved to behave exactly as the functions here,
 and the scheduler is modelled on top of them.
 */
module Rings {

  /** `at` is 0 while pxIndex rests on the end marker, and i while it rests on items[i - 1]. */
  datatype Ring<T> = Ring(items: seq<T>, at: nat)

  ghost predicate Distinct<T>(s: seq<T>) {
    forall i, j :: 0 <= i < j < |s| ==> s[i] != s[j]
  }

  ghost predicate Valid<T>(r: Ring<T>) {
    r.at <= |r.items| && Distinct(r.items)
  }

  /** The position of x, or the length when it is absent. */
  function IndexOf<T(==)>(s: seq<T>, x: T): (i: nat)
    ensures i <= |s|
    ensures i < |s| ==> s[i] == x
    ensures i < |s| <==> x in s
    ensures forall j :: 0 <= j < i ==> s[j] != x
  {
    if s == [] then 0 else if s[0] == x then 0 else 1 + IndexOf(s[1..], x)
  }

  function InsertAt<T>(s: seq<T>, p: nat, x: T): (r: seq<T>)
    requires p <= |s|
    ensures |r| == |s| + 1 && r[p] == x
    ensures forall i {:trigger r[i]} :: 0 <= i < p ==> r[i] == s[i]
    ensures forall i {:trigger r[i]} :: p < i < |r| ==> r[i] == s[i - 1]
  {
    seq(|s| + 1, i requires 0 <= i <= |s| => if i < p then s[i] else if i == p then x else s[i - 1])
  }

  function DropAt<T>(s: seq<T>, p: nat): (r: seq<T>)
    requires p < |s|
    ensures |r| == |s| - 1
    ensures forall i {:trigger r[i]} :: 0 <= i < p ==> r[i] == s[i]
    ensures forall i {:trigger r[i]} :: p <= i < |r| ==> r[i] == s[i + 1]
  {
    seq(|s| - 1, i requires 0 <= i < |s| - 1 => if i < p then s[i] else s[i + 1])
  }

  lemma InsertMembers<T>(s: seq<T>, p: nat, x: T, y: T)
    requires p <= |s|
    ensures y in InsertAt(s, p, x) <==> y == x || y in s
  {
    assert InsertAt(s, p, x) == s[..p] + [x] + s[p..];
    assert s == s[..p] + s[p..];
  }

  lemma DropMembers<T>(s: seq<T>, p: nat, y: T)
    requires p < |s|
    ensures y in DropAt(s, p) ==> y in s
    ensures y in s && y != s[p] ==> y in DropAt(s, p)
  {
    assert DropAt(s, p) == s[..p] + s[p + 1..];
    assert s == s[..p] + [s[p]] + s[p + 1..];
  }

  lemma InsertDistinct<T>(s: seq<T>, p: nat, x: T)
    requires p <= |s| && Distinct(s) && x !in s
    ensures Distinct(InsertAt(s, p, x))
  {
  }

  lemma DropDistinct<T>(s: seq<T>, p: nat)
    requires p < |s| && Distinct(s)
    ensures Distinct(DropAt(s, p)) && s[p] !in DropAt(s, p)
  {
  }

  /** Insertion at a chosen position; the index keeps resting on the same node. */
  function Insert<T>(r: Ring<T>, p: nat, x: T): Ring<T>
    requires p <= |r.items|
  {
    Ring(InsertAt(r.items, p, x), if r.at > p then r.at + 1 else r.at)
  }

  /** vListInsertEnd: directly behind the index, so that x is returned last. */
  function InsertEnd<T>(r: Ring<T>, x: T): Ring<T>
    requires r.at <= |r.items|
  {
    Insert(r, if r.at == 0 then |r.items| else r.at - 1, x)
  }

  /** uxListRemove: an index resting on the removed node steps back to its predecessor. */
  function Remove<T>(r: Ring<T>, p: nat): Ring<T>
    requires p < |r.items|
  {
    Ring(DropAt(r.items, p), if r.at > p then r.at - 1 else r.at)
  }

  function RemoveItem<T(==)>(r: Ring<T>, x: T): Ring<T>
    requires x in r.items
  {
    Remove(r, IndexOf(r.items, x))
  }

  /** listGET_OWNER_OF_NEXT_ENTRY: step the index to the next node, skipping the end marker. */
  function Next<T>(r: Ring<T>): Ring<T>
    requires r.at <= |r.items| && r.items != []
  {
    r.(at := if r.at == |r.items| then 1 else r.at + 1)
  }

  function Selected<T>(r: Ring<T>): T
    requires 0 < r.at <= |r.items|
  {
    r.items[r.at - 1]
  }

  lemma OperationsKeepValid<T>(r: Ring<T>, p: nat, x: T)
    requires Valid(r)
    ensures p <= |r.items| && x !in r.items ==> Valid(Insert(r, p, x))
    ensures x !in r.items ==> Valid(InsertEnd(r, x))
    ensures p < |r.items| ==> Valid(Remove(r, p)) && r.items[p] !in Remove(r, p).items
    ensures r.items != [] ==> Valid(Next(r))
  {
    if p <= |r.items| && x !in r.items { InsertDistinct(r.items, p, x); }
    if x !in r.items { InsertDistinct(r.items, if r.at == 0 then |r.items| else r.at - 1, x); }
    if p < |r.items| { DropDistinct(r.items, p); }
  }

  // ---------------------------------------------------------------------------
  // Sorted insertion
  // ---------------------------------------------------------------------------

  /** Where the scan of vListInsert stops: the first item whose value exceeds v. */
  function Slot(values: seq<nat>, v: nat): (p: nat)
    ensures p <= |values|
    ensures forall i :: 0 <= i < p ==> values[i] <= v
    ensures p < |values| ==> values[p] > v
  {
    if values == [] || values[0] > v then 0 else 1 + Slot(values[1..], v)
  }

  ghost predicate Sorted(values: seq<nat>) {
    forall i, j :: 0 <= i <= j < |values| ==> values[i] <= values[j]
  }

  lemma SlotUnique(values: seq<nat>, v: nat, p: nat)
    requires p <= |values|
    requires forall i :: 0 <= i < p ==> values[i] <= v
    requires p < |values| ==> values[p] > v
    ensures p == Slot(values, v)
  {
  }

  /** On a sorted list the insertion is sorted and stable: equal values keep their order, the new one last. */
  lemma InsertSortedStable(values: seq<nat>, v: nat)
    requires Sorted(values)
    ensures Sorted(InsertAt(values, Slot(values, v), v))
    ensures forall i :: 0 <= i < |values| ==> (values[i] <= v <==> i < Slot(values, v))
  {
  }

  lemma DropSorted(values: seq<nat>, p: nat)
    requires p < |values| && Sorted(values)
    ensures Sorted(DropAt(values, p))
  {
  }

  // ---------------------------------------------------------------------------
  // Round robin: how long an item waits to be selected
  // ---------------------------------------------------------------------------

  /**
   What happens to a ready list: a selection, a report of the list by uxTaskGetSystemState (which turns the index
   a full round and one step more, but selects nothing), an insertion at the end, a removal.
   */
  datatype Op<T> = Pick | Survey | Arrive(item: T) | Leave(item: T)

  ghost predicate Legal<T>(r: Ring<T>, op: Op<T>) {
    match op
    case Pick => r.items != []
    case Survey => r.items != []
    case Arrive(x) => x !in r.items
    case Leave(x) => x in r.items
  }

  function Apply<T(==)>(r: Ring<T>, op: Op<T>): Ring<T>
    requires Valid(r) && Legal(r, op)
  {
    match op
    case Pick => Next(r)
    case Survey => Next(r)
    case Arrive(x) => InsertEnd(r, x)
    case Leave(x) => RemoveItem(r, x)
  }

  /** The number of selections after which x is returned, if nothing else changes. */
  function Rank<T(==)>(r: Ring<T>, x: T): (k: nat)
    requires r.at <= |r.items| && x in r.items
    ensures 1 <= k <= |r.items|
  {
    var i := IndexOf(r.items, x) + 1;
    if i > r.at then i - r.at else i - r.at + |r.items|
  }

  ghost predicate AtIndex<T>(r: Ring<T>, x: T) {
    0 < r.at <= |r.items| && r.items[r.at - 1] == x
  }

  lemma IndexOfUnique<T>(s: seq<T>, x: T, i: nat)
    requires i < |s| && s[i] == x && Distinct(s)
    ensures IndexOf(s, x) == i
  {
  }

  /** Selection returns the item of rank one and brings every other item one step nearer. */
  lemma SelectRank<T>(r: Ring<T>, x: T)
    requires Valid(r) && x in r.items
    ensures Selected(Next(r)) == x <==> Rank(r, x) == 1
    ensures Rank(Next(r), x) == if Rank(r, x) == 1 then |r.items| else Rank(r, x) - 1
  {
    var i := IndexOf(r.items, x);
    IndexOfUnique(r.items, Selected(Next(r)), Next(r).at - 1);
  }

  /** Insertion leaves every rank alone, save that an item under the index is overtaken. */
  lemma AddRank<T>(r: Ring<T>, x: T, y: T)
    requires Valid(r) && x in r.items && y !in r.items
    ensures x in InsertEnd(r, y).items
    ensures Rank(InsertEnd(r, y), x) == Rank(r, x) + if AtIndex(r, x) then 1 else 0
    ensures AtIndex(InsertEnd(r, y), x) <==> AtIndex(r, x)
  {
    var i := IndexOf(r.items, x);
    var p := if r.at == 0 then |r.items| else r.at - 1;
    var r' := InsertEnd(r, y);
    InsertDistinct(r.items, p, y);
    IndexOfUnique(r'.items, x, if i < p then i else i + 1);
    if AtIndex(r, x) { IndexOfUnique(r.items, x, r.at - 1); }
    if AtIndex(r', x) { IndexOfUnique(r'.items, x, r'.at - 1); }
  }

  /** Removing another item brings x one step nearer exactly when the removed one was ahead of it. */
  lemma DeleteRank<T>(r: Ring<T>, x: T, y: T)
    requires Valid(r) && x in r.items && y in r.items && x != y
    ensures x in RemoveItem(r, y).items
    ensures Rank(RemoveItem(r, y), x) == Rank(r, x) - if Rank(r, y) < Rank(r, x) then 1 else 0
  {
    var i, j := IndexOf(r.items, x), IndexOf(r.items, y);
    var r' := RemoveItem(r, y);
    DropDistinct(r.items, j);
    IndexOfUnique(r'.items, x, if i < j then i else i - 1);
  }

  /** A run of legal operations from r to r'. */
  ghost predicate Runs<T>(r: Ring<T>, run: seq<Op<T>>, r': Ring<T>)
    decreases |run|
  {
    Valid(r) && if run == [] then r' == r else Legal(r, run[0]) && Runs(Apply(r, run[0]), run[1..], r')
  }

  /** An operation that neither removes x nor selects it. */
  ghost predicate Spares<T>(r: Ring<T>, x: T, op: Op<T>) {
    Valid(r) && x in r.items && Legal(r, op) && op != Leave(x) && !(op == Pick && Rank(r, x) == 1)
  }

  lemma SparedStays<T>(r: Ring<T>, x: T, op: Op<T>)
    requires Spares(r, x, op)
    ensures Valid(Apply(r, op)) && x in Apply(r, op).items
  {
    match op {
      case Pick => SelectRank(r, x);
      case Survey => SelectRank(r, x);
      case Arrive(y) => AddRank(r, x, y); OperationsKeepValid(r, 0, y);
      case Leave(y) => DeleteRank(r, x, y); OperationsKeepValid(r, IndexOf(r.items, y), y);
    }
  }

  /** A run of such operations. */
  ghost predicate Waits<T>(r: Ring<T>, x: T, run: seq<Op<T>>)
    decreases |run|
  {
    Valid(r) && x in r.items &&
    (run != [] ==> Spares(r, x, run[0]) && Waits(Apply(r, run[0]), x, run[1..]))
  }

  ghost function After<T>(r: Ring<T>, x: T, run: seq<Op<T>>): (r': Ring<T>)
    requires Waits(r, x, run)
    ensures Valid(r') && x in r'.items && Runs(r, run, r')
    decreases |run|
  {
    if run == [] then r else After(Apply(r, run[0]), x, run[1..])
  }

  ghost function Selections<T>(run: seq<Op<T>>): nat {
    if run == [] then 0 else (if run[0] == Pick then 1 else 0) + Selections(run[1..])
  }

  /** By how much one operation that spares x delays it: an insertion while the index rests on it, a report that passes it over. */
  ghost function SetBack<T>(r: Ring<T>, x: T, op: Op<T>): nat
    requires Spares(r, x, op)
  {
    if op.Arrive? && AtIndex(r, x) then 1
    else if op.Survey? && Rank(r, x) == 1 then |r.items| - 1
    else 0
  }

  /** And by how much it brings x nearer other than by a selection: a removal ahead of x, a report of another. */
  ghost function Gain<T>(r: Ring<T>, x: T, op: Op<T>): nat
    requires Spares(r, x, op)
  {
    if op.Leave? && Rank(r, op.item) < Rank(r, x) then 1
    else if op.Survey? && Rank(r, x) > 1 then 1
    else 0
  }

  ghost function SetBacks<T>(r: Ring<T>, x: T, run: seq<Op<T>>): nat
    requires Waits(r, x, run)
    decreases |run|
  {
    if run == [] then 0 else SetBack(r, x, run[0]) + SetBacks(Apply(r, run[0]), x, run[1..])
  }

  ghost function Gains<T>(r: Ring<T>, x: T, run: seq<Op<T>>): nat
    requires Waits(r, x, run)
    decreases |run|
  {
    if run == [] then 0 else Gain(r, x, run[0]) + Gains(Apply(r, run[0]), x, run[1..])
  }

  lemma StepAccount<T>(r: Ring<T>, x: T, op: Op<T>)
    requires Spares(r, x, op)
    ensures Valid(Apply(r, op)) && x in Apply(r, op).items
    ensures Rank(Apply(r, op), x) + (if op == Pick then 1 else 0) + Gain(r, x, op) == Rank(r, x) + SetBack(r, x, op)
  {
    SparedStays(r, x, op);
    match op {
      case Pick => SelectRank(r, x);
      case Survey => SelectRank(r, x);
      case Arrive(y) => AddRank(r, x, y);
      case Leave(y) => DeleteRank(r, x, y);
    }
  }

  /** The exact account of a wait: rank falls by selections and gains and rises by set-backs. */
  lemma {:induction false} WaitAccount<T>(r: Ring<T>, x: T, run: seq<Op<T>>)
    requires Waits(r, x, run)
    ensures Rank(After(r, x, run), x) + Selections(run) + Gains(r, x, run) == Rank(r, x) + SetBacks(r, x, run)
    decreases |run|
  {
    hide SetBack, Gain, Apply, Rank;
    if run != [] {
      StepAccount(r, x, run[0]);
      WaitAccount(Apply(r, run[0]), x, run[1..]);
    }
  }

  /** Bounded waiting: an item that is k-th is selected within k selections and as many more as it is delayed by. */
  lemma BoundedWaiting<T>(r: Ring<T>, x: T, run: seq<Op<T>>)
    requires Waits(r, x, run)
    ensures Selections(run) < Rank(r, x) + SetBacks(r, x, run)
  {
    WaitAccount(r, x, run);
  }

  /** Removing the item under the index lets the index fall back on x, the one before it. */
  ghost predicate FallsBack<T>(r: Ring<T>, op: Op<T>, x: T) {
    op.Leave? && AtIndex(r, op.item) && 2 <= r.at && r.items[r.at - 2] == x
  }

  /** A report turns the index on by one, past x if x was next. */
  ghost predicate PassesOver<T>(r: Ring<T>, op: Op<T>, x: T) {
    op.Survey? && r.at <= |r.items| && x in r.items && Rank(r, x) == 1
  }

  /** The two ways in which an item loses its place. */
  ghost predicate Displaces<T>(r: Ring<T>, op: Op<T>, x: T) {
    FallsBack(r, op, x) || PassesOver(r, op, x)
  }

  lemma LeavesUnderIndex<T>(r: Ring<T>, x: T, y: T)
    requires Valid(r) && x in r.items && y in r.items && x != y && !AtIndex(r, x)
    ensures AtIndex(RemoveItem(r, y), x) <==> FallsBack(r, Leave(y), x)
  {
    var j := IndexOf(r.items, y);
    var items := DropAt(r.items, j);
    if 2 <= r.at && j == r.at - 1 {
      assert items[r.at - 2] == r.items[r.at - 2];
    } else if 0 < r.at {
      IndexOfUnique(r.items, y, j);
      assert 0 < RemoveItem(r, y).at <= |items| ==> items[RemoveItem(r, y).at - 1] == r.items[r.at - 1] || j == r.at - 1;
    }
  }

  /** A waiting item comes to rest under the index in no other way. */
  lemma ComesUnderIndex<T>(r: Ring<T>, x: T, op: Op<T>)
    requires Spares(r, x, op) && !AtIndex(r, x)
    ensures AtIndex(Apply(r, op), x) <==> Displaces(r, op, x)
  {
    match op {
      case Pick => SelectRank(r, x);
      case Survey => SelectRank(r, x);
      case Arrive(y) => AddRank(r, x, y);
      case Leave(y) => LeavesUnderIndex(r, x, y);
    }
  }

  ghost predicate NeverDisplaced<T>(r: Ring<T>, x: T, run: seq<Op<T>>)
    requires Waits(r, x, run)
    decreases |run|
  {
    run != [] ==> !Displaces(r, run[0], x) && NeverDisplaced(Apply(r, run[0]), x, run[1..])
  }

  lemma {:induction false} NeverDelayed<T>(r: Ring<T>, x: T, run: seq<Op<T>>)
    requires Waits(r, x, run) && !AtIndex(r, x) && NeverDisplaced(r, x, run)
    ensures SetBacks(r, x, run) == 0
    decreases |run|
  {
    if run != [] {
      ComesUnderIndex(r, x, run[0]);
      NeverDelayed(Apply(r, run[0]), x, run[1..]);
    }
  }

  /**
   Bounded waiting: an item that is k-th from the index, and not under it, is selected within k selections
   whatever arrives and leaves meanwhile, as long as nothing displaces it.
   */
  lemma SelectedWithinRank<T>(r: Ring<T>, x: T, run: seq<Op<T>>)
    requires Waits(r, x, run) && !AtIndex(r, x) && NeverDisplaced(r, x, run)
    ensures Selections(run) < Rank(r, x)
  {
    NeverDelayed(r, x, run);
    BoundedWaiting(r, x, run);
  }

  function Picks<T>(n: nat): (run: seq<Op<T>>)
    ensures |run| == n
  {
    if n == 0 then [] else [Pick] + Picks(n - 1)
  }

  lemma {:induction false} PicksWait<T>(r: Ring<T>, x: T, n: nat)
    requires Valid(r) && x in r.items && n < Rank(r, x)
    ensures Waits(r, x, Picks(n)) && Selections(Picks<T>(n)) == n
    decreases n
  {
    if n > 0 {
      SelectRank(r, x);
      PicksWait(Next(r), x, n - 1);
      assert Picks<T>(n)[1..] == Picks<T>(n - 1);
    }
  }

  lemma PicksNeverDisplace<T>(r: Ring<T>, x: T, n: nat)
    requires Waits(r, x, Picks(n))
    ensures NeverDisplaced(r, x, Picks(n))
    decreases n
  {
    if n > 0 {
      assert Picks<T>(n)[1..] == Picks<T>(n - 1);
      PicksNeverDisplace(Next(r), x, n - 1);
    }
  }

  lemma UnderIndexLast<T>(r: Ring<T>, x: T)
    requires Valid(r) && AtIndex(r, x)
    ensures x in r.items && Rank(r, x) == |r.items|
  {
    IndexOfUnique(r.items, x, r.at - 1);
  }

  /** The continuation that makes a displaced item miss its bound: an arrival, and as many selections as the bound allows. */
  function Overtaking<T>(newcomer: T, n: nat): seq<Op<T>> {
    [Arrive(newcomer)] + Picks(n)
  }

  /** An item under the index is overtaken by an arrival, and so passed over by as many selections as there were items. */
  lemma UnderIndexOvertaken<T>(r: Ring<T>, x: T, newcomer: T, n: nat)
    requires Valid(r) && AtIndex(r, x) && newcomer !in r.items && n <= |r.items|
    ensures Waits(r, x, Overtaking(newcomer, n)) && NeverDisplaced(r, x, Overtaking(newcomer, n))
    ensures Selections(Overtaking(newcomer, n)) == n
  {
    UnderIndexLast(r, x);
    AddRank(r, x, newcomer);
    OperationsKeepValid(r, 0, newcomer);
    PicksWait(InsertEnd(r, newcomer), x, n);
    PicksNeverDisplace(InsertEnd(r, newcomer), x, n);
    assert Overtaking(newcomer, n)[1..] == Picks<T>(n);
  }

  /** Wherever an item is displaced, by either way, one arrival makes it miss its bound. */
  lemma DisplacedExceedsRank<T>(r: Ring<T>, x: T, op: Op<T>, newcomer: T)
    requires Spares(r, x, op) && !AtIndex(r, x) && Displaces(r, op, x) && newcomer !in Apply(r, op).items
    ensures var rest := Overtaking(newcomer, Rank(r, x));
            && Waits(r, x, [op] + rest) && NeverDisplaced(Apply(r, op), x, rest)
            && Selections([op] + rest) == Rank(r, x)
  {
    var k := Rank(r, x);
    var rest := Overtaking(newcomer, k);
    var r' := Apply(r, op);
    SparedStays(r, x, op);
    ComesUnderIndex(r, x, op);
    DisplacedRank(r, x, op);
    UnderIndexOvertaken(r', x, newcomer, k);
    assert ([op] + rest)[1..] == rest;
  }

  lemma DisplacedRank<T>(r: Ring<T>, x: T, op: Op<T>)
    requires Spares(r, x, op) && !AtIndex(r, x) && Displaces(r, op, x)
    ensures Rank(r, x) <= |Apply(r, op).items|
  {
    if op.Leave? {
      IndexOfUnique(r.items, x, r.at - 2);
      IndexOfUnique(r.items, op.item, r.at - 1);
    }
  }

  /**
   So that condition is exact: whatever comes after an operation without displacing x again, x keeps within its
   bound, if and only if the operation does not displace it.
   */
  lemma BoundKeptExactly<T(!new)>(r: Ring<T>, x: T, op: Op<T>, newcomer: T)
    requires Spares(r, x, op) && !AtIndex(r, x) && newcomer !in Apply(r, op).items
    ensures (forall rest: seq<Op<T>> :: Waits(r, x, [op] + rest) && NeverDisplaced(Apply(r, op), x, rest)
                                        ==> Selections([op] + rest) < Rank(r, x))
            <==> !Displaces(r, op, x)
  {
    if Displaces(r, op, x) {
      DisplacedExceedsRank(r, x, op, newcomer);
      var rest := Overtaking(newcomer, Rank(r, x));
      assert Waits(r, x, [op] + rest) && NeverDisplaced(Apply(r, op), x, rest);
    } else {
      forall rest: seq<Op<T>> | Waits(r, x, [op] + rest) && NeverDisplaced(Apply(r, op), x, rest)
        ensures Selections([op] + rest) < Rank(r, x)
      {
        assert ([op] + rest)[1..] == rest;
        SelectedWithinRank(r, x, [op] + rest);
      }
    }
  }

  /** A report alone, with nothing arriving or leaving, makes the next task wait for all the others first. */
  lemma SurveyExceedsRank<T>(r: Ring<T>, x: T)
    requires Valid(r) && x in r.items && Rank(r, x) == 1 && |r.items| >= 2
    ensures var run := [Survey] + Picks(|r.items| - 1); Waits(r, x, run) && Selections(run) == |r.items| - 1
  {
    SelectRank(r, x);
    PicksWait(Next(r), x, |r.items| - 1);
    assert ([Survey] + Picks<T>(|r.items| - 1))[1..] == Picks<T>(|r.items| - 1);
  }

  /** The index after n steps on an unchanged list. */
  function StepN<T>(r: Ring<T>, n: nat): (r': Ring<T>)
    requires r.at <= |r.items| && r.items != []
    ensures r'.items == r.items && r'.at <= |r.items| && (n > 0 ==> r'.at > 0)
    decreases n
  {
    if n == 0 then r else Next(StepN(r, n - 1))
  }

  lemma {:induction false} StepNAt<T>(r: Ring<T>, n: nat)
    requires r.at <= |r.items| && 1 <= n <= |r.items|
    ensures StepN(r, n).at == if r.at + n <= |r.items| then r.at + n else r.at + n - |r.items|
  {
    if n > 1 {
      StepNAt(r, n - 1);
    } else {
      assert StepN(r, 0) == r;
    }
  }

  /** Equal shares: on an unchanged list of n items, n selections return every item exactly once. */
  lemma EqualShare<T>(r: Ring<T>, x: T)
    requires Valid(r) && x in r.items
    ensures Selected(StepN(r, Rank(r, x))) == x
    ensures forall n :: 1 <= n <= |r.items| && n != Rank(r, x) ==> Selected(StepN(r, n)) != x
  {
    var i := IndexOf(r.items, x);
    StepNAt(r, Rank(r, x));
    forall n | 1 <= n <= |r.items| && n != Rank(r, x)
      ensures Selected(StepN(r, n)) != x
    {
      StepNAt(r, n);
      if Selected(StepN(r, n)) == x {
        IndexOfUnique(r.items, x, StepN(r, n).at - 1);
      }
    }
  }
}
