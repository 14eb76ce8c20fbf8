/**
 The intrusive circular doubly linked list of the kernel, over a real heap of nodes.  Each operation is
 proved to have exactly the effect of the corresponding function of Rings on the list's sequence view, and
 its frame is the list and its own nodes, so that every other list is left alone.
 */
module KernelList {
  import opened Ticks
  import opened Rings

  class ListItem {
    var value: Tick
    var next: ListItem?
    var prev: ListItem?
    var owner: nat
    var container: List?

    /** vListInitialiseItem: not in any list. */
    constructor (value: Tick, owner: nat)
      ensures container == null && this.value == value && this.owner == owner
    {
      this.value := value;
      this.owner := owner;
      next, prev, container := null, null, null;
    }
  }

  /** The nodes form one cycle, with matching back links. */
  ghost predicate Linked(nodes: seq<ListItem>)
    reads nodes
  {
    && (forall i {:trigger nodes[i].next} :: 0 <= i < |nodes| ==>
          nodes[i].next == nodes[if i + 1 < |nodes| then i + 1 else 0])
    && (forall i {:trigger nodes[i].prev} :: 0 <= i < |nodes| ==>
          nodes[i].prev == nodes[if i > 0 then i - 1 else |nodes| - 1])
  }

  /** The four pointer writes of an insertion between two neighbours. */
  method Splice(before: ListItem, after: ListItem, x: ListItem, ghost nodes: seq<ListItem>, ghost p: nat)
    requires 0 < p <= |nodes| && before == nodes[p - 1] && after == nodes[if p < |nodes| then p else 0]
    requires Distinct(nodes) && Linked(nodes) && x !in nodes
    modifies before`next, after`prev, x`next, x`prev
    ensures Linked(InsertAt(nodes, p, x))
  {
    ghost var n := InsertAt(nodes, p, x);
    x.next := after;
    x.prev := before;
    before.next := x;
    after.prev := x;
    forall i | 0 <= i < |n|
      ensures n[i].next == n[if i + 1 < |n| then i + 1 else 0]
    {
      if i < p - 1 {
        assert nodes[i] != before && nodes[i].next == old(nodes[i].next);
      } else if i > p {
        assert nodes[i - 1] != before && nodes[i - 1].next == old(nodes[i - 1].next);
      }
    }
    forall i | 0 <= i < |n|
      ensures n[i].prev == n[if i > 0 then i - 1 else |n| - 1]
    {
      if i < p {
        assert (p == |nodes| && i == 0) || (nodes[i] != after && nodes[i].prev == old(nodes[i].prev));
      } else if i > p + 1 {
        assert nodes[i - 1] != after && nodes[i - 1].prev == old(nodes[i - 1].prev);
      }
    }
  }

  /** The two pointer writes of a removal. */
  method Unsplice(before: ListItem, after: ListItem, ghost nodes: seq<ListItem>, ghost p: nat)
    requires 0 < p < |nodes| && before == nodes[p - 1] && after == nodes[if p + 1 < |nodes| then p + 1 else 0]
    requires Distinct(nodes) && Linked(nodes)
    modifies before`next, after`prev
    ensures Linked(DropAt(nodes, p))
  {
    ghost var n := DropAt(nodes, p);
    after.prev := before;
    before.next := after;
    forall i | 0 <= i < |n|
      ensures n[i].next == n[if i + 1 < |n| then i + 1 else 0]
    {
      if i < p - 1 {
        assert nodes[i] != before && nodes[i].next == old(nodes[i].next);
      } else if i >= p {
        assert nodes[i + 1] != before && nodes[i + 1].next == old(nodes[i + 1].next);
      }
    }
    forall i | 0 <= i < |n|
      ensures n[i].prev == n[if i > 0 then i - 1 else |n| - 1]
    {
      if i < p {
        assert (p + 1 == |nodes| && i == 0) || (nodes[i] != after && nodes[i].prev == old(nodes[i].prev));
      } else if i > p {
        assert nodes[i + 1] != after && nodes[i + 1].prev == old(nodes[i + 1].prev);
      }
    }
  }

  class List {
    const end: ListItem
    var index: ListItem
    var count: nat
    /** The end marker, then the items in link order. */
    ghost var nodes: seq<ListItem>
    ghost var at: nat

    ghost predicate Valid()
      reads this, nodes
    {
      && nodes != [] && nodes[0] == end
      && Distinct(nodes)
      && Linked(nodes)
      && (forall i :: 0 < i < |nodes| ==> nodes[i].container == this)
      && end.container == null
      && end.value == MAX_DELAY
      && count == |nodes| - 1
      && at < |nodes| && index == nodes[at]
    }

    ghost function View(): Ring<ListItem>
      reads this
      requires nodes != []
    {
      Ring(nodes[1..], at)
    }

    ghost function Values(): (vs: seq<nat>)
      requires nodes != []
      reads this, nodes
      ensures |vs| == |nodes| - 1
      ensures forall i {:trigger vs[i]} :: 0 <= i < |vs| ==> vs[i] == nodes[i + 1].value
    {
      seq(|nodes| - 1, i requires 0 <= i < |nodes| - 1 reads this, nodes => nodes[i + 1].value as nat)
    }

    /** vListInitialise. */
    constructor ()
      ensures Valid() && View() == Ring([], 0) && fresh(end)
    {
      var marker := new ListItem(MAX_DELAY, 0);
      end := marker;
      index := marker;
      count := 0;
      nodes, at := [marker], 0;
      new;
      end.next := end;
      end.prev := end;
    }

    /** Links x between two neighbouring nodes; p is its place among the nodes. */
    method Link(before: ListItem, after: ListItem, x: ListItem, ghost p: nat)
      requires Valid() && x !in nodes && x.container == null
      requires 0 < p <= |nodes| && before == nodes[p - 1] && after == nodes[if p < |nodes| then p else 0]
      modifies this`count, this`nodes, this`at, before`next, after`prev, x`next, x`prev, x`container
      ensures Valid() && nodes == InsertAt(old(nodes), p, x)
      ensures View() == Rings.Insert(old(View()), p - 1, x)
    {
      x.container := this;
      count := count + 1;
      Splice(before, after, x, nodes, p);
      InsertDistinct(nodes, p, x);
      Record(p, x);
    }

    /** The ghost half of an insertion. */
    ghost method Record(p: nat, x: ListItem)
      requires 0 < p <= |nodes| && at < |nodes|
      modifies this`nodes, this`at
      ensures nodes == InsertAt(old(nodes), p, x) && at < |nodes|
      ensures View() == Rings.Insert(old(View()), p - 1, x)
      ensures nodes[at] == old(nodes[at]) && nodes[0] == old(nodes[0])
    {
      at := if at >= p then at + 1 else at;
      nodes := InsertAt(nodes, p, x);
      assert nodes[1..] == InsertAt(old(nodes)[1..], p - 1, x);
    }

    /** Unlinks the node x from place p, moving the index off it. */
    method Unlink(x: ListItem, ghost p: nat)
      requires Valid() && 0 < p < |nodes| && x == nodes[p]
      modifies this`count, this`index, this`nodes, this`at, nodes`next, nodes`prev, x`container
      ensures Valid() && View() == Rings.Remove(old(View()), p - 1) && x.container == null
    {
      DropDistinct(nodes, p);
      assert index == x <==> at == p;
      x.container := null;
      count := count - 1;
      if index == x {
        index := x.prev;
      }
      Unsplice(x.prev, x.next, nodes, p);
      Forget(p);
    }

    /** The ghost half of a removal. */
    ghost method Forget(p: nat)
      requires 0 < p < |nodes| && at < |nodes| && nodes[0] == end && count == |nodes| - 2
      requires Distinct(DropAt(nodes, p)) && Linked(DropAt(nodes, p))
      requires forall i {:trigger nodes[i]} :: 0 < i < |nodes| && i != p ==> nodes[i].container == this
      requires end.container == null && end.value == MAX_DELAY
      requires index == if at == p then nodes[p - 1] else nodes[at]
      modifies this`nodes, this`at
      ensures Valid() && View() == Rings.Remove(old(View()), p - 1)
    {
      assert DropAt(nodes, p)[1..] == DropAt(nodes[1..], p - 1);
      at := if at >= p then at - 1 else at;
      nodes := DropAt(nodes, p);
    }

    /** vListInsertEnd. */
    method InsertEnd(x: ListItem)
      requires Valid() && x !in nodes && x.container == null
      modifies this`count, this`nodes, this`at, nodes`next, nodes`prev, x`next, x`prev, x`container
      ensures Valid() && View() == Rings.InsertEnd(old(View()), x)
    {
      Link(index.prev, index, x, if at == 0 then |nodes| else at);
    }

    /** vListInsert: behind every item whose value is not larger. */
    method Insert(x: ListItem)
      requires Valid() && x !in nodes && x.container == null
      modifies this`count, this`nodes, this`at, nodes`next, nodes`prev, x`next, x`prev, x`container
      ensures Valid()
      ensures View() == Rings.Insert(old(View()), Slot(old(Values()), x.value), x)
    {
      var walk, p := Scan(x.value);
      Link(walk, walk.next, x, p + 1);
    }

    /** The node to insert behind; for any value below its own, the end marker stops the walk. */
    method Scan(v: Tick) returns (walk: ListItem, ghost p: nat)
      requires Valid()
      ensures p == Slot(Values(), v)
      ensures walk == nodes[p] && walk.next == nodes[if p + 1 < |nodes| then p + 1 else 0]
    {
      if v == MAX_DELAY {
        walk, p := end.prev, |nodes| - 1;
      } else {
        walk, p := end, 0;
        while walk.next.value <= v
          invariant p < |nodes| && walk == nodes[p]
          invariant forall i {:trigger nodes[i]} :: 0 < i <= p ==> nodes[i].value <= v
          decreases |nodes| - p
        {
          walk, p := walk.next, p + 1;
        }
      }
      SlotUnique(Values(), v, p);
    }

    /** listGET_OWNER_OF_NEXT_ENTRY. */
    method OwnerOfNextEntry() returns (owner: nat)
      requires Valid() && View().items != []
      modifies this`index, this`at
      ensures Valid() && View() == Next(old(View()))
      ensures owner == Selected(View()).owner
    {
      index := index.next;
      at := if at + 1 == |nodes| then 0 else at + 1;
      if index == end {
        index := index.next;
        at := 1;
      }
      owner := index.owner;
    }
  }

  /** uxListRemove: the item knows its list. */
  method Remove(x: ListItem) returns (left: nat)
    requires x.container != null && x.container.Valid() && x in x.container.View().items
    modifies x.container, x.container.nodes`next, x.container.nodes`prev, x`container
    ensures var list := old(x.container);
            list.Valid() && list.View() == RemoveItem(old(list.View()), x) && left == |list.View().items|
    ensures x.container == null
  {
    var list := x.container;
    list.Unlink(x, IndexOf(list.nodes[1..], x) + 1);
    left := list.count;
  }

  ghost predicate Apart(a: List, b: List)
    reads a, b
  {
    a != b && forall n :: n in a.nodes ==> n !in b.nodes
  }

  /** Insertion into one list leaves a disjoint list as it was. */
  method InsertEndBeside(target: List, x: ListItem, ghost other: List)
    requires target.Valid() && other.Valid() && Apart(target, other)
    requires x !in target.nodes && x !in other.nodes && x.container == null
    modifies target`count, target`nodes, target`at, target.nodes`next, target.nodes`prev
    modifies x`next, x`prev, x`container
    ensures target.Valid() && target.View() == Rings.InsertEnd(old(target.View()), x)
    ensures other.Valid() && unchanged(other) && x.container == target
  {
    ghost var ring, nodes := target.View(), target.nodes;
    target.InsertEnd(x);
    forall i | 0 <= i < |other.nodes|
      ensures unchanged(other.nodes[i])
    {
      assert other.nodes[i] in other.nodes && other.nodes[i] !in nodes && other.nodes[i] != x;
    }
    assert x in target.nodes[1..] by {
      InsertMembers(ring.items, if ring.at == 0 then |ring.items| else ring.at - 1, x, x);
    }
  }

  /** So does removal. */
  method RemoveBeside(x: ListItem, ghost other: List)
    requires x.container != null && x.container.Valid() && x in x.container.View().items
    requires other.Valid() && Apart(x.container, other)
    modifies x.container, x.container.nodes`next, x.container.nodes`prev, x`container
    ensures var source := old(x.container);
            source.Valid() && source.View() == RemoveItem(old(source.View()), x)
    ensures other.Valid() && unchanged(other) && x.container == null
    ensures forall n :: n in old(x.container).nodes ==> n in old(x.container.nodes) && n != x
  {
    ghost var source, nodes := x.container, x.container.nodes;
    ghost var p := IndexOf(nodes[1..], x);
    var left := Remove(x);
    assert source.nodes == DropAt(nodes, p + 1) by {
      assert source.nodes[1..] == DropAt(nodes[1..], p);
    }
    DropDistinct(nodes, p + 1);
  }
}
