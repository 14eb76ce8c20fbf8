/**
 A family of kernel lists that share one kind of list item.  Each item records in pvContainer the list it
 is in, so an item is in at most one list of the family; `home` is that field of every item.
 */
module Families {
  import opened Rings

  datatype Family<L> = Family(lists: map<L, Ring<nat>>, home: map<nat, L>)

  function At<L(==)>(f: Family<L>, l: L): Ring<nat> {
    if l in f.lists then f.lists[l] else Ring([], 0)
  }

  /** Containers and lists agree. */
  ghost predicate Consistent<L(!new)>(f: Family<L>) {
    && (forall l :: Valid(At(f, l)))
    && (forall l, t :: t in At(f, l).items ==> t in f.home && f.home[t] == l)
    && (forall t :: t in f.home ==> t in At(f, f.home[t]).items)
  }

  /** A family that differs from a consistent one in a single list and in the home of a single item. */
  lemma OneListChanged<L(!new)>(f: Family<L>, l: L, r: Ring<nat>, t: nat, f': Family<L>)
    requires Consistent(f) && Valid(r)
    requires f'.lists == f.lists[l := r]
    requires forall u :: u != t ==> (u in f'.home <==> u in f.home) && (u in f.home ==> f'.home[u] == f.home[u])
    requires forall u :: u != t ==> (u in r.items <==> u in At(f, l).items)
    requires t in r.items <==> t in f'.home
    requires t in f'.home ==> f'.home[t] == l
    requires t in f.home ==> f.home[t] == l
    ensures Consistent(f')
    ensures At(f', l) == r && forall m :: m != l ==> At(f', m) == At(f, m)
  {
    assert forall m :: At(f', m) == if m == l then r else At(f, m);
  }

  /** uxListRemove. */
  function Take<L(!new)>(f: Family<L>, t: nat): (f': Family<L>)
    requires Consistent(f) && t in f.home
    ensures Consistent(f') && f'.home == f.home - {t}
  {
    var l := f.home[t];
    var p := IndexOf(At(f, l).items, t);
    var f' := Family(f.lists[l := Remove(At(f, l), p)], f.home - {t});
    TakenRing(At(f, l), p);
    OneListChanged(f, l, Remove(At(f, l), p), t, f');
    f'
  }

  /** vListInsert, where the insertion point has been found to be p. */
  function Place<L(!new)>(f: Family<L>, l: L, p: nat, t: nat): (f': Family<L>)
    requires Consistent(f) && t !in f.home && p <= |At(f, l).items|
    ensures Consistent(f') && f'.home == f.home[t := l]
  {
    var f' := Family(f.lists[l := Insert(At(f, l), p, t)], f.home[t := l]);
    PlacedRing(At(f, l), p, t);
    OneListChanged(f, l, Insert(At(f, l), p, t), t, f');
    f'
  }

  /** vListInsertEnd. */
  function Append<L(!new)>(f: Family<L>, l: L, t: nat): (f': Family<L>)
    requires Consistent(f) && t !in f.home
    ensures Consistent(f') && f'.home == f.home[t := l]
  {
    var r := At(f, l);
    Place(f, l, if r.at == 0 then |r.items| else r.at - 1, t)
  }

  /** listGET_OWNER_OF_NEXT_ENTRY. */
  function Advance<L(!new)>(f: Family<L>, l: L): (f': Family<L>)
    requires Consistent(f) && At(f, l).items != []
    ensures Consistent(f') && f'.home == f.home
  {
    var f' := f.(lists := f.lists[l := Next(At(f, l))]);
    assert forall m :: At(f', m) == if m == l then Next(At(f, l)) else At(f, m);
    f'
  }

  lemma TakenRing(r: Ring<nat>, p: nat)
    requires Valid(r) && p < |r.items|
    ensures Valid(Remove(r, p)) && r.items[p] !in Remove(r, p).items
    ensures forall u :: u != r.items[p] ==> (u in Remove(r, p).items <==> u in r.items)
  {
    OperationsKeepValid(r, p, r.items[p]);
    forall u {
      DropMembers(r.items, p, u);
    }
  }

  lemma PlacedRing(r: Ring<nat>, p: nat, t: nat)
    requires Valid(r) && p <= |r.items| && t !in r.items
    ensures Valid(Insert(r, p, t)) && t in Insert(r, p, t).items
    ensures forall u :: u != t ==> (u in Insert(r, p, t).items <==> u in r.items)
  {
    OperationsKeepValid(r, p, t);
    forall u {
      InsertMembers(r.items, p, t, u);
    }
  }

  // The lists themselves after each operation.

  lemma TakeAt<L(!new)>(f: Family<L>, t: nat, m: L)
    requires Consistent(f) && t in f.home
    ensures At(Take(f, t), m) == if m == f.home[t] then RemoveItem(At(f, m), t) else At(f, m)
  {
  }

  lemma PlaceAt<L(!new)>(f: Family<L>, l: L, p: nat, t: nat, m: L)
    requires Consistent(f) && t !in f.home && p <= |At(f, l).items|
    ensures At(Place(f, l, p, t), m) == if m == l then Insert(At(f, l), p, t) else At(f, m)
  {
  }

  lemma AppendAt<L(!new)>(f: Family<L>, l: L, t: nat, m: L)
    requires Consistent(f) && t !in f.home
    ensures At(Append(f, l, t), m) == if m == l then InsertEnd(At(f, l), t) else At(f, m)
  {
  }
}
