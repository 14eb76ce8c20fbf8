/**
 The storage area of a queue: a byte array used as a ring of equal slots, with a write pointer, a read
 pointer that trails the head by one slot, and a count.  It is proved to be a bounded double-ended queue.
 */
module QueueStorage {

  type Byte = b: int | 0 <= b < 256 witness 0

  type Item = seq<Byte>

  datatype Position = Back | Front | Overwrite

  datatype Option<T> = None | Some(value: T)

  // ---------------------------------------------------------------------------
  // Slots and the double-ended queue they hold
  // ---------------------------------------------------------------------------

  /** An index less than two turns round a ring of n slots. */
  function Wrap(i: nat, n: nat): (w: nat)
    requires i < 2 * n
    ensures w < n
  {
    if i < n then i else i - n
  }

  /** The items held, oldest first: they start one slot after the read pointer. */
  function Held(slots: seq<Item>, read: nat, count: nat): (q: seq<Item>)
    requires read < |slots| && count <= |slots|
    ensures |q| == count
    ensures forall i :: 0 <= i < count ==> q[i] == slots[Wrap(read + 1 + i, |slots|)]
  {
    seq(count, i requires 0 <= i < count => slots[Wrap(read + 1 + i, |slots|)])
  }

  lemma BackHeld(slots: seq<Item>, read: nat, count: nat, x: Item)
    requires read < |slots| && count < |slots|
    ensures Held(slots[Wrap(read + 1 + count, |slots|) := x], read, count + 1) == Held(slots, read, count) + [x]
  {
  }

  /** One slot back from the read pointer. */
  function Before(read: nat, n: nat): (r: nat)
    requires read < n
    ensures r < n
  {
    if read == 0 then n - 1 else read - 1
  }

  lemma FrontHeld(slots: seq<Item>, read: nat, count: nat, x: Item)
    requires read < |slots| && count < |slots|
    ensures Held(slots[read := x], Before(read, |slots|), count + 1) == [x] + Held(slots, read, count)
  {
    var q := Held(slots[read := x], Before(read, |slots|), count + 1);
    forall i | 0 < i < count + 1
      ensures q[i] == Held(slots, read, count)[i - 1]
    {
      assert Wrap(Before(read, |slots|) + 1 + i, |slots|) == Wrap(read + 1 + (i - 1), |slots|);
    }
  }

  lemma HeadHeld(slots: seq<Item>, read: nat, count: nat)
    requires read < |slots| && 0 < count <= |slots|
    ensures Held(slots, read, count)[0] == slots[Wrap(read + 1, |slots|)]
    ensures Held(slots, Wrap(read + 1, |slots|), count - 1) == Held(slots, read, count)[1..]
  {
    var q := Held(slots, Wrap(read + 1, |slots|), count - 1);
    forall i | 0 <= i < count - 1
      ensures q[i] == Held(slots, read, count)[i + 1]
    {
      assert Wrap(Wrap(read + 1, |slots|) + 1 + i, |slots|) == Wrap(read + 1 + (i + 1), |slots|);
    }
  }

  // ---------------------------------------------------------------------------
  // Slots and bytes
  // ---------------------------------------------------------------------------

  /** Where a slot starts, in bytes from pcHead. */
  function Offset(s: nat, size: nat): nat {
    s * size
  }

  lemma SlotBounds(s: nat, n: nat, size: nat)
    requires s < n
    ensures Offset(s, size) + size <= Offset(n, size)
  {
    assert (s + 1) * size <= n * size && (s + 1) * size == s * size + size;
  }

  lemma SlotsApart(s: nat, j: nat, size: nat)
    requires s < j
    ensures Offset(s, size) + size <= Offset(j, size)
  {
    assert (s + 1) * size <= j * size && (s + 1) * size == s * size + size;
  }

  function SlotOf(bytes: seq<Byte>, s: nat, n: nat, size: nat): (x: Item)
    requires |bytes| == Offset(n, size) && s < n
    ensures |x| == size
  {
    SlotBounds(s, n, size);
    bytes[Offset(s, size)..Offset(s, size) + size]
  }

  function Slots(bytes: seq<Byte>, n: nat, size: nat): (slots: seq<Item>)
    requires |bytes| == Offset(n, size)
    ensures |slots| == n && forall x :: x in slots ==> |x| == size
  {
    seq(n, s requires 0 <= s < n => SlotOf(bytes, s, n, size))
  }

  /** Replacing the bytes of one slot replaces that slot and no other. */
  lemma SlotWritten(bytes: seq<Byte>, bytes': seq<Byte>, s: nat, n: nat, size: nat, x: Item)
    requires |bytes| == |bytes'| == Offset(n, size) && s < n && |x| == size
    requires Offset(s, size) + size <= Offset(n, size) && bytes'[Offset(s, size)..Offset(s, size) + size] == x
    requires bytes'[..Offset(s, size)] == bytes[..Offset(s, size)] && bytes'[Offset(s, size) + size..] == bytes[Offset(s, size) + size..]
    ensures Slots(bytes', n, size) == Slots(bytes, n, size)[s := x]
  {
    forall j: nat | j < n && j != s
      ensures SlotOf(bytes', j, n, size) == SlotOf(bytes, j, n, size)
    {
      SlotElsewhere(bytes, bytes', s, j, n, size);
    }
  }

  lemma SlotElsewhere(bytes: seq<Byte>, bytes': seq<Byte>, s: nat, j: nat, n: nat, size: nat)
    requires |bytes| == |bytes'| == Offset(n, size) && s < n && j < n && j != s
    requires Offset(s, size) + size <= Offset(n, size)
    requires bytes'[..Offset(s, size)] == bytes[..Offset(s, size)] && bytes'[Offset(s, size) + size..] == bytes[Offset(s, size) + size..]
    ensures SlotOf(bytes', j, n, size) == SlotOf(bytes, j, n, size)
  {
    SlotBounds(j, n, size);
    if j < s {
      SlotsApart(j, s, size);
      assert bytes[Offset(j, size)..Offset(j, size) + size] == bytes[..Offset(s, size)][Offset(j, size)..Offset(j, size) + size];
      assert bytes'[Offset(j, size)..Offset(j, size) + size] == bytes'[..Offset(s, size)][Offset(j, size)..Offset(j, size) + size];
    } else {
      SlotsApart(s, j, size);
      var e := Offset(s, size) + size;
      assert bytes[Offset(j, size)..Offset(j, size) + size] == bytes[e..][Offset(j, size) - e..Offset(j, size) + size - e];
      assert bytes'[Offset(j, size)..Offset(j, size) + size] == bytes'[e..][Offset(j, size) - e..Offset(j, size) + size - e];
    }
  }

  /** Comparing byte offsets with the tail and wrapping moves to the next slot round the ring. */
  lemma NextOffset(s: nat, n: nat, size: nat)
    requires s < n && size > 0
    ensures Offset(Wrap(s + 1, n), size) == if Offset(s, size) + size >= Offset(n, size) then 0 else Offset(s, size) + size
  {
    SlotsApart(s, s + 1, size);
    assert Offset(s + 1, size) == Offset(s, size) + size;
    if s + 1 < n {
      SlotsApart(s + 1, n, size);
    }
  }

  lemma BeforeHead(s: nat, n: nat, size: nat)
    requires s < n && size > 0
    ensures Offset(s, size) - size < 0 <==> s == 0
    ensures s > 0 ==> Offset(s - 1, size) == Offset(s, size) - size
    ensures Offset(n - 1, size) == Offset(n, size) - size
  {
    if s > 0 {
      SlotsApart(0, s, size);
    }
  }

  // ---------------------------------------------------------------------------
  // The queue's count
  // ---------------------------------------------------------------------------

  /** uxMessagesWaiting after an item has been copied in. */
  function CountAfter(waiting: nat, itemSize: nat, position: Position): nat {
    if itemSize > 0 && position == Overwrite && waiting > 0 then waiting else waiting + 1
  }

  /** The count stays within the length except when a full semaphore is overwritten. */
  lemma CountStaysBounded(waiting: nat, length: nat, itemSize: nat, position: Position)
    requires waiting <= length && length > 0
    requires position == Overwrite ==> length == 1
    requires waiting < length || position == Overwrite
    ensures CountAfter(waiting, itemSize, position) <= length
            <==> !(position == Overwrite && itemSize == 0 && waiting == length)
  {
  }

  // ---------------------------------------------------------------------------
  // The storage itself
  // ---------------------------------------------------------------------------

  class Storage {
    const length: nat
    const itemSize: nat
    const bytes: array<Byte>   // pcHead is offset 0 and pcTail is the array's length
    var writeTo: nat
    var readFrom: nat
    var waiting: nat
    ghost var writeSlot: nat
    ghost var readSlot: nat

    ghost predicate Valid()
      reads this
    {
      && length > 0 && bytes.Length == Offset(length, itemSize)
      && readSlot < length && readFrom == Offset(readSlot, itemSize)
      && writeSlot < length && writeTo == Offset(writeSlot, itemSize)
      && (itemSize > 0 ==> waiting <= length && writeSlot == Wrap(Wrap(readSlot + 1, length) + waiting, length))
    }

    /** The queue as its users see it: the items waiting, oldest first; items without bytes are only counted. */
    ghost function Contents(): (q: seq<Item>)
      requires Valid()
      reads this, bytes
      ensures |q| == waiting
    {
      if itemSize == 0 then seq(waiting, i => []) else Held(Slots(bytes[..], length, itemSize), readSlot, waiting)
    }

    /** The part of xQueueGenericCreate and xQueueGenericReset that concerns the storage. */
    constructor (length: nat, itemSize: nat)
      requires length > 0
      ensures Valid() && Contents() == [] && fresh(bytes)
      ensures this.length == length && this.itemSize == itemSize
    {
      this.length, this.itemSize := length, itemSize;
      bytes := new Byte[Offset(length, itemSize)];
      writeTo, readFrom, waiting := 0, Offset(length - 1, itemSize), 0;
      writeSlot, readSlot := 0, length - 1;
    }

    /** memcpy into one slot. */
    method CopyIn(at: nat, item: Item, ghost slot: nat)
      requires slot < length && at == Offset(slot, itemSize) && |item| == itemSize && bytes.Length == Offset(length, itemSize)
      modifies bytes
      ensures Slots(bytes[..], length, itemSize) == Slots(old(bytes[..]), length, itemSize)[slot := item]
    {
      SlotBounds(slot, length, itemSize);
      hide Offset;
      var i := 0;
      while i < itemSize
        invariant 0 <= i <= itemSize
        invariant forall k :: 0 <= k < i ==> bytes[at + k] == item[k]
        invariant forall k :: 0 <= k < bytes.Length && !(at <= k < at + i) ==> bytes[k] == old(bytes[k])
      {
        bytes[at + i] := item[i];
        i := i + 1;
      }
      SlotWritten(old(bytes[..]), bytes[..], slot, length, itemSize, item);
    }

    /** memcpy out of one slot. */
    method CopyOut(at: nat, ghost slot: nat) returns (item: Item)
      requires slot < length && at == Offset(slot, itemSize) && bytes.Length == Offset(length, itemSize)
      ensures item == Slots(bytes[..], length, itemSize)[slot]
    {
      SlotBounds(slot, length, itemSize);
      item := [];
      var i := 0;
      while i < itemSize
        invariant 0 <= i <= itemSize && item == bytes[at..at + i]
      {
        item := item + [bytes[at + i]];
        i := i + 1;
      }
    }

    method CopyToBack(item: Item)
      requires Valid() && itemSize > 0 && |item| == itemSize && waiting < length
      modifies this`writeTo, this`writeSlot, this`waiting, bytes
      ensures Valid() && Contents() == old(Contents()) + [item]
    {
      hide Offset, Slots, Held;
      BackHeld(Slots(bytes[..], length, itemSize), readSlot, waiting, item);
      NextOffset(writeSlot, length, itemSize);
      CopyIn(writeTo, item, writeSlot);
      writeTo := writeTo + itemSize;
      if writeTo >= bytes.Length {
        writeTo := 0;
      }
      writeSlot := Wrap(writeSlot + 1, length);
      waiting := waiting + 1;
    }

    /** The read pointer steps back by one slot, and from the first slot to the last. */
    method StepBack()
      requires itemSize > 0 && readSlot < length && bytes.Length == Offset(length, itemSize)
      requires readFrom == Offset(readSlot, itemSize)
      modifies this`readFrom, this`readSlot
      ensures readSlot == Before(old(readSlot), length) && readFrom == Offset(readSlot, itemSize)
    {
      BeforeHead(readSlot, length, itemSize);
      hide Offset;
      if readFrom < itemSize {
        readFrom := bytes.Length - itemSize;
      } else {
        readFrom := readFrom - itemSize;
      }
      readSlot := Before(readSlot, length);
    }

    /** The slot before the head is written first; only then does the read pointer step back. */
    method CopyToFront(item: Item)
      requires Valid() && itemSize > 0 && |item| == itemSize && waiting < length
      modifies this`readFrom, this`readSlot, this`waiting, bytes
      ensures Valid() && Contents() == [item] + old(Contents())
    {
      hide Offset, Slots, Held;
      FrontHeld(Slots(bytes[..], length, itemSize), readSlot, waiting, item);
      CopyIn(readFrom, item, readSlot);
      StepBack();
      waiting := waiting + 1;
    }

    /** Overwriting a queue of length one: its item, if any, is replaced. */
    method CopyOver(item: Item)
      requires Valid() && itemSize > 0 && |item| == itemSize && length == 1
      modifies this`readFrom, this`readSlot, this`waiting, bytes
      ensures Valid() && Contents() == [item]
    {
      hide Offset, Slots;
      CopyIn(readFrom, item, readSlot);
      StepBack();
      if waiting > 0 {
        waiting := waiting - 1;
      }
      waiting := waiting + 1;
    }

    method CopyDataToQueue(item: Item, position: Position)
      requires Valid() && |item| == itemSize
      requires waiting < length || position == Overwrite
      requires position == Overwrite ==> length == 1
      modifies this, bytes
      ensures Valid() && waiting == CountAfter(old(waiting), itemSize, position)
      ensures position == Back ==> Contents() == old(Contents()) + [item]
      ensures position == Front ==> Contents() == [item] + old(Contents())
      ensures position == Overwrite ==> Contents() == if itemSize == 0 then old(Contents()) + [item] else [item]
    {
      if itemSize == 0 {
        waiting := waiting + 1;
      } else if position == Back {
        CopyToBack(item);
      } else if position == Front {
        CopyToFront(item);
      } else {
        CopyOver(item);
      }
    }

    /** Moves the read pointer on and copies the head item out; the caller decides whether it is removed. */
    method CopyDataFromQueue() returns (item: Item)
      requires Valid() && waiting > 0
      modifies this`readFrom, this`readSlot
      ensures item == old(Contents()[0]) && readSlot < length
      ensures readFrom == Offset(readSlot, itemSize) && readSlot == if itemSize > 0 then Wrap(old(readSlot) + 1, length) else old(readSlot)
    {
      hide Offset, Held;
      item := [];
      if itemSize != 0 {
        HeadHeld(Slots(bytes[..], length, itemSize), readSlot, waiting);
        NextOffset(readSlot, length, itemSize);
        readFrom := readFrom + itemSize;
        if readFrom >= bytes.Length {
          readFrom := 0;
        }
        readSlot := Wrap(readSlot + 1, length);
        item := CopyOut(readFrom, readSlot);
      }
    }

    /**
     The critical section of a send: refused when the queue is full and not to be overwritten.  Overwriting a
     semaphore counts once more, even beyond its length.
     */
    method Send(item: Item, position: Position) returns (ok: bool)
      requires Valid() && |item| == itemSize && (position == Overwrite ==> length == 1)
      modifies this, bytes
      ensures Valid() && (ok <==> |old(Contents())| < length || position == Overwrite)
      ensures Contents() == if !ok then old(Contents()) else match position
                case Back => old(Contents()) + [item]
                case Front => [item] + old(Contents())
                case Overwrite => if itemSize == 0 then old(Contents()) + [item] else [item]
    {
      ok := waiting < length || position == Overwrite;
      if ok {
        CopyDataToQueue(item, position);
      }
    }

    /** The critical section of a receive or peek: a peek puts the read pointer back. */
    method Receive(justPeeking: bool) returns (item: Option<Item>)
      requires Valid()
      modifies this
      ensures Valid() && (item == None <==> old(Contents()) == [])
      ensures item.Some? ==> item.value == old(Contents()[0])
      ensures justPeeking ==> readFrom == old(readFrom) && waiting == old(waiting)
      ensures Contents() == if item.None? || justPeeking then old(Contents()) else old(Contents()[1..])
    {
      hide Offset, Slots, Held;
      item := None;
      if waiting > 0 {
        if itemSize > 0 {
          HeadHeld(Slots(bytes[..], length, itemSize), readSlot, waiting);
        }
        var originalReadPosition := readFrom;
        ghost var originalSlot := readSlot;
        var head := CopyDataFromQueue();
        item := Some(head);
        if !justPeeking {
          waiting := waiting - 1;
        } else {
          readFrom, readSlot := originalReadPosition, originalSlot;
        }
      }
    }
  }
}
