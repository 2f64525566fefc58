/** A queue in an array, used for chunks, for reads that wait and for writes that wait.  A
    cursor marks the first live slot.  The slots before it are freed when the last element
    leaves, or in bulk once there are 1024 of them and they make up half the array. */
module Fifo {
  import opened Base

  /** A queued item with the size it was charged at. */
  datatype Entry<+T> = Entry(item: T, size: nat)

  /** A slot of the backing array; a consumed slot is overwritten with `undefined`. */
  datatype Slot<+T> = Dead | Live(item: T)

  /** The standard's queueTotalSize: the sum of the live sizes. */
  function Total<T>(q: seq<Entry<T>>): nat {
    if q == [] then 0 else q[0].size + Total(q[1..])
  }

  function Items<T>(q: seq<Entry<T>>): (r: seq<T>)
    ensures |r| == |q|
  {
    seq(|q|, i requires 0 <= i < |q| => q[i].item)
  }

  lemma {:induction false} TotalAppend<T>(q: seq<Entry<T>>, e: Entry<T>)
    ensures Total(q + [e]) == Total(q) + e.size
  {
    if q == [] {
      assert q + [e] == [e];
    } else {
      assert (q + [e])[1..] == q[1..] + [e];
      TotalAppend(q[1..], e);
    }
  }

  lemma ItemsAppend<T>(q: seq<Entry<T>>, e: Entry<T>)
    ensures Items(q + [e]) == Items(q) + [e.item]
  {}

  lemma ItemsTail<T>(q: seq<Entry<T>>)
    requires q != []
    ensures Items(q) == [q[0].item] + Items(q[1..])
    ensures Items(q)[1..] == Items(q[1..])
  {}

  /** The threshold below which the dead prefix is left in place. */
  const COMPACT_AT: nat := 1024

  function Max(a: nat, b: nat): nat {
    if a < b then b else a
  }

  function FloorAtZero(n: int): nat {
    if n < 0 then 0 else n
  }

  class Queue<T> {
    var items: seq<Slot<T>>
    var sizes: seq<nat>
    var head: nat
    var totalSize: nat
    // How often `Shift` took an item, and how many elements its compactions copied.
    ghost var shifts: nat
    ghost var copied: nat

    /** The queue as a plain sequence. */
    ghost function Contents(): seq<Entry<T>>
      requires Shaped()
      reads this
    {
      Zip(items[head..], sizes[head..])
    }

    static ghost function Zip(slots: seq<Slot<T>>, sizes: seq<nat>): (r: seq<Entry<T>>)
      requires |slots| == |sizes|
      requires forall s :: s in slots ==> s.Live?
      ensures |r| == |slots|
    {
      seq(|slots|, i requires 0 <= i < |slots| => Entry(slots[i].item, sizes[i]))
    }

    ghost predicate Shaped()
      reads this
    {
      && |items| == |sizes|
      && (head < |items| || (head == 0 && items == []))
      && (forall k :: 0 <= k < head ==> items[k].Dead?)
      && (forall k :: head <= k < |items| ==> items[k].Live?)
    }

    /** Besides the shape: the running total is exact, the dead prefix is bounded by
        the live part (or the threshold), and compaction has copied at most one
        element per item taken. */
    ghost predicate Valid()
      reads this
    {
      && Shaped()
      && totalSize == Total(Contents())
      && head <= Max(COMPACT_AT, |items| - head + 1)
      && copied + head <= shifts
    }

    constructor ()
      ensures Valid() && Contents() == [] && shifts == 0
    {
      items, sizes, head, totalSize := [], [], 0, 0;
      shifts, copied := 0, 0;
    }

    function Length(): (n: nat)
      requires Shaped()
      reads this
      ensures n == |Contents()|
    {
      |items| - head
    }

    function Peek(): (r: Option<T>)
      requires Shaped()
      reads this
      ensures r == if Contents() == [] then None else Some(Contents()[0].item)
    {
      if head < |items| then Some(items[head].item) else None
    }

    method Push(item: T, size: nat)
      requires Valid()
      modifies this
      ensures Valid()
      ensures Contents() == old(Contents()) + [Entry(item, size)]
      ensures shifts == old(shifts) && copied == old(copied)
    {
      items := items + [Live(item)];
      sizes := sizes + [size];
      totalSize := totalSize + size;
      TotalAppend(old(Contents()), Entry(item, size));
      assert Contents() == old(Contents()) + [Entry(item, size)];
    }

    /** `undefined` on an empty queue; the total never needs its floor at zero. */
    method Shift() returns (r: Option<T>)
      requires Valid()
      modifies this
      ensures Valid()
      ensures old(Contents()) == [] ==> r == None && Contents() == [] && shifts == old(shifts)
      ensures old(Contents()) != [] ==>
                && r == Some(old(Contents())[0].item)
                && Contents() == old(Contents())[1..]
                && shifts == old(shifts) + 1
      ensures copied >= old(copied)
    {
      if head == |items| {
        return None;
      }
      assert Contents()[0] == Entry(items[head].item, sizes[head]);
      r := Some(items[head].item);
      totalSize := FloorAtZero(totalSize - sizes[head]);
      shifts := shifts + 1;
      if head + 1 == |items| {
        items, sizes, head := [], [], 0;
      } else if head >= COMPACT_AT && head * 2 >= |items| {
        copied := copied + (|items| - head - 1);
        items, sizes, head := items[head + 1..], sizes[head + 1..], 0;
      } else {
        items, head := items[head := Dead], head + 1;
      }
      assert Contents() == old(Contents())[1..];
    }

    /** A partial read took `count` off the head: `rest` stays in its place. */
    method ConsumeHead(rest: T, count: nat)
      requires Valid() && Contents() != []
      requires count <= Contents()[0].size
      modifies this
      ensures Valid()
      ensures Contents() ==
              [Entry(rest, old(Contents())[0].size - count)] + old(Contents())[1..]
      ensures shifts == old(shifts) && copied == old(copied)
    {
      assert Contents()[0] == Entry(items[head].item, sizes[head]);
      items := items[head := Live(rest)];
      sizes := sizes[head := sizes[head] - count];
      totalSize := FloorAtZero(totalSize - count);
      assert Contents() ==
             [Entry(rest, old(Contents())[0].size - count)] + old(Contents())[1..];
    }

    method Clear()
      requires Valid()
      modifies this
      ensures Valid() && Contents() == []
      ensures shifts == old(shifts) && copied == old(copied)
    {
      items, sizes, head, totalSize := [], [], 0, 0;
    }
  }
}
