/** The byte controller as objects: pull-into descriptors over real buffers, a chunk queue
    with a head index, and the loops that move bytes between them in place. */
module ByteObject {
  import opened Fifo
  import opened ByteSpec
  import opened ByteProofs

  /** A pull-into descriptor over the buffer its read handed over. */
  class Descriptor {
    const buffer: array<Byte>
    const byteOffset: nat
    const byteLength: nat
    const minimumFill: nat
    const elementSize: ElementSize
    var bytesFilled: nat
    var released: bool

    constructor (buffer: array<Byte>, byteOffset: nat, byteLength: nat, minimumFill: nat, elementSize: ElementSize)
      requires byteOffset + byteLength <= buffer.Length
      ensures this.buffer == buffer && Shaped()
      ensures Value() == PullInto([], byteLength, minimumFill, elementSize, false)
    {
      this.buffer, this.byteOffset, this.byteLength := buffer, byteOffset, byteLength;
      this.minimumFill, this.elementSize := minimumFill, elementSize;
      bytesFilled, released := 0, false;
    }

    predicate Shaped()
      reads this
    {
      byteOffset + byteLength <= buffer.Length && bytesFilled <= byteLength
    }

    /** The bytes in the buffer so far. */
    function Filled(): Bytes
      requires Shaped()
      reads this, buffer
    {
      buffer[byteOffset..byteOffset + bytesFilled]
    }

    function Value(): PullInto
      requires Shaped()
      reads this, buffer
    {
      PullInto(Filled(), byteLength, minimumFill, elementSize, released)
    }

    /** Gives up the bytes after the first `n`. */
    method Truncate(n: nat)
      requires Shaped() && n <= bytesFilled
      modifies this`bytesFilled
      ensures Shaped() && Value() == old(Value()).(filled := old(Value()).filled[..n])
    {
      bytesFilled := n;
    }

    method Release()
      requires Shaped()
      modifies this`released
      ensures Shaped() && Value() == old(Value()).(released := true)
    {
      released := true;
    }

    /** Appends bytes to those in the buffer. */
    method Append(bytes: Bytes)
      requires Shaped() && bytesFilled + |bytes| <= byteLength
      modifies this`bytesFilled, buffer
      ensures Shaped()
      ensures Value() == old(Value()).(filled := old(Value()).filled + bytes)
      ensures bytesFilled == old(bytesFilled) + |bytes|
    {
      var at := byteOffset + bytesFilled;
      forall i | 0 <= i < |bytes| {
        buffer[at + i] := bytes[i];
      }
      bytesFilled := bytesFilled + |bytes|;
      assert Filled() == old(Filled()) + bytes;
    }
  }

  /** The queue once the first `n` bytes of its head are gone. */
  function Behead(q: seq<Entry<Bytes>>, n: nat): seq<Entry<Bytes>>
    requires q != [] && n <= |q[0].item|
  {
    if n == |q[0].item| then q[1..] else [Entry(q[0].item[n..], FloorAtZero(q[0].size - n))] + q[1..]
  }

  lemma BeheadSized(q: seq<Entry<Bytes>>, n: nat)
    requires Sized(q) && q != [] && n <= |q[0].item|
    ensures Sized(Behead(q, n)) && Total(Behead(q, n)) == Total(q) - n
  {
    if n < |q[0].item| {
      assert Behead(q, n)[1..] == q[1..];
    }
  }

  lemma TakeWholeHead(q: seq<Entry<Bytes>>, count: nat, t: Taken)
    requires q != [] && 0 < count && |q[0].item| <= count && t == Take(q[1..], count - |q[0].item|)
    ensures Take(q, count) == Taken(q[0].item + t.bytes, t.rest, t.missing)
  {}

  lemma TakePartHead(q: seq<Entry<Bytes>>, count: nat)
    requires q != [] && 0 < count < |q[0].item|
    ensures Take(q, count) == Taken(q[0].item[..count], Behead(q, count), 0)
  {}

  /** Taking bytes goes head by head. */
  lemma TakeByHeads(q: seq<Entry<Bytes>>, count: nat, n: nat)
    requires Sized(q) && q != [] && 0 < count <= Total(q)
    requires n == if count < |q[0].item| then count else |q[0].item|
    ensures var rest := Behead(q, n);
            && Sized(rest) && count - n <= Total(rest)
            && Take(q, count).rest == Take(rest, count - n).rest
            && Take(q, count).bytes == q[0].item[..n] + Take(rest, count - n).bytes
  {
    var head := q[0].item;
    BeheadSized(q, n);
    if n < |head| {
      TakePartHead(q, count);
      assert head[..n] + [] == head[..n];
    } else {
      TakeWholeHead(q, count, Take(q[1..], count - |head|));
      assert head[..n] == head;
    }
  }

  /** One turn of the copy loop: what the head chunk has, as far as it is wanted. */
  method MoveHead(queue: Queue<Bytes>, d: Descriptor, remaining: nat) returns (n: nat)
    requires queue.Valid() && d.Shaped() && Sized(queue.Contents()) && queue.Contents() != []
    requires d.bytesFilled + remaining <= d.byteLength
    modifies queue, d`bytesFilled, d.buffer
    ensures queue.Valid() && d.Shaped()
    ensures var head := old(queue.Contents())[0].item;
            && n == (if remaining < |head| then remaining else |head|)
            && queue.Contents() == Behead(old(queue.Contents()), n)
            && d.Value() == old(d.Value()).(filled := old(d.Value()).filled + head[..n])
            && d.bytesFilled == old(d.bytesFilled) + n
  {
    var head := queue.Peek().value;
    n := if remaining < |head| then remaining else |head|;
    d.Append(head[..n]);
    if n == |head| {
      var _ := queue.Shift();
    } else {
      queue.ConsumeHead(head[n..], n);
    }
  }

  /** Moves `count` bytes off the queue into a descriptor: the copy loop of
      fillPullIntoFromQueue, which also runs through zero-length chunks. */
  method MoveBytes(queue: Queue<Bytes>, d: Descriptor, count: nat)
    requires queue.Valid() && d.Shaped() && Sized(queue.Contents())
    requires count <= Total(queue.Contents()) && d.bytesFilled + count <= d.byteLength
    modifies queue, d`bytesFilled, d.buffer
    ensures queue.Valid() && d.Shaped()
    ensures var t := Take(old(queue.Contents()), count);
            && queue.Contents() == t.rest
            && d.Value() == old(d.Value()).(filled := old(d.Value()).filled + t.bytes)
  {
    var remaining: nat := count;
    ghost var goal := Take(queue.Contents(), count);
    ghost var target := d.Filled() + goal.bytes;
    while remaining > 0
      invariant queue.Valid() && d.Shaped() && Sized(queue.Contents())
      invariant remaining <= Total(queue.Contents()) && d.bytesFilled + remaining <= d.byteLength
      invariant goal.rest == Take(queue.Contents(), remaining).rest
      invariant target == d.Filled() + Take(queue.Contents(), remaining).bytes
      invariant d.Value() == old(d.Value()).(filled := d.Filled())
      decreases queue.Length(), remaining
    {
      ghost var q, filled := queue.Contents(), d.Filled();
      var n := MoveHead(queue, d, remaining);
      TakeByHeads(q, remaining, n);
      Concat(filled, q[0].item[..n], Take(queue.Contents(), remaining - n).bytes);
      remaining := remaining - n;
    }
    assert d.Filled() + [] == d.Filled();
  }

  /** fillPullIntoFromQueue. */
  method FillPullIntoFromQueue(queue: Queue<Bytes>, d: Descriptor) returns (ready: bool)
    requires queue.Valid() && d.Shaped() && Sized(queue.Contents()) && Unfilled(d.Value())
    modifies queue, d`bytesFilled, d.buffer
    ensures queue.Valid() && d.Shaped()
    ensures var f := FillPullInto(old(queue.Contents()), old(d.Value()));
            queue.Contents() == f.queue && d.Value() == f.desc && ready == f.ready
  {
    var room := d.byteLength - d.bytesFilled;
    var maxBytesToCopy := if queue.totalSize < room then queue.totalSize else room;
    var maxBytesFilled := d.bytesFilled + maxBytesToCopy;
    var maxAlignedBytes := maxBytesFilled - maxBytesFilled % d.elementSize;
    var remaining := maxBytesToCopy;
    ready := false;
    if maxAlignedBytes >= d.minimumFill {
      remaining := maxAlignedBytes - d.bytesFilled;
      ready := true;
    }
    MoveBytes(queue, d, remaining);
  }

  // ------------------------------------------------------------- descriptor lists

  ghost predicate AllShaped(ds: seq<Descriptor>)
    reads ds
  {
    forall d :: d in ds ==> d.Shaped()
  }

  function Buffers(ds: seq<Descriptor>): set<object> {
    set d | d in ds :: d.buffer
  }

  /** No two descriptors of a list share a buffer: each read handed its own over. */
  ghost predicate Apart(ds: seq<Descriptor>) {
    forall i, j :: 0 <= i < j < |ds| ==> ds[i] != ds[j] && ds[i].buffer != ds[j].buffer
  }

  ghost function Values(ds: seq<Descriptor>): (r: seq<PullInto>)
    requires AllShaped(ds)
    reads ds, Buffers(ds)
    ensures |r| == |ds|
  {
    seq(|ds|, i requires 0 <= i < |ds| reads ds, Buffers(ds) => ValueAt(ds, i))
  }

  lemma ValuesCons(d: Descriptor, ds: seq<Descriptor>)
    requires AllShaped([d] + ds) && AllShaped(ds) && d.Shaped()
    ensures Values([d] + ds) == [d.Value()] + Values(ds)
  {}

  ghost function ValueAt(ds: seq<Descriptor>, i: nat): PullInto
    requires i < |ds|
    reads ds, Buffers(ds)
  {
    if ds[i].Shaped() then ds[i].Value() else PullInto([], 0, 0, 1, false)
  }

  /** Fills the descriptor at `k` and leaves the others alone. */
  method FillAt(queue: Queue<Bytes>, ds: seq<Descriptor>, k: nat) returns (ready: bool)
    requires queue.Valid() && Sized(queue.Contents()) && AllShaped(ds) && Apart(ds)
    requires k < |ds| && Unfilled(ds[k].Value())
    modifies queue, ds[k], ds[k].buffer
    ensures queue.Valid() && AllShaped(ds)
    ensures var f := FillPullInto(old(queue.Contents()), old(Values(ds))[k]);
            queue.Contents() == f.queue && Values(ds) == old(Values(ds))[k := f.desc] && ready == f.ready
  {
    ready := FillPullIntoFromQueue(queue, ds[k]);
    forall i | 0 <= i < |ds| && i != k
      ensures ds[i].Shaped() && ds[i].Value() == old(ds[i].Value())
    {
      assert ds[i] != ds[k] && ds[i].buffer != ds[k].buffer;
    }
  }

  /** The bytes go behind those of the first descriptor; the others share nothing with it. */
  method AppendToFirst(ds: seq<Descriptor>, data: Bytes)
    requires AllShaped(ds) && Apart(ds) && ds != []
    requires ds[0].bytesFilled + |data| <= ds[0].byteLength
    modifies ds[0], ds[0].buffer
    ensures AllShaped(ds)
    ensures var vs := old(Values(ds)); Values(ds) == [vs[0].(filled := vs[0].filled + data)] + vs[1..]
  {
    ghost var vs := Values(ds);
    ds[0].Append(data);
    forall i | 1 <= i < |ds|
      ensures ds[i].Shaped() && ds[i].Value() == vs[i]
    {
      assert ds[i] != ds[0] && ds[i].buffer != ds[0].buffer;
      assert vs[i] == old(ds[i].Value());
    }
  }

  /** What one turn of the process loop leaves to the others. */
  lemma ProcessOnce(q: seq<Entry<Bytes>>, ds: seq<PullInto>)
    requires Sized(q) && Line(ds) && NoneReleased(ds) && ds != [] && Total(q) != 0
    ensures var f := FillPullInto(q, ds[0]);
            var next := [f.desc] + ds[1..];
            && Sized(f.queue) && f.missing == 0
            && (if f.ready then
                  var p := Process(f.queue, ds[1..]);
                  Process(q, ds) == p.(filled := [f.desc] + p.filled)
                else
                  && Line(next) && NoneReleased(next) && Total(f.queue) < Total(q)
                  && Process(q, ds) == Process(f.queue, next))
  {
    FillEffect(q, ds[0]);
  }

  /** With the descriptors before `done` filled, the rest of the loop leads to `goal`. */
  ghost predicate OnTrack(goal: Processed, q: seq<Entry<Bytes>>, vs: seq<PullInto>, done: nat) {
    && done <= |vs| && Sized(q)
    && Line(vs[done..]) && NoneReleased(vs[done..])
    && var p := Process(q, vs[done..]);
       goal == p.(filled := vs[..done] + p.filled)
  }

  lemma StaysOnTrack(goal: Processed, q: seq<Entry<Bytes>>, vs: seq<PullInto>, done: nat)
    requires OnTrack(goal, q, vs, done) && done < |vs| && Total(q) != 0
    ensures var f := FillPullInto(q, vs[done]);
            && OnTrack(goal, f.queue, vs[done := f.desc], if f.ready then done + 1 else done)
            && (!f.ready ==> Total(f.queue) < Total(q))
  {
    var f := FillPullInto(q, vs[done]);
    var next := vs[done := f.desc];
    ProcessOnce(q, vs[done..]);
    assert vs[done..][0] == vs[done];
    assert next[..done] == vs[..done];
    assert next[done..] == [f.desc] + vs[done..][1..];
    if f.ready {
      assert next[done + 1..] == vs[done..][1..];
      assert next[..done + 1] == vs[..done] + [f.desc];
      Concat(vs[..done], [f.desc], Process(f.queue, vs[done..][1..]).filled);
    }
  }

  /** Fills the pending descriptors in turn: processPullIntosUsingQueue.  Those before `done`
      are complete and taken off the line. */
  method ProcessPending(queue: Queue<Bytes>, pending: seq<Descriptor>) returns (done: nat)
    requires queue.Valid() && Sized(queue.Contents())
    requires AllShaped(pending) && Apart(pending)
    requires Line(Values(pending)) && NoneReleased(Values(pending))
    modifies queue, pending, Buffers(pending)
    ensures queue.Valid() && AllShaped(pending) && done <= |pending|
    ensures var p := Process(old(queue.Contents()), old(Values(pending)));
            && queue.Contents() == p.queue && done == |p.filled|
            && Values(pending)[..done] == p.filled && Values(pending)[done..] == p.pullIntos
  {
    done := 0;
    ghost var goal := Process(queue.Contents(), Values(pending));
    assert Values(pending)[0..] == Values(pending);
    assert Values(pending)[..0] + goal.filled == goal.filled;
    hide Process, FillPullInto, Line, NoneReleased;
    while done < |pending| && queue.totalSize != 0
      invariant queue.Valid() && AllShaped(pending)
      invariant OnTrack(goal, queue.Contents(), Values(pending), done)
      decreases |pending| - done, queue.totalSize
    {
      StaysOnTrack(goal, queue.Contents(), Values(pending), done);
      NextUnfilled(goal, queue.Contents(), Values(pending), done);
      assert Values(pending)[done] == pending[done].Value();
      var ready := FillAt(queue, pending, done);
      if ready {
        done := done + 1;
      }
    }
    TrackEnds(goal, queue.Contents(), Values(pending), done);
  }

  lemma NextUnfilled(goal: Processed, q: seq<Entry<Bytes>>, vs: seq<PullInto>, done: nat)
    requires OnTrack(goal, q, vs, done) && done < |vs|
    ensures Unfilled(vs[done])
  {
    assert vs[done..][0] == vs[done];
  }

  lemma TrackEnds(goal: Processed, q: seq<Entry<Bytes>>, vs: seq<PullInto>, done: nat)
    requires OnTrack(goal, q, vs, done) && (done == |vs| || Total(q) == 0)
    ensures q == goal.queue && done == |goal.filled| && vs[..done] == goal.filled && vs[done..] == goal.pullIntos
  {
    assert vs[..done] + [] == vs[..done];
  }

  lemma ProcessFaultless(q: seq<Entry<Bytes>>, ds: seq<PullInto>)
    requires Sized(q) && Line(ds) && NoneReleased(ds)
    ensures Process(q, ds).faults == 0
  {
    ProcessEffect(q, ds);
  }

  lemma Concat<T>(a: seq<T>, b: seq<T>, c: seq<T>)
    ensures a + (b + c) == (a + b) + c
  {}
}
