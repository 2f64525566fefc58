/** What every run of a byte stream keeps. */
module ByteProofs {
  import opened Base
  import opened Fifo
  import opened ByteSpec

  // -------------------------------------------------------------- queued bytes

  function Flatten(q: seq<Entry<Bytes>>): Bytes {
    if q == [] then [] else q[0].item + Flatten(q[1..])
  }

  /** Every chunk is charged at its length. */
  ghost predicate Sized(q: seq<Entry<Bytes>>) {
    forall i :: 0 <= i < |q| ==> q[i].size == |q[i].item|
  }

  lemma {:induction false} FlattenLength(q: seq<Entry<Bytes>>)
    requires Sized(q)
    ensures |Flatten(q)| == Total(q)
  {
    if q != [] {
      FlattenLength(q[1..]);
    }
  }

  lemma {:induction false} FlattenAppend(q: seq<Entry<Bytes>>, e: Entry<Bytes>)
    ensures Flatten(q + [e]) == Flatten(q) + e.item
  {
    if q == [] {
      assert q + [e] == [e];
      assert [e][1..] == [];
    } else {
      assert (q + [e])[1..] == q[1..] + [e];
      FlattenAppend(q[1..], e);
    }
  }

  /** Taking bytes off the queue takes exactly the first ones, and leaves the others. */
  lemma {:induction false} TakeEffect(q: seq<Entry<Bytes>>, count: nat)
    requires Sized(q) && count <= Total(q)
    ensures var t := Take(q, count);
            && t.missing == 0 && |t.bytes| == count
            && Sized(t.rest)
            && Flatten(q) == t.bytes + Flatten(t.rest)
            && Total(t.rest) == Total(q) - count
    decreases |q|
  {
    if count > 0 {
      var head := q[0].item;
      if |head| <= count {
        TakeEffect(q[1..], count - |head|);
      } else {
        assert head == head[..count] + head[count..];
        var rest := [Entry(head[count..], |head| - count)] + q[1..];
        assert rest[1..] == q[1..];
      }
    }
  }

  // -------------------------------------------------------------- descriptors

  /** A descriptor asks for whole elements, at least one, and no more than it has room for. */
  ghost predicate WellFormed(d: PullInto) {
    && 0 < d.minimumFill <= d.byteLength
    && d.minimumFill % d.elementSize == 0
    && d.byteLength % d.elementSize == 0
  }

  ghost predicate Unfilled(d: PullInto) {
    WellFormed(d) && |d.filled| < d.minimumFill
  }

  /** What a read may be handed: whole elements, at least `min` of them. */
  ghost predicate Complete(d: PullInto) {
    && WellFormed(d)
    && d.minimumFill <= |d.filled| <= d.byteLength
    && |d.filled| % d.elementSize == 0
  }

  lemma MulMonotone(a: int, b: int, k: nat)
    requires a <= b
    ensures a * k <= b * k
  {
    assert b * k == a * k + (b - a) * k;
  }

  lemma MultipleMod(q: int, k: ElementSize)
    ensures (q * k) % k == 0
  {
    var p, r := (q * k) / k, (q * k) % k;
    assert q * k == p * k + r;
    if q < p {
      MulMonotone(q + 1, p, k);
    } else if q > p {
      MulMonotone(p + 1, q, k);
    }
  }

  lemma ModMultiple(n: nat, k: ElementSize)
    ensures (n - n % k) % k == 0
  {
    assert n - n % k == (n / k) * k;
    MultipleMod(n / k, k);
  }

  /** Rounding down to whole elements never goes below a whole number of them. */
  lemma AlignedAtLeast(n: nat, m: nat, k: ElementSize)
    requires m <= n && m % k == 0
    ensures n - n % k >= m
  {
    var a, b := n / k, m / k;
    assert n == a * k + n % k && m == b * k;
    if a < b {
      MulMonotone(a + 1, b, k);
    } else {
      MulMonotone(b, a, k);
    }
  }

  /** A descriptor has taken all it can: it has no room, or less than an element is left. */
  ghost predicate Full(d: PullInto, left: nat) {
    |d.filled| == d.byteLength || left < d.elementSize
  }

  /** How much a descriptor takes: as many whole elements as there are and fit, once that is
      enough, else all there is. */
  ghost predicate Amount(total: nat, d: PullInto, ready: bool, count: nat) {
    && count <= total
    && (ready ==>
          && d.minimumFill <= |d.filled| + count <= d.byteLength
          && (|d.filled| + count) % d.elementSize == 0
          && (|d.filled| + count == d.byteLength || total - count < d.elementSize))
    && (!ready ==> count == total && |d.filled| + total < d.minimumFill)
  }

  lemma FillAmount(q: seq<Entry<Bytes>>, d: PullInto, n: nat, aligned: int)
    requires Unfilled(d) && n == |d.filled| + Min(Total(q), d.byteLength - |d.filled|)
    requires aligned == n - n % d.elementSize
    ensures Amount(Total(q), d, aligned >= d.minimumFill,
                   FloorAtZero(if aligned >= d.minimumFill then aligned - |d.filled| else n - |d.filled|))
  {
    ModMultiple(n, d.elementSize);
    if aligned < d.minimumFill {
      NotReadyTakesAll(q, d);
    }
  }

  /** Taking that amount. */
  lemma FillTakes(q: seq<Entry<Bytes>>, d: PullInto, ready: bool, count: nat, f: Fill)
    requires Sized(q) && Unfilled(d) && Amount(Total(q), d, ready, count)
    requires var t := Take(q, count); f == Fill(t.rest, d.(filled := d.filled + t.bytes), ready, t.missing)
    ensures f.missing == 0 && Sized(f.queue)
    ensures f.desc.filled + Flatten(f.queue) == d.filled + Flatten(q)
    ensures Total(f.queue) <= Total(q)
    ensures f.ready ==> Complete(f.desc) && Full(f.desc, Total(f.queue))
    ensures !f.ready ==> Unfilled(f.desc) && Total(f.queue) == 0 && Flatten(f.queue) == []
  {
    TakeEffect(q, count);
    FlattenLength(f.queue);
    var t := Take(q, count);
    assert d.filled + (t.bytes + Flatten(t.rest)) == (d.filled + t.bytes) + Flatten(t.rest);
  }

  /** Filling moves bytes from the front of the queue to the end of the descriptor.  Either
      that completes it, with as many elements as fit or are there, or the queue is left without
      bytes. */
  lemma FillEffect(q: seq<Entry<Bytes>>, d: PullInto)
    requires Sized(q) && Unfilled(d)
    ensures var f := FillPullInto(q, d);
            && f.missing == 0 && Sized(f.queue)
            && f.desc == d.(filled := f.desc.filled)
            && f.desc.filled + Flatten(f.queue) == d.filled + Flatten(q)
            && Total(f.queue) <= Total(q)
            && (f.ready ==> Complete(f.desc) && Full(f.desc, Total(f.queue)))
            && (!f.ready ==> Unfilled(f.desc) && Total(f.queue) == 0 && Flatten(f.queue) == [])
  {
    var held := |d.filled|;
    var n := held + Min(Total(q), d.byteLength - held);
    var aligned := n - n % d.elementSize;
    var ready := aligned >= d.minimumFill;
    FillAmount(q, d, n, aligned);
    FillTakes(q, d, ready, FloorAtZero(if ready then aligned - held else n - held), FillPullInto(q, d));
  }

  /** Short of the minimum, the queue was the limit, not the room. */
  lemma NotReadyTakesAll(q: seq<Entry<Bytes>>, d: PullInto)
    requires Unfilled(d)
    requires var maxBytesFilled := |d.filled| + Min(Total(q), d.byteLength - |d.filled|);
             maxBytesFilled - maxBytesFilled % d.elementSize < d.minimumFill
    ensures Total(q) < d.byteLength - |d.filled|
    ensures |d.filled| + Total(q) < d.minimumFill
  {
    var n := |d.filled| + Min(Total(q), d.byteLength - |d.filled|);
    if n >= d.minimumFill {
      AlignedAtLeast(n, d.minimumFill, d.elementSize);
    }
  }

  // ------------------------------------------------------------ processing them

  function Held(ds: seq<PullInto>): Bytes {
    if ds == [] then [] else ds[0].filled
  }

  function Fills(ds: seq<PullInto>): Bytes {
    if ds == [] then [] else ds[0].filled + Fills(ds[1..])
  }

  /** Pending descriptors of which only the first holds bytes. */
  ghost predicate Line(ds: seq<PullInto>) {
    && (forall i :: 0 <= i < |ds| ==> Unfilled(ds[i]))
    && (forall i :: 1 <= i < |ds| ==> ds[i].filled == [])
  }

  ghost predicate NoneReleased(ds: seq<PullInto>) {
    forall i :: 0 <= i < |ds| ==> !ds[i].released
  }

  ghost predicate AllComplete(ds: seq<PullInto>) {
    forall i :: 0 <= i < |ds| ==> Complete(ds[i])
  }

  /** Each of these has taken all it could before the next got anything. */
  ghost predicate AllFull(ds: seq<PullInto>, left: nat) {
    ds == [] || (Full(ds[0], |Fills(ds[1..])| + left) && AllFull(ds[1..], left))
  }

  /** What `Process` promises of its result. */
  ghost predicate Processes(q: seq<Entry<Bytes>>, ds: seq<PullInto>, p: Processed) {
    && p.faults == 0 && Sized(p.queue)
    && Line(p.pullIntos) && NoneReleased(p.pullIntos) && AllComplete(p.filled)
    && AllFull(p.filled, |Held(p.pullIntos)| + Total(p.queue))
    && |p.filled| + |p.pullIntos| == |ds|
    && (p.pullIntos != [] ==> Total(p.queue) == 0)
    && Fills(p.filled) + Held(p.pullIntos) + Flatten(p.queue) == Held(ds) + Flatten(q)
  }

  lemma ProcessReady(q: seq<Entry<Bytes>>, ds: seq<PullInto>, f: Fill, p: Processed)
    requires Line(ds) && ds != [] && Complete(f.desc) && Sized(f.queue) && Full(f.desc, Total(f.queue))
    requires f.desc.filled + Flatten(f.queue) == Held(ds) + Flatten(q)
    requires Processes(f.queue, ds[1..], p)
    ensures Processes(q, ds, p.(filled := [f.desc] + p.filled))
  {
    FlattenLength(f.queue);
    FlattenLength(p.queue);
    assert Held(ds[1..]) == [] && [] + Flatten(f.queue) == Flatten(f.queue);
    assert ([f.desc] + p.filled)[1..] == p.filled;
    FourParts(f.desc.filled, Fills(p.filled), Held(p.pullIntos), Flatten(p.queue));
    hide Flatten, Complete;
  }

  lemma FourPartsFrom(a: Bytes, b: Bytes, c: Bytes, d: Bytes)
    ensures a + (b + c + d) == a + b + c + d
  {}

  lemma FourParts(a: Bytes, b: Bytes, c: Bytes, d: Bytes)
    ensures (a + b) + c + d == a + (b + c + d)
  {}

  /** Processing hands out complete descriptors in order and moves bytes, no more and no
      less: first into those, then into the descriptor now first, the rest stays queued. */
  lemma {:induction false} ProcessEffect(q: seq<Entry<Bytes>>, ds: seq<PullInto>)
    requires Sized(q) && Line(ds) && NoneReleased(ds)
    ensures Processes(q, ds, Process(q, ds))
    decreases |ds|, Total(q)
  {
    if ds != [] && Total(q) > 0 {
      FillEffect(q, ds[0]);
      var f := FillPullInto(q, ds[0]);
      if f.ready {
        ProcessEffect(f.queue, ds[1..]);
        ProcessReady(q, ds, f, Process(f.queue, ds[1..]));
      } else {
        ProcessEffect(f.queue, [f.desc] + ds[1..]);
      }
    }
  }

  // ------------------------------------------------------------- the invariant

  /** The reads in `ids`, each once, are exactly those still waiting. */
  ghost predicate Asks(answers: seq<Answer>, ids: seq<nat>) {
    && NoDuplicates(ids)
    && (forall k :: 0 <= k < |ids| ==> ids[k] < |answers| && answers[ids[k]].Waiting?)
    && (forall i :: 0 <= i < |answers| && answers[i].Waiting? ==> i in ids)
  }

  ghost predicate Reads(s: Stream) {
    && s.faults == 0
    && Asks(s.answers, s.waiters + s.readIntos)
    && (s.waiters != [] ==> s.reader.DefaultReader? && s.state.Readable?)
    && (s.readIntos != [] ==> s.reader.ByobReader? && !s.state.Errored?)
  }

  function ReleasedCount(ds: seq<PullInto>): nat {
    if ds != [] && ds[0].released then 1 else 0
  }

  /** Only the first descriptor holds bytes or is released; the others have a read each. */
  ghost predicate Descriptors(s: Stream) {
    && Line(s.pullIntos)
    && (forall i :: 1 <= i < |s.pullIntos| ==> !s.pullIntos[i].released)
    && |s.pullIntos| == |s.readIntos| + ReleasedCount(s.pullIntos)
    && (s.state.Errored? ==> s.pullIntos == [])
  }

  /** Delivered, then held by the first descriptor, then queued: the bytes supplied. */
  ghost predicate Conserved(s: Stream) {
    && Sized(s.queue)
    && (s.state.Readable? ==> s.delivered + Held(s.pullIntos) + Flatten(s.queue) == s.supplied)
    && s.delivered + Held(s.pullIntos) <= s.supplied
    && (s.state.Readable? && s.pullIntos != [] ==> Total(s.queue) == 0)
    && (!s.state.Readable? ==> s.queue == [])
  }

  ghost predicate Pulls(s: Stream) {
    && s.pullsOut <= 1
    && (s.pullAgain ==> s.pulling)
    && (s.pullsOut == 1 ==> s.pulling)
    && (s.state.Readable? && s.pulling ==> s.pullsOut == 1)
  }

  ghost predicate Core(s: Stream) {
    Reads(s) && Descriptors(s) && Conserved(s)
  }

  ghost predicate Inv(s: Stream) {
    Core(s) && Pulls(s)
  }

  lemma CallPullKeepsInv(s: Stream)
    requires Inv(s)
    ensures Inv(CallPullIfNeeded(s))
  {}

  /** No pull, close(), new read or change of reader came between the two. */
  ghost predicate SamePulls(s: Stream, t: Stream) {
    && t.pulling == s.pulling && t.pullAgain == s.pullAgain && t.pullsOut == s.pullsOut
    && t.pulls == s.pulls && t.closeRequested == s.closeRequested && t.reader == s.reader && t.asked == s.asked
    && (t.state == s.state || !t.state.Readable?)
  }

  lemma FromCore(s: Stream, t: Stream)
    requires Pulls(s) && SamePulls(s, t) && Core(t)
    ensures Inv(t)
  {}

  // ----------------------------------------------------------------- answering

  lemma AskHead(answers: seq<Answer>, ids: seq<nat>, a: Answer)
    requires Asks(answers, ids) && ids != [] && !a.Waiting?
    ensures Asks(answers[ids[0] := a], ids[1..])
  {}

  lemma AskMore(answers: seq<Answer>, ids: seq<nat>)
    requires Asks(answers, ids)
    ensures Asks(answers + [Waiting], ids + [|answers|])
  {}

  lemma AskSettled(answers: seq<Answer>, ids: seq<nat>, a: Answer)
    requires Asks(answers, ids) && !a.Waiting?
    ensures Asks(answers + [a], ids)
  {}

  lemma {:induction false} SettleWaitersEffect(s: Stream, a: Answer)
    requires Asks(s.answers, s.waiters + s.readIntos) && s.readIntos == [] && !a.Waiting? && !Carries(a)
    ensures var t := SettleWaiters(s, a);
            && t == s.(waiters := [], answers := t.answers)
            && Asks(t.answers, t.waiters + t.readIntos)
    decreases |s.waiters|
  {
    assert s.waiters + s.readIntos == s.waiters;
    if s.waiters != [] {
      AskHead(s.answers, s.waiters, a);
      var t := Settle(s.(waiters := s.waiters[1..]), s.waiters[0], a);
      assert t.waiters + t.readIntos == s.waiters[1..];
      SettleWaitersEffect(t, a);
    }
  }

  lemma {:induction false} SettleReadIntosEffect(s: Stream, a: Answer)
    requires Asks(s.answers, s.waiters + s.readIntos) && s.waiters == [] && !a.Waiting? && !Carries(a)
    ensures var t := SettleReadIntos(s, a);
            && t == s.(readIntos := [], answers := t.answers)
            && Asks(t.answers, t.waiters + t.readIntos)
    decreases |s.readIntos|
  {
    assert s.waiters + s.readIntos == s.readIntos;
    if s.readIntos != [] {
      AskHead(s.answers, s.readIntos, a);
      var t := Settle(s.(readIntos := s.readIntos[1..]), s.readIntos[0], a);
      assert t.waiters + t.readIntos == s.readIntos[1..];
      SettleReadIntosEffect(t, a);
    }
  }

  lemma OneKindOfRead(s: Stream)
    requires Reads(s)
    ensures s.waiters == [] || s.readIntos == []
  {}

  // ------------------------------------------------------------------- closing

  lemma CloseStreamKeepsInv(s: Stream)
    requires Inv(s) && s.state.Readable? && s.queue == []
    ensures Inv(CloseStream(s))
    ensures var t := CloseStream(s); t == s.(state := Closed, waiters := [], answers := t.answers)
  {
    if s.waiters != [] {
      OneKindOfRead(s);
      SettleWaitersEffect(s.(state := Closed), Done);
    }
  }

  lemma ErrorStreamEffect(s: Stream, reason: Reason)
    requires Reads(s) && s.state.Readable?
    ensures var t := ErrorStream(s, reason);
            && t == s.(state := Errored, error := reason, queue := [], pullIntos := [], waiters := [],
                       readIntos := [], answers := t.answers)
            && Asks(t.answers, t.waiters + t.readIntos)
  {
    OneKindOfRead(s);
    var t := s.(state := Errored, error := reason, queue := [], pullIntos := []);
    if s.waiters != [] {
      SettleWaitersEffect(t, ReadFailed(reason));
    }
    SettleReadIntosEffect(SettleWaiters(t, ReadFailed(reason)), ReadFailed(reason));
  }

  lemma PrefixOfPrefix(a: Bytes, b: Bytes, c: Bytes)
    requires a + b <= c
    ensures a <= c
  {
    assert a == (a + b)[..|a|];
  }

  lemma ErrorStreamKeepsInv(s: Stream, reason: Reason)
    requires Inv(s)
    ensures Inv(ErrorStream(s, reason))
  {
    if s.state.Readable? {
      ErrorStreamEffect(s, reason);
      PrefixOfPrefix(s.delivered, Held(s.pullIntos), s.supplied);
    }
  }

  lemma CancelEffect(s: Stream)
    requires Reads(s) && s.state.Readable?
    ensures var t := Cancel(s);
            && t == s.(state := Closed, queue := [], pullIntos := [], waiters := [], readIntos := [],
                       answers := t.answers)
            && Asks(t.answers, t.waiters + t.readIntos)
  {
    OneKindOfRead(s);
    var t := s.(state := Closed);
    if s.waiters != [] {
      SettleWaitersEffect(t, Done);
    }
    SettleReadIntosEffect(SettleWaiters(t, Done), Done);
  }

  lemma CancelKeepsInv(s: Stream)
    requires Inv(s)
    ensures Inv(Cancel(s))
  {
    if s.state.Readable? {
      CancelEffect(s);
      PrefixOfPrefix(s.delivered, Held(s.pullIntos), s.supplied);
    }
  }

  lemma ControllerCloseKeepsInv(s: Stream)
    requires Inv(s)
    ensures Inv(ControllerClose(s))
  {
    if CanCloseOrEnqueue(s) && s.queue == [] {
      ErrorStreamKeepsInv(s, InvalidState);
      CloseStreamKeepsInv(s);
    }
  }

  function OnlyReleased(ds: seq<PullInto>): seq<PullInto> {
    if ds == [] then [] else [ds[0].(released := true)]
  }

  lemma ReleaseEffect(s: Stream)
    requires Reads(s) && !s.reader.NoReader?
    ensures var t := Release(s);
            && t == s.(reader := NoReader, pullIntos := OnlyReleased(s.pullIntos), waiters := [], readIntos := [],
                       answers := t.answers)
            && Asks(t.answers, t.waiters + t.readIntos)
  {
    OneKindOfRead(s);
    var t := s.(reader := NoReader, pullIntos := OnlyReleased(s.pullIntos));
    if s.reader.ByobReader? {
      SettleReadIntosEffect(t, ReadFailed(Reason.Released));
    } else {
      SettleWaitersEffect(t, ReadFailed(Reason.Released));
    }
  }

  lemma ReleaseKeepsInv(s: Stream)
    requires Inv(s) && !s.reader.NoReader?
    ensures Inv(Release(s))
  {
    ReleaseEffect(s);
    assert Held(OnlyReleased(s.pullIntos)) == Held(s.pullIntos);
    assert Line(OnlyReleased(s.pullIntos));
  }

  // --------------------------------------------------------- handing views over

  /** A stream between filling its descriptors and handing them to their reads. */
  ghost predicate Committing(s: Stream, ds: seq<PullInto>) {
    && s.faults == 0 && s.waiters == []
    && Asks(s.answers, s.readIntos) && |ds| <= |s.readIntos|
    && (forall i :: 0 <= i < |ds| ==> |ds[i].filled| <= ds[i].byteLength)
  }

  /** `t` is `s` with the reads of `ds` answered. */
  ghost predicate Committed(s: Stream, ds: seq<PullInto>, t: Stream) {
    && |ds| <= |s.readIntos|
    && t == s.(readIntos := s.readIntos[|ds|..], answers := t.answers, order := t.order,
               delivered := s.delivered + Fills(ds))
  }

  lemma CommittedTwice(s: Stream, ds: seq<PullInto>, t: Stream, u: Stream)
    requires ds != [] && Committed(s, ds[..1], t) && Committed(t, ds[1..], u)
    ensures Committed(s, ds, u)
  {
    assert ds == ds[..1] + ds[1..];
    assert Fills(ds[..1]) == ds[0].filled by { assert ds[..1][1..] == []; }
    assert s.readIntos[1..][|ds[1..]|..] == s.readIntos[|ds|..];
    assert s.delivered + ds[0].filled + Fills(ds[1..]) == s.delivered + Fills(ds);
  }

  lemma {:induction false} CommitAllEffect(s: Stream, ds: seq<PullInto>)
    requires Committing(s, ds)
    ensures Committed(s, ds, CommitAll(s, ds))
    ensures Asks(CommitAll(s, ds).answers, CommitAll(s, ds).readIntos)
    decreases |ds|
  {
    if ds == [] {
      assert s.readIntos[0..] == s.readIntos && s.delivered + [] == s.delivered;
    } else {
      CommitOne(s, ds);
      var t := Commit(s, ds[0]);
      CommitAllEffect(t, ds[1..]);
      CommittedTwice(s, ds, t, CommitAll(t, ds[1..]));
    }
  }

  lemma CommitOne(s: Stream, ds: seq<PullInto>)
    requires Committing(s, ds) && ds != []
    ensures var t := Commit(s, ds[0]);
            Committing(t, ds[1..]) && Committed(s, ds[..1], t)
  {
    assert Fills(ds[..1]) == ds[0].filled by { assert ds[..1][1..] == []; }
    assert ds[..1] == [ds[0]];
    AskHead(s.answers, s.readIntos, View(ds[0].filled, s.state.Closed?));
  }

  /** Bytes for the pending BYOB reads are in the queue, not yet in their descriptors. */
  ghost predicate Unprocessed(s: Stream) {
    && s.faults == 0 && s.waiters == [] && s.state.Readable?
    && Asks(s.answers, s.readIntos)
    && (s.readIntos != [] ==> s.reader.ByobReader?)
    && Line(s.pullIntos) && NoneReleased(s.pullIntos) && |s.pullIntos| == |s.readIntos|
    && Sized(s.queue)
  }

  /** The descriptors in `ds` are complete and taken off the line; their reads still wait. */
  ghost predicate Committable(s: Stream, ds: seq<PullInto>) {
    && s.faults == 0 && s.waiters == [] && s.state.Readable?
    && Asks(s.answers, s.readIntos)
    && (s.readIntos != [] ==> s.reader.ByobReader?)
    && Line(s.pullIntos) && NoneReleased(s.pullIntos) && |ds| + |s.pullIntos| == |s.readIntos|
    && AllComplete(ds)
    && Sized(s.queue)
    && (s.pullIntos != [] ==> Total(s.queue) == 0)
    && s.delivered + Fills(ds) + Held(s.pullIntos) + Flatten(s.queue) == s.supplied
  }

  lemma PrefixOfSum(a: Bytes, b: Bytes, c: Bytes)
    requires a + b == c
    ensures a <= c
  {}

  lemma CommitAllCore(s: Stream, ds: seq<PullInto>)
    requires Committable(s, ds)
    ensures var t := CommitAll(s, ds);
            && Core(t) && SamePulls(s, t) && t.supplied == s.supplied && t.state.Readable?
  {
    CommitAllEffect(s, ds);
    var t := CommitAll(s, ds);
    assert t.waiters + t.readIntos == t.readIntos;
    assert Reads(t);
    assert Descriptors(t);
    PrefixOfSum(t.delivered + Held(t.pullIntos), Flatten(t.queue), t.supplied);
    assert Conserved(t);
  }

  lemma ProcessCommittable(s: Stream)
    requires Unprocessed(s)
    requires s.delivered + Held(s.pullIntos) + Flatten(s.queue) == s.supplied
    ensures Committable(ProcessPullIntos(s).0, ProcessPullIntos(s).1)
  {
    ProcessEffect(s.queue, s.pullIntos);
    var p := Process(s.queue, s.pullIntos);
    FourPartsFrom(s.delivered, Fills(p.filled), Held(p.pullIntos), Flatten(p.queue));
    hide Flatten, Complete, Unfilled;
    assert s.delivered + (Held(s.pullIntos) + Flatten(s.queue)) == s.supplied;
  }

  lemma ProcessAndCommitCore(s: Stream)
    requires Unprocessed(s)
    requires s.delivered + Held(s.pullIntos) + Flatten(s.queue) == s.supplied
    ensures var t := ProcessAndCommit(s);
            && Core(t) && SamePulls(s, t) && t.supplied == s.supplied && t.state.Readable?
  {
    ProcessCommittable(s);
    CommitAllCore(ProcessPullIntos(s).0, ProcessPullIntos(s).1);
  }

  /** The first descriptor has reached its minimum, and is about to be handed over. */
  ghost predicate Completing(s: Stream) {
    && s.pullIntos != [] && s.waiters == [] && s.faults == 0 && s.state.Readable? && s.reader.ByobReader?
    && WellFormed(s.pullIntos[0]) && !s.pullIntos[0].released
    && s.pullIntos[0].minimumFill <= |s.pullIntos[0].filled| <= s.pullIntos[0].byteLength
    && Line(s.pullIntos[1..]) && Held(s.pullIntos[1..]) == [] && NoneReleased(s.pullIntos[1..])
    && |s.pullIntos| == |s.readIntos| && Asks(s.answers, s.readIntos)
    && Sized(s.queue) && Total(s.queue) == 0
    && s.delivered + Held(s.pullIntos) == s.supplied
  }

  lemma WholeComplete(d: PullInto, whole: int)
    requires WellFormed(d) && d.minimumFill <= |d.filled| <= d.byteLength
    requires whole == |d.filled| - |d.filled| % d.elementSize
    ensures 0 <= whole <= |d.filled| && Complete(d.(filled := d.filled[..whole]))
  {
    ModMultiple(|d.filled|, d.elementSize);
    AlignedAtLeast(|d.filled|, d.minimumFill, d.elementSize);
  }

  lemma RequeueEffect(q: seq<Entry<Bytes>>, bytes: Bytes)
    requires Sized(q) && Total(q) == 0
    ensures Flatten(q) == []
    ensures Sized(q + [Entry(bytes, |bytes|)]) && Flatten(q + [Entry(bytes, |bytes|)]) == bytes
  {
    FlattenLength(q);
    FlattenAppend(q, Entry(bytes, |bytes|));
  }

  lemma TakeFirstEffect(s: Stream)
    requires Completing(s)
    ensures var (t, first) := TakeFirst(s);
            && t == s.(pullIntos := s.pullIntos[1..], queue := t.queue)
            && Sized(t.queue) && Complete(first)
            && first.filled + Flatten(t.queue) == s.pullIntos[0].filled
  {
    var d := s.pullIntos[0];
    var whole := |d.filled| - |d.filled| % d.elementSize;
    WholeComplete(d, whole);
    RequeueEffect(s.queue, d.filled[whole..]);
    assert d.filled == d.filled[..whole] + d.filled[whole..];
  }

  lemma DeliveredBehind(a: Bytes, b: Bytes, c: Bytes, d: Bytes, e: Bytes)
    ensures a + (b + c) + d + e == a + (b + (c + d + e))
  {}

  lemma CommittableBehind(s: Stream, t: Stream, first: PullInto, p: Processed)
    requires Completing(s) && t == s.(pullIntos := s.pullIntos[1..], queue := t.queue)
    requires Complete(first) && first.filled + Flatten(t.queue) == s.pullIntos[0].filled
    requires Processes(t.queue, t.pullIntos, p)
    ensures Committable(t.(queue := p.queue, pullIntos := p.pullIntos, faults := t.faults + p.faults),
                        [first] + p.filled)
  {
    assert ([first] + p.filled)[1..] == p.filled;
    DeliveredBehind(s.delivered, first.filled, Fills(p.filled), Held(p.pullIntos), Flatten(p.queue));
  }

  lemma CompleteFirstCommittable(s: Stream)
    requires Completing(s)
    ensures var (t, first) := TakeFirst(s);
            var (u, filled) := ProcessPullIntos(t);
            Committable(u, [first] + filled)
  {
    TakeFirstEffect(s);
    var (t, first) := TakeFirst(s);
    ProcessEffect(t.queue, t.pullIntos);
    CommittableBehind(s, t, first, Process(t.queue, t.pullIntos));
  }

  lemma CompleteFirstCore(s: Stream)
    requires Completing(s)
    ensures var t := CompleteFirst(s);
            && Core(t) && SamePulls(s, t) && t.supplied == s.supplied && t.state.Readable?
  {
    assert s.pullIntos != [] && s.state.Readable?;
    FirstTakenPulls(s);
    hide Completing, ProcessPullIntos, TakeFirst, Committable, CommitAll, Core;
    CompleteFirstCommittable(s);
    var (t, first) := TakeFirst(s);
    var (u, filled) := ProcessPullIntos(t);
    CommitAllCore(u, [first] + filled);
  }

  lemma FirstTakenPulls(s: Stream)
    requires s.pullIntos != []
    ensures var u := ProcessPullIntos(TakeFirst(s).0).0;
            SamePulls(s, u) && u.supplied == s.supplied && u.state == s.state
  {
    var t := TakeFirst(s).0;
    assert SamePulls(s, t) && t.supplied == s.supplied && t.state == s.state;
    hide TakeFirst, Process;
  }

  // ------------------------------------------------------ the source's answers

  lemma DetachFirstConserves(s: Stream)
    requires Core(s) && s.state.Readable? && s.pullIntos != []
    ensures var t := DetachFirst(s);
            && Sized(t.queue)
            && s.delivered + Flatten(t.queue) == s.supplied
            && t == s.(queue := t.queue, pullIntos := s.pullIntos[1..])
  {
    RequeueEffect(s.queue, s.pullIntos[0].filled);
    var a, b := s.delivered, s.pullIntos[0].filled;
    assert a + b + [] == a + b;
    assert b == [] ==> a + [] == a + b;
  }

  /** The stream an enqueue() works on: a released descriptor's bytes are back in the queue. */
  function Detached(s: Stream): Stream {
    if s.pullIntos != [] && s.pullIntos[0].released then DetachFirst(s) else s
  }

  lemma DetachedEffect(s: Stream)
    requires Core(s) && s.state.Readable?
    ensures var t := Detached(s);
            && t == s.(queue := t.queue, pullIntos := t.pullIntos)
            && Sized(t.queue) && Line(t.pullIntos) && NoneReleased(t.pullIntos)
            && |t.pullIntos| == |t.readIntos|
            && t.delivered + Held(t.pullIntos) + Flatten(t.queue) == t.supplied
  {
    if s.pullIntos != [] && s.pullIntos[0].released {
      DetachFirstConserves(s);
      var t := Detached(s);
      assert t.pullIntos == s.pullIntos[1..] && Held(t.pullIntos) == [];
      assert t.delivered + [] + Flatten(t.queue) == t.delivered + Flatten(t.queue);
    }
  }

  lemma EnqueueByobCore(s: Stream, chunk: Bytes)
    requires Core(s) && s.state.Readable? && s.reader.ByobReader?
    ensures var t := ProcessAndCommit(Push(Detached(s).(supplied := s.supplied + chunk), chunk));
            && Core(t) && SamePulls(s, t) && t.supplied == s.supplied + chunk && t.state.Readable?
  {
    DetachedEffect(s);
    hide Detached, ProcessAndCommit, Line, NoneReleased;
    var u := Push(Detached(s).(supplied := s.supplied + chunk), chunk);
    FlattenAppend(Detached(s).queue, Entry(chunk, |chunk|));
    hide Flatten;
    assert s.waiters + s.readIntos == s.readIntos;
    ProcessAndCommitCore(u);
  }

  /** A stream without BYOB reads; `waiters` may still wait for what is queued. */
  ghost predicate Draining(s: Stream) {
    && s.faults == 0 && s.state.Readable?
    && s.pullIntos == [] && s.readIntos == []
    && Asks(s.answers, s.waiters)
    && (s.waiters != [] ==> s.reader.DefaultReader?)
    && Sized(s.queue)
  }

  lemma GiveToWaiterEffect(s: Stream, bytes: Bytes)
    requires Draining(s) && s.waiters != []
    ensures var t := GiveToWaiter(s, bytes);
            && Draining(t)
            && t == s.(waiters := s.waiters[1..], delivered := s.delivered + bytes, answers := t.answers,
                       order := t.order)
  {
    AskHead(s.answers, s.waiters, Chunk(bytes));
  }

  lemma {:induction false} DrainEffect(s: Stream)
    requires Draining(s)
    ensures var t := DrainToWaiters(s);
            && Draining(t)
            && t == s.(waiters := t.waiters, queue := t.queue, delivered := t.delivered, answers := t.answers,
                       order := t.order)
            && t.delivered + Flatten(t.queue) == s.delivered + Flatten(s.queue)
            && (t.waiters == [] || t.queue == [])
    decreases |s.queue|
  {
    if s.waiters != [] && s.queue != [] {
      var u := s.(queue := s.queue[1..]);
      GiveToWaiterEffect(u, s.queue[0].item);
      assert s.delivered + s.queue[0].item + Flatten(s.queue[1..]) == s.delivered + Flatten(s.queue);
      hide GiveToWaiter, Draining, Flatten;
      DrainEffect(GiveToWaiter(u, s.queue[0].item));
    }
  }

  lemma DrainingCore(s: Stream)
    requires Draining(s) && s.delivered + Flatten(s.queue) == s.supplied
    ensures Core(s)
  {
    assert s.waiters + s.readIntos == s.waiters;
    PrefixOfSum(s.delivered, Flatten(s.queue), s.supplied);
    assert s.delivered + [] == s.delivered;
  }

  /** What an enqueue() does without a BYOB reader, short of the pull. */
  function EnqueueDefault(s: Stream, chunk: Bytes): Stream {
    var u := DrainToWaiters(Detached(s).(supplied := s.supplied + chunk));
    if u.waiters != [] then GiveToWaiter(u, chunk) else Push(u, chunk)
  }

  lemma DetachedDrains(s: Stream, supplied: Bytes)
    requires Core(s) && s.state.Readable? && !s.reader.ByobReader?
    ensures var t := Detached(s).(supplied := supplied);
            && Draining(t) && t.delivered + Flatten(t.queue) == s.supplied
            && t == s.(queue := t.queue, pullIntos := [], supplied := supplied)
  {
    DetachedEffect(s);
    assert s.waiters + s.readIntos == s.waiters;
    DetachedIsDraining(s, Detached(s), supplied);
  }

  lemma DetachedIsDraining(s: Stream, t: Stream, supplied: Bytes)
    requires Core(s) && s.state.Readable? && !s.reader.ByobReader? && Asks(s.answers, s.waiters)
    requires t == s.(queue := t.queue, pullIntos := t.pullIntos) && Sized(t.queue)
    requires |t.pullIntos| == |t.readIntos|
    requires t.delivered + Held(t.pullIntos) + Flatten(t.queue) == t.supplied
    ensures var u := t.(supplied := supplied);
            && Draining(u) && u.delivered + Flatten(u.queue) == s.supplied
            && u == s.(queue := u.queue, pullIntos := [], supplied := supplied)
  {
    hide Flatten, Line, Asks;
    assert t.delivered + [] + Flatten(t.queue) == t.delivered + Flatten(t.queue);
  }

  lemma AddChunkCore(s: Stream, chunk: Bytes)
    requires Draining(s) && (s.waiters == [] || s.queue == [])
    requires s.delivered + Flatten(s.queue) + chunk == s.supplied
    ensures var t := if s.waiters != [] then GiveToWaiter(s, chunk) else Push(s, chunk);
            && Core(t) && SamePulls(s, t) && t.supplied == s.supplied && t.state.Readable?
  {
    if s.waiters != [] {
      GiveToWaiterEffect(s, chunk);
      assert s.delivered + [] + chunk == s.delivered + chunk + [];
      DrainingCore(GiveToWaiter(s, chunk));
    } else {
      FlattenAppend(s.queue, Entry(chunk, |chunk|));
      assert s.delivered + (Flatten(s.queue) + chunk) == s.delivered + Flatten(s.queue) + chunk;
      DrainingCore(Push(s, chunk));
    }
  }

  lemma EnqueueDefaultCore(s: Stream, chunk: Bytes)
    requires Core(s) && s.state.Readable? && !s.reader.ByobReader?
    ensures var t := EnqueueDefault(s, chunk);
            && Core(t) && SamePulls(s, t) && t.supplied == s.supplied + chunk && t.state.Readable?
  {
    DetachedDrains(s, s.supplied + chunk);
    var t := Detached(s).(supplied := s.supplied + chunk);
    DrainEffect(t);
    AddChunkCore(DrainToWaiters(t), chunk);
  }

  lemma EnqueueKeepsInv(s: Stream, chunk: Bytes)
    requires Inv(s) && CanCloseOrEnqueue(s)
    ensures Inv(Enqueue(s, chunk)) && Enqueue(s, chunk).supplied == s.supplied + chunk
    ensures CanCloseOrEnqueue(Enqueue(s, chunk))
    ensures Enqueue(s, chunk).asked == s.asked && Enqueue(s, chunk).reader == s.reader
  {
    if s.reader.ByobReader? {
      EnqueueByobCore(s, chunk);
      var t := ProcessAndCommit(Push(Detached(s).(supplied := s.supplied + chunk), chunk));
      FromCore(s, t);
      CallPullKeepsInv(t);
    } else {
      EnqueueDefaultCore(s, chunk);
      var t := EnqueueDefault(s, chunk);
      FromCore(s, t);
      CallPullKeepsInv(t);
    }
  }

  // --------------------------------------------------------- respond()

  /** The first descriptor, with what the source wrote into its view. */
  function WithData(s: Stream, data: Bytes): Stream
    requires s.pullIntos != []
  {
    s.(supplied := s.supplied + data,
       pullIntos := [s.pullIntos[0].(filled := s.pullIntos[0].filled + data)] + s.pullIntos[1..])
  }

  /** The written bytes follow everything supplied so far: nothing is queued. */
  lemma WithDataConserves(s: Stream, data: Bytes)
    requires Core(s) && s.state.Readable? && s.pullIntos != []
    ensures var t := WithData(s, data);
            t.delivered + Held(t.pullIntos) == t.supplied
  {
    FlattenLength(s.queue);
    assert s.delivered + (Held(s.pullIntos) + data) == s.delivered + Held(s.pullIntos) + [] + data;
  }

  lemma WithDataDetached(s: Stream, data: Bytes)
    requires Core(s) && s.state.Readable? && s.pullIntos != [] && s.pullIntos[0].released
    ensures var t := DetachFirst(WithData(s, data));
            && t == s.(supplied := s.supplied + data, pullIntos := s.pullIntos[1..], queue := t.queue)
            && Sized(t.queue) && t.delivered + Flatten(t.queue) == t.supplied
  {
    WithDataConserves(s, data);
    RequeueEffect(s.queue, s.pullIntos[0].filled + data);
  }

  lemma RespondReleasedCore(s: Stream, data: Bytes)
    requires Core(s) && s.state.Readable? && s.pullIntos != [] && s.pullIntos[0].released
    ensures var t := ProcessAndCommit(DetachFirst(WithData(s, data)));
            && Core(t) && SamePulls(s, t) && t.supplied == s.supplied + data && t.state.Readable?
  {
    WithDataDetached(s, data);
    var u := DetachFirst(WithData(s, data));
    if s.readIntos == [] {
      assert s.waiters + s.readIntos == s.waiters;
      DrainingCore(u);
    } else {
      OneKindOfRead(s);
      assert s.waiters + s.readIntos == s.readIntos;
      assert Held(u.pullIntos) == [];
      assert u.delivered + [] + Flatten(u.queue) == u.delivered + Flatten(u.queue);
      ProcessAndCommitCore(u);
    }
  }

  lemma RespondPartialCore(s: Stream, data: Bytes)
    requires Core(s) && s.state.Readable? && s.pullIntos != []
    requires |s.pullIntos[0].filled| + |data| < s.pullIntos[0].minimumFill
    ensures var t := WithData(s, data);
            Core(t) && SamePulls(s, t)
  {
    WithDataConserves(s, data);
    FlattenLength(s.queue);
    var t := WithData(s, data);
    assert t.delivered + Held(t.pullIntos) + [] == t.delivered + Held(t.pullIntos);
  }

  lemma WithDataCompleting(s: Stream, data: Bytes)
    requires Core(s) && s.state.Readable? && s.pullIntos != [] && !s.pullIntos[0].released
    requires s.pullIntos[0].minimumFill <= |s.pullIntos[0].filled| + |data| <= s.pullIntos[0].byteLength
    ensures Completing(WithData(s, data))
  {
    WithDataConserves(s, data);
    OneKindOfRead(s);
    var t := WithData(s, data);
    assert s.waiters + s.readIntos == s.readIntos;
    assert t.pullIntos[1..] == s.pullIntos[1..];
  }

  lemma RespondInReadableStateKeepsInv(s: Stream, data: Bytes)
    requires Inv(s) && s.state.Readable? && s.pullIntos != []
    requires |s.pullIntos[0].filled| + |data| <= s.pullIntos[0].byteLength
    ensures var t := RespondInReadableState(s, data);
            && Inv(t) && t.supplied == s.supplied + data && t.state.Readable?
            && SamePulls(s, t)
  {
    if s.pullIntos[0].released {
      RespondReleasedCore(s, data);
    } else if |s.pullIntos[0].filled| + |data| < s.pullIntos[0].minimumFill {
      RespondPartialCore(s, data);
    } else {
      WithDataCompleting(s, data);
      CompleteFirstCore(WithData(s, data));
    }
    FromCore(s, RespondInReadableState(s, data));
  }

  lemma {:induction false} FillsOfLine(ds: seq<PullInto>)
    requires Line(ds)
    ensures Fills(ds) == Held(ds)
    decreases |ds|
  {
    if ds != [] {
      FillsOfLine(ds[1..]);
      assert Held(ds[1..]) == [];
    }
  }

  lemma DropReleasedKeepsInv(s: Stream)
    requires Inv(s) && s.state.Closed? && s.pullIntos != [] && s.pullIntos[0].released
    ensures Inv(s.(pullIntos := s.pullIntos[1..])) && NoneReleased(s.pullIntos[1..])
  {
    PrefixOfPrefix(s.delivered, Held(s.pullIntos), s.supplied);
    assert Held(s.pullIntos[1..]) == [];
    assert s.delivered + [] == s.delivered;
  }

  lemma CommitPendingIs(s: Stream)
    requires |s.readIntos| == |s.pullIntos|
    ensures CommitPending(s) == CommitAll(s.(pullIntos := []), s.pullIntos)
  {
    assert s.pullIntos[..|s.readIntos|] == s.pullIntos && s.pullIntos[|s.readIntos|..] == [];
  }

  /** At the end of the stream the pending views are those of the reads that wait. */
  lemma PendingViews(s: Stream)
    requires Inv(s) && s.state.Closed? && NoneReleased(s.pullIntos) && s.reader.ByobReader?
    ensures |s.readIntos| == |s.pullIntos| && Committing(s.(pullIntos := []), s.pullIntos)
    ensures Fills(s.pullIntos) == Held(s.pullIntos)
  {
    assert s.waiters + s.readIntos == s.readIntos;
    FillsOfLine(s.pullIntos);
  }

  lemma CommittedKeepsInv(s: Stream, t: Stream)
    requires Inv(s) && s.state.Closed? && s.reader.ByobReader? && |s.readIntos| == |s.pullIntos|
    requires Fills(s.pullIntos) == Held(s.pullIntos) && Committed(s.(pullIntos := []), s.pullIntos, t)
    requires s.waiters == [] && Asks(t.answers, t.readIntos)
    ensures Inv(t) && SamePulls(s, t) && t.supplied == s.supplied && t.state == s.state && t.readIntos == []
  {
    assert t.readIntos == [] && t.waiters + t.readIntos == t.readIntos;
    assert t.delivered + [] == t.delivered;
  }

  /** At the end of the stream every pending view is handed over, as far as it got. */
  lemma CommitPendingKeepsInv(s: Stream)
    requires Inv(s) && s.state.Closed? && NoneReleased(s.pullIntos) && s.reader.ByobReader?
    ensures var t := CommitPending(s);
            && Inv(t) && SamePulls(s, t) && t.supplied == s.supplied && t.state == s.state && t.readIntos == []
  {
    hide Inv, Committed, SamePulls, CommitPending, CommitAll, Asks;
    PendingViews(s);
    CommitPendingIs(s);
    CommitAllEffect(s.(pullIntos := []), s.pullIntos);
    CommittedKeepsInv(s, CommitPending(s));
  }

  lemma RespondInClosedStateKeepsInv(s: Stream)
    requires Inv(s) && s.state.Closed? && s.pullIntos != []
    ensures var t := RespondInClosedState(s);
            && Inv(t) && SamePulls(s, t) && t.supplied == s.supplied && t.state == s.state && t.readIntos == []
  {
    if s.pullIntos[0].released {
      DropReleasedKeepsInv(s);
    }
    if s.reader.ByobReader? {
      CommitPendingKeepsInv(if s.pullIntos[0].released then s.(pullIntos := s.pullIntos[1..]) else s);
    }
  }

  lemma RespondKeepsInv(s: Stream, data: Bytes)
    requires Inv(s)
    ensures Inv(Respond(s, data))
  {
    if s.pullIntos != [] {
      if s.state.Closed? {
        RespondInClosedStateKeepsInv(s);
      } else if data != [] && |s.pullIntos[0].filled| + |data| <= s.pullIntos[0].byteLength {
        RespondInReadableStateKeepsInv(s, data);
        CallPullKeepsInv(RespondInReadableState(s, data));
      }
    }
  }

  // --------------------------------------------------------------- the readers

  lemma NewSettledKeepsInv(s: Stream, a: Answer)
    requires Inv(s) && !a.Waiting? && (Carries(a) ==> a.bytes == [])
    ensures Inv(NewRead(s, a))
  {
    AskSettled(s.answers, s.waiters + s.readIntos, a);
    assert s.delivered + [] == s.delivered;
  }

  lemma TakeChunkKeepsInv(s: Stream)
    requires Inv(s) && s.state.Readable? && s.queue != [] && s.reader.DefaultReader?
    ensures Inv(TakeChunk(s))
  {
    var bytes := s.queue[0].item;
    var t := NewRead(s.(queue := s.queue[1..]), Chunk(bytes));
    AskSettled(s.answers, s.waiters + s.readIntos, Chunk(bytes));
    TakeChunkConserves(s, t);
    if t.closeRequested && t.queue == [] {
      CloseStreamKeepsInv(t);
    } else {
      CallPullKeepsInv(t);
    }
  }

  /** The head chunk is first in line even behind a released descriptor: that one holds
      bytes only while the queue has none. */
  lemma TakeChunkConserves(s: Stream, t: Stream)
    requires Core(s) && s.state.Readable? && s.queue != []
    requires t.queue == s.queue[1..] && t.delivered == s.delivered + s.queue[0].item
    requires t.supplied == s.supplied && t.pullIntos == s.pullIntos && t.state == s.state
    ensures Conserved(t)
  {
    var held, head, rest := Held(s.pullIntos), s.queue[0].item, Flatten(s.queue[1..]);
    FlattenLength(s.queue);
    if s.pullIntos != [] {
      assert head == [] && rest == [];
    } else {
      assert held == [];
      assert s.delivered + (head + rest) == s.delivered + head + [] + rest;
    }
    PrefixOfSum(t.delivered + Held(t.pullIntos), Flatten(t.queue), t.supplied);
  }

  lemma AddWaiterKeepsInv(s: Stream)
    requires Inv(s) && s.state.Readable? && s.reader.DefaultReader?
    ensures Inv(NewRead(s, Waiting).(waiters := s.waiters + [|s.answers|]))
  {
    assert s.waiters + s.readIntos == s.waiters;
    AskMore(s.answers, s.waiters);
    var t := NewRead(s, Waiting).(waiters := s.waiters + [|s.answers|]);
    assert t.waiters + t.readIntos == t.waiters;
  }

  lemma ReadKeepsInv(s: Stream)
    requires Inv(s) && s.reader.DefaultReader?
    ensures Inv(Read(s))
  {
    match s.state
    case Closed => NewSettledKeepsInv(s, Done);
    case Errored => NewSettledKeepsInv(s, ReadFailed(s.error));
    case Readable =>
      if s.queue != [] {
        TakeChunkKeepsInv(s);
      } else {
        AddWaiterKeepsInv(s);
        CallPullKeepsInv(NewRead(s, Waiting).(waiters := s.waiters + [|s.answers|]));
      }
  }

  lemma EnlistKeepsInv(s: Stream, d: PullInto)
    requires Inv(s) && !s.state.Errored? && s.reader.ByobReader?
    requires Unfilled(d) && !d.released && d.filled == []
    requires s.pullIntos == [] ==> s.state.Readable? && Total(s.queue) == 0
    ensures Inv(Enlist(s, d, d))
  {
    var t := Enlist(s, d, d);
    EnlistAsks(s, d, d);
    assert Line(t.pullIntos);
    assert Held(t.pullIntos) == Held(s.pullIntos);
    assert ReleasedCount(t.pullIntos) == ReleasedCount(s.pullIntos);
  }

  lemma EnlistAsks(s: Stream, d: PullInto, filled: PullInto)
    requires Reads(s) && s.reader.ByobReader?
    ensures var t := Enlist(s, d, filled); Asks(t.answers, t.waiters + t.readIntos)
  {
    assert s.waiters + s.readIntos == s.readIntos;
    AskMore(s.answers, s.readIntos);
    var t := Enlist(s, d, filled);
    assert t.waiters + t.readIntos == t.readIntos;
  }

  lemma HandleQueueDrainKeepsInv(s: Stream)
    requires Inv(s) && s.state.Readable?
    ensures Inv(HandleQueueDrain(s))
  {
    if Total(s.queue) == 0 && s.closeRequested {
      FlattenLength(s.queue);
      CloseStreamKeepsInv(s.(queue := []));
    } else {
      CallPullKeepsInv(s);
    }
  }

  /** A BYOB read on a stream with bytes queued and nothing pending. */
  ghost predicate ReadsQueued(s: Stream, d: PullInto) {
    && Inv(s) && s.state.Readable? && s.reader.ByobReader? && s.pullIntos == []
    && Total(s.queue) > 0
    && Unfilled(d) && !d.released && d.filled == []
  }

  lemma ReadyReadKeepsInv(s: Stream, d: PullInto, f: Fill)
    requires Inv(s) && s.state.Readable? && s.pullIntos == []
    requires f.missing == 0 && Sized(f.queue) && Complete(f.desc)
    requires f.desc.filled + Flatten(f.queue) == Flatten(s.queue)
    ensures var t := AfterFill(s, f);
            Inv(NewReadInto(t, View(f.desc.filled, false), d))
  {
    AskSettled(s.answers, s.waiters + s.readIntos, View(f.desc.filled, false));
    ReadyReadConserves(s.delivered, f.desc.filled, Flatten(f.queue), s.supplied);
  }

  lemma ReadyReadConserves(a: Bytes, b: Bytes, c: Bytes, supplied: Bytes)
    ensures a + [] + (b + c) == a + b + [] + c
    ensures a + b + [] + c == supplied ==> a + b <= supplied
  {
    assert a + [] + (b + c) == a + b + [] + c;
    assert a + b + [] + c == (a + b) + c;
  }

  lemma ShortReadKeepsInv(s: Stream, d: PullInto, f: Fill)
    requires Inv(s) && s.state.Readable? && s.reader.ByobReader? && s.pullIntos == []
    requires f.missing == 0 && Sized(f.queue) && Unfilled(f.desc) && !f.desc.released
    requires Total(f.queue) == 0 && Flatten(f.queue) == [] && f.desc.filled == Flatten(s.queue)
    ensures Inv(Enlist(AfterFill(s, f), d, f.desc))
  {
    EnlistAsks(s, d, f.desc);
    var t := Enlist(AfterFill(s, f), d, f.desc);
    assert t.pullIntos == [f.desc];
    assert s.delivered + [] + f.desc.filled == s.delivered + f.desc.filled + [];
    assert Conserved(t);
  }

  lemma RefusedReadKeepsInv(s: Stream, f: Fill)
    requires Inv(s) && s.state.Readable? && f.missing == 0
    ensures Inv(NewRead(ErrorStream(AfterFill(s, f), InvalidState), ReadFailed(InvalidState)))
  {
    var t := AfterFill(s, f);
    ErrorStreamEffect(t, InvalidState);
    PrefixOfPrefix(s.delivered, Held(s.pullIntos), s.supplied);
    assert s.delivered + [] == s.delivered;
    NewSettledKeepsInv(ErrorStream(t, InvalidState), ReadFailed(InvalidState));
  }

  lemma AddPullIntoKeepsInv(s: Stream, d: PullInto)
    requires Inv(s) && !s.state.Errored? && s.reader.ByobReader?
    requires Unfilled(d) && !d.released && d.filled == []
    ensures Inv(AddPullInto(s, d))
  {
    if s.pullIntos != [] {
      EnlistKeepsInv(s, d);
    } else if s.state.Closed? {
      AskSettled(s.answers, s.waiters + s.readIntos, View([], true));
      assert s.delivered + [] == s.delivered;
    } else if Total(s.queue) == 0 {
      EnlistKeepsInv(s, d);
      CallPullKeepsInv(Enlist(s, d, d));
    } else {
      QueuedReadKeepsInv(s, d);
    }
  }

  lemma QueuedReadKeepsInv(s: Stream, d: PullInto)
    requires ReadsQueued(s, d)
    ensures Inv(AddPullInto(s, d))
  {
    FillEffect(s.queue, d);
    var f := FillPullInto(s.queue, d);
    assert [] + Flatten(s.queue) == Flatten(s.queue);
    assert !f.ready ==> f.desc.filled + [] == f.desc.filled;
    AnswerFillKeepsInv(s, d, f);
  }

  lemma AnswerFillKeepsInv(s: Stream, d: PullInto, f: Fill)
    requires Inv(s) && s.state.Readable? && s.reader.ByobReader? && s.pullIntos == []
    requires f.missing == 0 && Sized(f.queue)
    requires f.ready ==> Complete(f.desc) && f.desc.filled + Flatten(f.queue) == Flatten(s.queue)
    requires !f.ready ==> Unfilled(f.desc) && !f.desc.released && Total(f.queue) == 0 && Flatten(f.queue) == []
    requires !f.ready ==> f.desc.filled == Flatten(s.queue)
    ensures Inv(AnswerFill(s, d, f))
  {
    var t := AfterFill(s, f);
    hide Inv, Flatten, Complete, Unfilled, HandleQueueDrain, ErrorStream, CallPullIfNeeded;
    if f.ready {
      ReadyReadKeepsInv(s, d, f);
      HandleQueueDrainKeepsInv(NewReadInto(t, View(f.desc.filled, false), d));
    } else if s.closeRequested {
      RefusedReadKeepsInv(s, f);
    } else {
      ShortReadKeepsInv(s, d, f);
      CallPullKeepsInv(Enlist(t, d, f.desc));
    }
  }

  lemma ReadIntoKeepsInv(s: Stream, length: nat, elementSize: ElementSize, min: nat)
    requires Inv(s) && s.reader.ByobReader?
    ensures Inv(ReadInto(s, length, elementSize, min))
  {
    if length == 0 || min == 0 || min > length {
      NewSettledKeepsInv(s, ReadFailed(InvalidState));
    } else if s.state.Errored? {
      NewSettledKeepsInv(s, ReadFailed(s.error));
    } else {
      MulMonotone(1, min, elementSize);
      MulMonotone(min, length, elementSize);
      MultipleMod(min, elementSize);
      MultipleMod(length, elementSize);
      AddPullIntoKeepsInv(s, PullInto([], length * elementSize, min * elementSize, elementSize, false));
    }
  }

  // ---------------------------------------------------------------------- runs

  lemma OnStartKeepsInv(s: Stream, r: Settlement)
    requires Inv(s)
    ensures Inv(OnStart(s, r))
  {
    var t := s.(startOut := false);
    match r
    case Ok => CallPullKeepsInv(t.(started := true));
    case Failed(e) => ErrorStreamKeepsInv(t, e);
  }

  lemma OnPullKeepsInv(s: Stream, r: Settlement)
    requires Inv(s) && s.pullsOut > 0
    ensures Inv(OnPull(s, r))
  {
    var t := s.(pullsOut := s.pullsOut - 1);
    match r
    case Ok =>
      hide Core, CallPullIfNeeded;
      if s.pullAgain {
        SameCore(s, t.(pulling := false, pullAgain := false));
        CallPullKeepsInv(t.(pulling := false, pullAgain := false));
      } else {
        SameCore(s, t.(pulling := false));
      }
    case Failed(e) => ErrorOnPullKeepsInv(s, e);
  }

  /** `Core` does not look at the pulling state. */
  lemma SameCore(s: Stream, t: Stream)
    requires Core(s)
    requires t == s.(pulling := t.pulling, pullAgain := t.pullAgain, pullsOut := t.pullsOut)
    ensures Core(t)
  {}

  lemma ErrorOnPullKeepsInv(s: Stream, reason: Reason)
    requires Inv(s) && s.pullsOut > 0
    ensures Inv(ErrorStream(s.(pullsOut := s.pullsOut - 1), reason))
  {
    var t := s.(pullsOut := s.pullsOut - 1);
    if s.state.Readable? {
      ErrorStreamEffect(t, reason);
      PrefixOfPrefix(s.delivered, Held(s.pullIntos), s.supplied);
      ErroredInv(t, ErrorStream(t, reason));
    }
  }

  lemma ErroredInv(s: Stream, t: Stream)
    requires t == s.(state := Errored, error := t.error, queue := [], pullIntos := [], waiters := [], readIntos := [],
                     answers := t.answers)
    requires s.faults == 0 && Asks(t.answers, t.waiters + t.readIntos) && s.delivered <= s.supplied
    requires s.pullsOut <= 1 && (s.pullAgain ==> s.pulling) && (s.pullsOut == 1 ==> s.pulling)
    ensures Inv(t)
  {
    assert s.delivered + [] == s.delivered;
  }

  lemma AcquireKeepsInv(s: Stream, r: Reader)
    requires Inv(s) && s.reader.NoReader?
    ensures Inv(Acquire(s, r))
  {}

  lemma StepKeepsInv(s: Stream, e: Event)
    requires Inv(s)
    ensures Inv(Step(s, e))
  {
    hide Inv, Acquire, Release, Read, ReadInto, Cancel, Enqueue, Respond, ControllerClose, ErrorStream, OnStart, OnPull;
    match e
    case AcquireCall(byob) =>
      if s.reader.NoReader? {
        AcquireKeepsInv(s, if byob then ByobReader else DefaultReader);
      }
    case ReleaseCall => if !s.reader.NoReader? { ReleaseKeepsInv(s); }
    case ReadCall => if s.reader.DefaultReader? { ReadKeepsInv(s); }
    case ReadIntoCall(length, elementSize, min) =>
      if s.reader.ByobReader? { ReadIntoKeepsInv(s, length, elementSize, min); }
    case CancelCall => CancelKeepsInv(s);
    case EnqueueCall(chunk) => if CanCloseOrEnqueue(s) { EnqueueKeepsInv(s, chunk); }
    case RespondCall(data) => RespondKeepsInv(s, data);
    case NewViewCall(at, data) => RespondKeepsInv(s, data);
    case CloseCall => ControllerCloseKeepsInv(s);
    case ErrorCall(reason) => ErrorStreamKeepsInv(s, reason);
    case StartSettles(r) => OnStartKeepsInv(s, r);
    case PullSettles(r) => if s.pullsOut > 0 { OnPullKeepsInv(s, r); }
  }

  lemma {:induction false} RunKeepsInv(highWaterMark: nat, events: seq<Event>)
    ensures Inv(Run(Init(highWaterMark), events))
    decreases |events|
  {
    if events != [] {
      RunKeepsInv(highWaterMark, events[..|events| - 1]);
      StepKeepsInv(Run(Init(highWaterMark), events[..|events| - 1]), events[|events| - 1]);
    }
  }

  ghost predicate Reachable(s: Stream) {
    exists highWaterMark: nat, events: seq<Event> :: s == Run(Init(highWaterMark), events)
  }

  lemma ReachableInv(s: Stream)
    requires Reachable(s)
    ensures Inv(s)
  {
    var highWaterMark: nat, events: seq<Event> :| s == Run(Init(highWaterMark), events);
    RunKeepsInv(highWaterMark, events);
  }

  // ---------------------------------------------------------- what users may rely on

  /** While the stream is readable no byte is lost, duplicated or reordered: the bytes handed
      to reads, in the order they were handed over, then those a pending (or released) read
      holds, then those queued, are exactly the bytes supplied.  Whatever happens later, only
      a prefix of what was supplied is ever delivered. */
  lemma ByteConservation(s: Stream)
    requires Reachable(s)
    ensures s.state.Readable? ==> s.delivered + Held(s.pullIntos) + Flatten(s.queue) == s.supplied
    ensures s.delivered <= s.supplied
  {
    ReachableInv(s);
    PrefixOfPrefix(s.delivered, Held(s.pullIntos), s.supplied);
  }

  /** Only the first pending read holds bytes; each holds less than its minimum, and while one
      is pending the queue holds none; every pending read that was not released has a promise
      waiting for it. */
  lemma PullIntoDiscipline(s: Stream)
    requires Reachable(s)
    ensures forall i :: 0 <= i < |s.pullIntos| ==> |s.pullIntos[i].filled| < s.pullIntos[i].minimumFill
    ensures forall i :: 1 <= i < |s.pullIntos| ==> s.pullIntos[i].filled == [] && !s.pullIntos[i].released
    ensures s.pullIntos != [] ==> Flatten(s.queue) == []
    ensures |s.readIntos| == |s.pullIntos| - ReleasedCount(s.pullIntos)
  {
    ReachableInv(s);
    FlattenLength(s.queue);
  }

  /** No loop stalls, no peek finds the queue empty, and no read is answered twice: a read
      waits exactly while it is listed. */
  lemma NoFaults(s: Stream)
    requires Reachable(s)
    ensures s.faults == 0
    ensures forall i :: 0 <= i < |s.answers| ==>
              (s.answers[i].Waiting? <==> i in s.waiters || i in s.readIntos)
  {
    ReachableInv(s);
    var ids := s.waiters + s.readIntos;
    forall i | 0 <= i < |s.answers| && (i in s.waiters || i in s.readIntos)
      ensures s.answers[i].Waiting?
    {
      assert i in ids;
    }
  }
}
