/** Which reads of a byte stream the engine's loops answer, and with what, read by read. */
module ByteSettles {
  import opened Base
  import opened Fifo
  import opened ByteSpec

  /** The reads in `ids` are answered with `a`, the others keep what they have. */
  ghost predicate AllGet(before: seq<Answer>, ids: seq<nat>, a: Answer, after: seq<Answer>) {
    && |after| == |before|
    && forall i :: 0 <= i < |before| ==> after[i] == if i in ids then a else before[i]
  }

  lemma {:induction false} WaitersGet(s: Stream, a: Answer)
    ensures AllGet(s.answers, s.waiters, a, SettleWaiters(s, a).answers)
    decreases |s.waiters|
  {
    if s.waiters != [] {
      var t := Settle(s.(waiters := s.waiters[1..]), s.waiters[0], a);
      WaitersGet(t, a);
      OneMoreGets(s.answers, s.waiters, a, t.answers, SettleWaiters(t, a).answers);
    }
  }

  lemma OneMoreGets(before: seq<Answer>, ids: seq<nat>, a: Answer, mid: seq<Answer>, after: seq<Answer>)
    requires ids != [] && mid == (if ids[0] < |before| then before[ids[0] := a] else before)
    requires AllGet(mid, ids[1..], a, after)
    ensures AllGet(before, ids, a, after)
  {
    forall i | 0 <= i < |before|
      ensures after[i] == if i in ids then a else before[i]
    {
      assert i in ids <==> i == ids[0] || i in ids[1..];
    }
  }

  lemma {:induction false} ReadIntosGet(s: Stream, a: Answer)
    ensures AllGet(s.answers, s.readIntos, a, SettleReadIntos(s, a).answers)
    ensures SettleReadIntos(s, a).waiters == s.waiters
    decreases |s.readIntos|
  {
    if s.readIntos != [] {
      var t := Settle(s.(readIntos := s.readIntos[1..]), s.readIntos[0], a);
      ReadIntosGet(t, a);
      OneMoreGets(s.answers, s.readIntos, a, t.answers, SettleReadIntos(t, a).answers);
    }
  }

  lemma {:induction false} WaitersLeave(s: Stream, a: Answer)
    ensures SettleWaiters(s, a).readIntos == s.readIntos
    decreases |s.waiters|
  {
    if s.waiters != [] {
      WaitersLeave(Settle(s.(waiters := s.waiters[1..]), s.waiters[0], a), a);
    }
  }

  /** First the default reads, then the BYOB reads. */
  lemma BothGet(s: Stream, a: Answer)
    ensures AllGet(s.answers, s.waiters + s.readIntos, a, SettleReadIntos(SettleWaiters(s, a), a).answers)
  {
    WaitersGet(s, a);
    WaitersLeave(s, a);
    ReadIntosGet(SettleWaiters(s, a), a);
  }

  /** The first reads in `ids` get the answers in `given`, in order. */
  ghost predicate EachGets(before: seq<Answer>, ids: seq<nat>, given: seq<Answer>, after: seq<Answer>) {
    && |given| <= |ids| && |after| == |before|
    && (forall k :: 0 <= k < |given| && ids[k] < |before| ==> after[ids[k]] == given[k])
    && (forall i :: 0 <= i < |before| && i !in ids[..|given|] ==> after[i] == before[i])
  }

  lemma OneGets(before: seq<Answer>, ids: seq<nat>, given: seq<Answer>, mid: seq<Answer>, after: seq<Answer>)
    requires given != [] && ids != [] && NoDuplicates(ids)
    requires mid == (if ids[0] < |before| then before[ids[0] := given[0]] else before)
    requires EachGets(mid, ids[1..], given[1..], after)
    ensures EachGets(before, ids, given, after)
  {
    assert ids[..|given|] == [ids[0]] + ids[1..][..|given[1..]|];
    forall k | 0 <= k < |given| && ids[k] < |before|
      ensures after[ids[k]] == given[k]
    {
      if k > 0 {
        assert ids[1..][k - 1] == ids[k] && given[1..][k - 1] == given[k];
      } else {
        assert ids[0] !in ids[1..][..|given[1..]|];
      }
    }
  }

  /** The views the descriptors make. */
  function Views(ds: seq<PullInto>, done: bool): (r: seq<Answer>)
    ensures |r| == |ds|
  {
    seq(|ds|, i requires 0 <= i < |ds| => View(ds[i].filled, done))
  }

  lemma CommitIs(s: Stream, d: PullInto)
    requires s.readIntos != [] && |d.filled| <= d.byteLength
    ensures var t := Commit(s, d);
            && t.answers == (if s.readIntos[0] < |s.answers| then
                               s.answers[s.readIntos[0] := View(d.filled, s.state.Closed?)] else s.answers)
            && t.readIntos == s.readIntos[1..] && t.order == s.order + [s.readIntos[0]] && t.state == s.state
  {}

  lemma RestApart(ids: seq<nat>)
    requires NoDuplicates(ids) && ids != []
    ensures NoDuplicates(ids[1..])
  {}

  lemma ViewsRest(ds: seq<PullInto>, done: bool)
    requires ds != []
    ensures Views(ds, done)[0] == View(ds[0].filled, done) && Views(ds, done)[1..] == Views(ds[1..], done)
  {}

  lemma {:induction false} CommitsGet(s: Stream, ds: seq<PullInto>)
    requires |ds| <= |s.readIntos| && NoDuplicates(s.readIntos)
    requires forall i :: 0 <= i < |ds| ==> |ds[i].filled| <= ds[i].byteLength
    ensures EachGets(s.answers, s.readIntos, Views(ds, s.state.Closed?), CommitAll(s, ds).answers)
    decreases |ds|
  {
    if ds != [] {
      var t := Commit(s, ds[0]);
      CommitIs(s, ds[0]);
      RestApart(s.readIntos);
      ViewsRest(ds, s.state.Closed?);
      hide Commit, EachGets, NoDuplicates, Views;
      CommitsGet(t, ds[1..]);
      OneGets(s.answers, s.readIntos, Views(ds, s.state.Closed?), t.answers, CommitAll(s, ds).answers);
    }
  }

  lemma {:induction false} CommitsOrder(s: Stream, ds: seq<PullInto>)
    requires |ds| <= |s.readIntos|
    requires forall i :: 0 <= i < |ds| ==> |ds[i].filled| <= ds[i].byteLength
    ensures CommitAll(s, ds).order == s.order + s.readIntos[..|ds|]
    decreases |ds|
  {
    if ds == [] {
      assert s.order + s.readIntos[..0] == s.order;
    } else {
      CommitIs(s, ds[0]);
      hide Commit;
      CommitsOrder(Commit(s, ds[0]), ds[1..]);
      assert s.order + [s.readIntos[0]] + s.readIntos[1..][..|ds[1..]|] == s.order + s.readIntos[..|ds|];
    }
  }

  function ChunksOf(q: seq<Entry<Bytes>>): (r: seq<Answer>)
    ensures |r| == |q|
  {
    seq(|q|, i requires 0 <= i < |q| => Chunk(q[i].item))
  }

  function Least(a: nat, b: nat): (n: nat)
    ensures n <= a && n <= b
  {
    if a < b then a else b
  }

  lemma GiveIs(s: Stream, bytes: Bytes)
    requires s.waiters != []
    ensures var t := GiveToWaiter(s, bytes);
            && t.answers == (if s.waiters[0] < |s.answers| then s.answers[s.waiters[0] := Chunk(bytes)] else s.answers)
            && t.waiters == s.waiters[1..] && t.queue == s.queue
  {}

  lemma ChunksRest(q: seq<Entry<Bytes>>, n: nat)
    requires 0 < n <= |q|
    ensures ChunksOf(q[..n])[0] == Chunk(q[0].item) && ChunksOf(q[..n])[1..] == ChunksOf(q[1..][..n - 1])
  {}

  lemma {:induction false} DrainLeaves(s: Stream)
    ensures var t := DrainToWaiters(s);
            var n := Least(|s.queue|, |s.waiters|);
            t.waiters == s.waiters[n..] && t.queue == s.queue[n..]
    decreases |s.queue|
  {
    if s.waiters != [] && s.queue != [] {
      GiveIs(s.(queue := s.queue[1..]), s.queue[0].item);
      hide GiveToWaiter;
      DrainLeaves(GiveToWaiter(s.(queue := s.queue[1..]), s.queue[0].item));
    }
  }

  lemma {:induction false} DrainGets(s: Stream)
    requires NoDuplicates(s.waiters)
    ensures EachGets(s.answers, s.waiters, ChunksOf(s.queue[..Least(|s.queue|, |s.waiters|)]),
                     DrainToWaiters(s).answers)
    decreases |s.queue|
  {
    if s.waiters != [] && s.queue != [] {
      var t := GiveToWaiter(s.(queue := s.queue[1..]), s.queue[0].item);
      var n := Least(|s.queue|, |s.waiters|);
      GiveIs(s.(queue := s.queue[1..]), s.queue[0].item);
      RestApart(s.waiters);
      ChunksRest(s.queue, n);
      hide GiveToWaiter, EachGets, NoDuplicates, ChunksOf;
      DrainGets(t);
      OneGets(s.answers, s.waiters, ChunksOf(s.queue[..n]), t.answers, DrainToWaiters(s).answers);
    }
  }
}
