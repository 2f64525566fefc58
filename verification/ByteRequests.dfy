/** Each BYOB read is answered from its own descriptor: the view it gets is the one it
    asked for, with whole elements, and at least the minimum while the stream is readable. */
module ByteRequests {
  import opened Base
  import opened Fifo
  import opened ByteSpec
  import opened ByteProofs
  import opened ByteWhole

  /** A descriptor as it was asked for. */
  function Asked(d: PullInto): PullInto {
    d.(filled := [], released := false)
  }

  ghost predicate SameAsked(a: seq<PullInto>, b: seq<PullInto>) {
    |a| == |b| && forall k :: 0 <= k < |a| ==> Asked(a[k]) == Asked(b[k])
  }

  /** The reads in `ids` wait for the descriptors in `ds`, in this order. */
  ghost predicate Match(asked: seq<Option<PullInto>>, ids: seq<nat>, ds: seq<PullInto>) {
    && |ids| == |ds|
    && forall k :: 0 <= k < |ids| ==> ids[k] < |asked| && asked[ids[k]] == Some(Asked(ds[k]))
  }

  /** What a read may be handed at the end of the stream: whole elements, fewer than it wanted. */
  ghost predicate Partial(d: PullInto) {
    Unfilled(d) && |d.filled| % d.elementSize == 0
  }

  /** The view a BYOB read got is the one it asked for; a default read gets chunks. */
  ghost predicate Fits(a: Answer, ask: Option<PullInto>) {
    && (a.Chunk? ==> ask.None?)
    && (a.View? ==>
          && ask.Some?
          && (if a.done then Partial(ask.value.(filled := a.bytes))
              else Complete(ask.value.(filled := a.bytes))))
  }

  ghost predicate Plain(asked: seq<Option<PullInto>>, ids: seq<nat>) {
    forall k :: 0 <= k < |ids| ==> ids[k] < |asked| && asked[ids[k]].None?
  }

  ghost predicate AllFit(answers: seq<Answer>, asked: seq<Option<PullInto>>) {
    && |asked| == |answers|
    && forall i :: 0 <= i < |answers| ==> Fits(answers[i], asked[i])
  }

  ghost predicate Matched(s: Stream) {
    && AllFit(s.answers, s.asked)
    && Plain(s.asked, s.waiters)
    && Match(s.asked, s.readIntos, Unreleased(s.pullIntos))
  }

  /** The fields `Matched` looks at. */
  ghost predicate SameRequests(s: Stream, t: Stream) {
    s.answers == t.answers && s.asked == t.asked && s.readIntos == t.readIntos && s.pullIntos == t.pullIntos
    && s.waiters == t.waiters
  }

  lemma SameMatched(s: Stream, t: Stream)
    requires Matched(s) && SameRequests(s, t)
    ensures Matched(t)
  {}

  lemma CallPullMatched(s: Stream)
    requires Matched(s)
    ensures Matched(CallPullIfNeeded(s))
  {
    SameMatched(s, CallPullIfNeeded(s));
  }

  // ----------------------------------------------------------------- answering

  lemma NewReadMatched(s: Stream, a: Answer)
    requires Matched(s) && !a.View?
    ensures Matched(NewRead(s, a))
    ensures a.Waiting? ==> Matched(NewRead(s, a).(waiters := s.waiters + [|s.answers|]))
  {}

  lemma NewReadIntoMatched(s: Stream, a: Answer, d: PullInto)
    requires Matched(s) && Fits(a, Some(d))
    ensures Matched(NewReadInto(s, a, d))
  {}

  lemma SettleFits(s: Stream, id: nat, a: Answer)
    requires AllFit(s.answers, s.asked)
    requires id < |s.asked| ==> Fits(a, s.asked[id])
    ensures var t := Settle(s, id, a); AllFit(t.answers, t.asked) && t.asked == s.asked
  {}

  lemma {:induction false} SettleWaitersFits(s: Stream, a: Answer)
    requires AllFit(s.answers, s.asked) && !Carries(a)
    ensures var t := SettleWaiters(s, a);
            AllFit(t.answers, t.asked) && t.asked == s.asked && t.readIntos == s.readIntos && t.pullIntos == s.pullIntos
            && t.waiters == []
    decreases |s.waiters|
  {
    if s.waiters != [] {
      var t := s.(waiters := s.waiters[1..]);
      SettleFits(t, s.waiters[0], a);
      SettleWaitersFits(Settle(t, s.waiters[0], a), a);
    }
  }

  lemma {:induction false} SettleReadIntosFits(s: Stream, a: Answer)
    requires AllFit(s.answers, s.asked) && !Carries(a)
    ensures var t := SettleReadIntos(s, a);
            AllFit(t.answers, t.asked) && t.readIntos == [] && t.pullIntos == s.pullIntos
            && t.waiters == s.waiters && t.asked == s.asked
    decreases |s.readIntos|
  {
    if s.readIntos != [] {
      var t := s.(readIntos := s.readIntos[1..]);
      SettleFits(t, s.readIntos[0], a);
      SettleReadIntosFits(Settle(t, s.readIntos[0], a), a);
    }
  }

  lemma SettledAllMatched(s: Stream, a: Answer)
    requires AllFit(s.answers, s.asked) && !Carries(a)
    ensures var t := SettleReadIntos(SettleWaiters(s, a), a);
            AllFit(t.answers, t.asked) && t.waiters == [] && t.readIntos == [] && t.pullIntos == s.pullIntos
  {
    SettleWaitersFits(s, a);
    SettleReadIntosFits(SettleWaiters(s, a), a);
  }

  /** With nobody waiting, only the answers matter. */
  lemma NobodyWaits(t: Stream)
    requires AllFit(t.answers, t.asked) && t.waiters == [] && t.readIntos == [] && t.pullIntos == []
    ensures Matched(t)
  {}

  lemma CloseStreamMatched(s: Stream)
    requires Matched(s)
    ensures Matched(CloseStream(s))
  {
    SettleWaitersFits(s.(state := Closed), Done);
  }

  lemma ErrorStreamMatched(s: Stream, reason: Reason)
    requires Matched(s)
    ensures Matched(ErrorStream(s, reason))
  {
    if s.state.Readable? {
      var t := s.(state := Errored, error := reason, queue := [], pullIntos := []);
      SettledAllMatched(t, ReadFailed(reason));
    }
  }

  lemma CancelMatched(s: Stream)
    requires Matched(s)
    ensures Matched(Cancel(s))
  {
    if s.state.Readable? {
      SettledAllMatched(s.(state := Closed), Done);
      NobodyWaits(Cancel(s));
    }
  }

  lemma ReleaseMatched(s: Stream)
    requires Inv(s) && Matched(s) && !s.reader.NoReader?
    ensures Matched(Release(s))
  {
    ReleaseEffect(s);
    var t := s.(reader := NoReader, pullIntos := OnlyReleased(s.pullIntos));
    SettleReadIntosFits(t, ReadFailed(Reason.Released));
    SettleWaitersFits(t, ReadFailed(Reason.Released));
  }

  // --------------------------------------------------------- filling and handing over

  /** Processing neither drops, adds nor reorders descriptors. */
  lemma {:induction false} ProcessKeepsAsked(q: seq<Entry<Bytes>>, ds: seq<PullInto>)
    ensures var p := Process(q, ds); SameAsked(ds, p.filled + p.pullIntos)
    decreases |ds|, Total(q)
  {
    if ds != [] && Total(q) != 0 {
      var f := FillPullInto(q, ds[0]);
      if f.ready {
        ProcessKeepsAsked(f.queue, ds[1..]);
        var p := Process(f.queue, ds[1..]);
        assert [f.desc] + p.filled + p.pullIntos == [f.desc] + (p.filled + p.pullIntos);
      } else if Total(f.queue) < Total(q) {
        ProcessKeepsAsked(f.queue, [f.desc] + ds[1..]);
      }
    }
  }

  lemma MatchSame(asked: seq<Option<PullInto>>, ids: seq<nat>, a: seq<PullInto>, b: seq<PullInto>)
    requires Match(asked, ids, a) && SameAsked(a, b)
    ensures Match(asked, ids, b)
  {}

  /** Complete descriptors, or at the end of the stream what they hold. */
  ghost predicate Deliverable(s: Stream, ds: seq<PullInto>) {
    forall k :: 0 <= k < |ds| ==>
      if s.state.Closed? then Partial(ds[k]) else Complete(ds[k])
  }

  lemma CommitFits(s: Stream, ds: seq<PullInto>)
    requires ds != [] && AllFit(s.answers, s.asked) && Match(s.asked, s.readIntos, ds + s.pullIntos)
    requires Deliverable(s, ds)
    ensures var t := Commit(s, ds[0]);
            && AllFit(t.answers, t.asked) && t.pullIntos == s.pullIntos && t.state == s.state
            && t.waiters == s.waiters && t.asked == s.asked && t.readIntos == s.readIntos[1..]
  {
    assert (ds + s.pullIntos)[0] == ds[0];
    SettleFits(s.(readIntos := s.readIntos[1..]), s.readIntos[0], View(ds[0].filled, s.state.Closed?));
  }

  lemma {:induction false} CommitAllMatched(s: Stream, ds: seq<PullInto>)
    requires AllFit(s.answers, s.asked) && Match(s.asked, s.readIntos, ds + s.pullIntos)
    requires Deliverable(s, ds)
    ensures var t := CommitAll(s, ds);
            && AllFit(t.answers, t.asked) && t.pullIntos == s.pullIntos
            && t.waiters == s.waiters && t.asked == s.asked
            && Match(t.asked, t.readIntos, t.pullIntos)
    decreases |ds|
  {
    if ds == [] {
      assert ds + s.pullIntos == s.pullIntos;
    } else {
      CommitFits(s, ds);
      assert (ds + s.pullIntos)[1..] == ds[1..] + s.pullIntos;
      CommitAllMatched(Commit(s, ds[0]), ds[1..]);
    }
  }

  /** Handing over a line's filled descriptors leaves the rest matched. */
  lemma HandedOverMatched(t: Stream, ds: seq<PullInto>, before: seq<PullInto>)
    requires AllFit(t.answers, t.asked) && t.waiters == [] && t.state.Readable?
    requires Match(t.asked, t.readIntos, before) && SameAsked(before, ds + t.pullIntos)
    requires AllComplete(ds) && ReleasedCount(t.pullIntos) == 0
    ensures Matched(CommitAll(t, ds))
  {
    MatchSame(t.asked, t.readIntos, before, ds + t.pullIntos);
    CommitAllMatched(t, ds);
    assert Unreleased(t.pullIntos) == t.pullIntos;
  }

  lemma ProcessedComplete(s: Stream, p: Processed)
    requires Sized(s.queue) && Line(s.pullIntos) && NoneReleased(s.pullIntos) && p == Process(s.queue, s.pullIntos)
    ensures AllComplete(p.filled) && ReleasedCount(p.pullIntos) == 0 && SameAsked(s.pullIntos, p.filled + p.pullIntos)
  {
    ProcessEffect(s.queue, s.pullIntos);
    ProcessKeepsAsked(s.queue, s.pullIntos);
  }

  lemma ProcessAndCommitMatched(s: Stream)
    requires Unprocessed(s) && AllFit(s.answers, s.asked) && Match(s.asked, s.readIntos, s.pullIntos)
    ensures Matched(ProcessAndCommit(s))
  {
    ProcessedComplete(s, Process(s.queue, s.pullIntos));
    var (t, filled) := ProcessPullIntos(s);
    HandedOverMatched(t, filled, s.pullIntos);
  }

  lemma SameAskedCons(ds: seq<PullInto>, first: PullInto, rest: seq<PullInto>)
    requires ds != [] && Asked(first) == Asked(ds[0]) && SameAsked(ds[1..], rest)
    ensures SameAsked(ds, [first] + rest)
  {
    forall k | 1 <= k < |ds|
      ensures Asked(ds[k]) == Asked(([first] + rest)[k])
    {
      assert ds[k] == ds[1..][k - 1];
    }
  }

  lemma FirstStaysAsked(s: Stream)
    requires Completing(s)
    ensures var (t, first) := TakeFirst(s);
            && t == s.(pullIntos := s.pullIntos[1..], queue := t.queue) && Sized(t.queue) && Complete(first)
            && Asked(first) == Asked(s.pullIntos[0])
  {
    TakeFirstEffect(s);
  }

  lemma CompleteFirstMatched(s: Stream)
    requires Completing(s) && AllFit(s.answers, s.asked) && Match(s.asked, s.readIntos, s.pullIntos)
    ensures Matched(CompleteFirst(s))
  {
    FirstStaysAsked(s);
    var (t, first) := TakeFirst(s);
    BehindFirstMatched(s, t, first);
  }

  lemma BehindFirstMatched(s: Stream, t: Stream, first: PullInto)
    requires s.pullIntos != [] && s.waiters == [] && s.state.Readable?
    requires AllFit(s.answers, s.asked) && Match(s.asked, s.readIntos, s.pullIntos)
    requires t == s.(pullIntos := s.pullIntos[1..], queue := t.queue) && Sized(t.queue)
    requires Complete(first) && Asked(first) == Asked(s.pullIntos[0])
    requires Line(t.pullIntos) && NoneReleased(t.pullIntos)
    ensures var (u, filled) := ProcessPullIntos(t); Matched(CommitAll(u, [first] + filled))
  {
    hide Process, CommitAll, Line, NoneReleased, Sized, AllFit, Match, AllComplete, SameAsked, Complete;
    ProcessedComplete(t, Process(t.queue, t.pullIntos));
    ProcessedMatched(s, t, first, Process(t.queue, t.pullIntos));
  }

  lemma ProcessedMatched(s: Stream, t: Stream, first: PullInto, p: Processed)
    requires s.pullIntos != [] && s.waiters == [] && s.state.Readable?
    requires AllFit(s.answers, s.asked) && Match(s.asked, s.readIntos, s.pullIntos)
    requires t == s.(pullIntos := s.pullIntos[1..], queue := t.queue)
    requires Complete(first) && Asked(first) == Asked(s.pullIntos[0])
    requires AllComplete(p.filled) && ReleasedCount(p.pullIntos) == 0 && SameAsked(t.pullIntos, p.filled + p.pullIntos)
    ensures Matched(CommitAll(t.(queue := p.queue, pullIntos := p.pullIntos, faults := t.faults + p.faults),
                              [first] + p.filled))
  {
    FirstAndFilled(s.pullIntos, first, p.filled, p.pullIntos);
    hide AllFit, Match, SameAsked, AllComplete, Complete, Matched, CommitAll;
    HandedOverMatched(t.(queue := p.queue, pullIntos := p.pullIntos, faults := t.faults + p.faults), [first] + p.filled,
                      s.pullIntos);
  }

  lemma FirstAndFilled(ds: seq<PullInto>, first: PullInto, filled: seq<PullInto>, rest: seq<PullInto>)
    requires ds != [] && Asked(first) == Asked(ds[0]) && SameAsked(ds[1..], filled + rest)
    requires Complete(first) && AllComplete(filled)
    ensures SameAsked(ds, [first] + filled + rest) && AllComplete([first] + filled)
  {
    SameAskedCons(ds, first, filled + rest);
    assert [first] + filled + rest == [first] + (filled + rest);
  }

  // ------------------------------------------------------------- source and reader

  lemma DetachedMatched(s: Stream)
    requires Inv(s) && s.state.Readable? && Matched(s)
    ensures Detached(s).pullIntos == Unreleased(s.pullIntos)
  {
    DetachedEffect(s);
  }

  lemma GiveToWaiterFits(s: Stream, bytes: Bytes)
    requires AllFit(s.answers, s.asked) && s.waiters != [] && Plain(s.asked, s.waiters)
    ensures var t := GiveToWaiter(s, bytes);
            && AllFit(t.answers, t.asked) && Plain(t.asked, t.waiters)
            && t.asked == s.asked && t.readIntos == s.readIntos && t.pullIntos == s.pullIntos
  {
    SettleFits(s.(waiters := s.waiters[1..]), s.waiters[0], Chunk(bytes));
  }

  lemma {:induction false} DrainFits(s: Stream)
    requires AllFit(s.answers, s.asked) && Plain(s.asked, s.waiters)
    ensures var t := DrainToWaiters(s);
            && AllFit(t.answers, t.asked) && Plain(t.asked, t.waiters)
            && t.asked == s.asked && t.readIntos == s.readIntos && t.pullIntos == s.pullIntos
    decreases |s.queue|
  {
    if s.waiters != [] && s.queue != [] {
      var t := s.(queue := s.queue[1..]);
      GiveToWaiterFits(t, s.queue[0].item);
      DrainFits(GiveToWaiter(t, s.queue[0].item));
    }
  }

  lemma EnqueueByobMatched(s: Stream, chunk: Bytes)
    requires Inv(s) && s.state.Readable? && s.reader.ByobReader? && Matched(s)
    ensures Matched(ProcessAndCommit(Push(Detached(s).(supplied := s.supplied + chunk), chunk)))
  {
    DetachedEffect(s);
    DetachedMatched(s);
    hide Detached, ProcessAndCommit, Line, AllFit, Match, Flatten;
    assert s.waiters + s.readIntos == s.readIntos;
    ProcessAndCommitMatched(Push(Detached(s).(supplied := s.supplied + chunk), chunk));
  }

  lemma EnqueueDefaultMatched(s: Stream, chunk: Bytes)
    requires Inv(s) && s.state.Readable? && !s.reader.ByobReader? && Matched(s)
    ensures Matched(EnqueueDefault(s, chunk))
  {
    DetachedEffect(s);
    DetachedMatched(s);
    var t := Detached(s).(supplied := s.supplied + chunk);
    DrainFits(t);
    var u := DrainToWaiters(t);
    if u.waiters != [] {
      GiveToWaiterFits(u, chunk);
    }
  }

  lemma EnqueueMatched(s: Stream, chunk: Bytes)
    requires Inv(s) && Matched(s) && CanCloseOrEnqueue(s)
    ensures Matched(Enqueue(s, chunk))
  {
    if s.reader.ByobReader? {
      EnqueueByobMatched(s, chunk);
      CallPullMatched(ProcessAndCommit(Push(Detached(s).(supplied := s.supplied + chunk), chunk)));
    } else {
      EnqueueDefaultMatched(s, chunk);
      CallPullMatched(EnqueueDefault(s, chunk));
    }
  }

  lemma RespondReleasedMatched(s: Stream, data: Bytes)
    requires Inv(s) && Matched(s) && s.state.Readable? && s.pullIntos != [] && s.pullIntos[0].released
    ensures Matched(ProcessAndCommit(DetachFirst(WithData(s, data))))
  {
    WithDataDetached(s, data);
    var u := DetachFirst(WithData(s, data));
    assert u.pullIntos == Unreleased(s.pullIntos);
    if s.readIntos == [] {
      assert ProcessAndCommit(u) == u;
    } else {
      WithDataUnprocessed(s, u);
      ProcessAndCommitMatched(u);
    }
  }

  lemma WithDataUnprocessed(s: Stream, u: Stream)
    requires Inv(s) && s.state.Readable? && s.pullIntos != [] && s.pullIntos[0].released && s.readIntos != []
    requires Sized(u.queue) && u == s.(supplied := u.supplied, pullIntos := s.pullIntos[1..], queue := u.queue)
    ensures Unprocessed(u)
  {
    OneKindOfRead(s);
    assert s.waiters + s.readIntos == s.readIntos;
  }

  lemma RespondInReadableStateMatched(s: Stream, data: Bytes)
    requires Inv(s) && Matched(s) && s.state.Readable? && s.pullIntos != []
    requires |s.pullIntos[0].filled| + |data| <= s.pullIntos[0].byteLength
    ensures Matched(RespondInReadableState(s, data))
  {
    var t := WithData(s, data);
    if s.pullIntos[0].released {
      RespondReleasedMatched(s, data);
    } else {
      assert SameAsked(s.pullIntos, t.pullIntos);
      MatchSame(s.asked, s.readIntos, s.pullIntos, t.pullIntos);
      if |t.pullIntos[0].filled| >= t.pullIntos[0].minimumFill {
        WithDataCompleting(s, data);
        CompleteFirstMatched(t);
      }
    }
  }

  lemma CommitPendingMatched(s: Stream)
    requires s.state.Closed? && Line(s.pullIntos) && WholeElements(s.pullIntos)
    requires AllFit(s.answers, s.asked) && Plain(s.asked, s.waiters) && Match(s.asked, s.readIntos, s.pullIntos)
    ensures Matched(CommitPending(s))
  {
    CommitPendingIs(s);
    assert s.pullIntos + [] == s.pullIntos;
    CommitAllMatched(s.(pullIntos := []), s.pullIntos);
  }

  lemma RespondInClosedStateMatched(s: Stream)
    requires Inv(s) && Whole(s) && Matched(s) && s.state.Closed? && s.pullIntos != []
    ensures Matched(RespondInClosedState(s))
  {
    var t := if s.pullIntos[0].released then s.(pullIntos := s.pullIntos[1..]) else s;
    assert t.pullIntos == Unreleased(s.pullIntos);
    if s.reader.ByobReader? {
      CommitPendingMatched(t);
    }
  }

  lemma RespondMatched(s: Stream, data: Bytes)
    requires Inv(s) && Whole(s) && Matched(s)
    ensures Matched(Respond(s, data))
  {
    if s.pullIntos != [] {
      if s.state.Closed? {
        RespondInClosedStateMatched(s);
      } else if data != [] && |s.pullIntos[0].filled| + |data| <= s.pullIntos[0].byteLength {
        RespondInReadableStateMatched(s, data);
        CallPullMatched(RespondInReadableState(s, data));
      }
    }
  }

  lemma EnlistMatched(s: Stream, d: PullInto, filled: PullInto)
    requires Matched(s) && Asked(filled) == d && !filled.released
    ensures Matched(Enlist(s, d, filled))
  {
    var t := Enlist(s, d, filled);
    assert Unreleased(t.pullIntos) == Unreleased(s.pullIntos) + [filled];
  }

  lemma HandleQueueDrainMatched(s: Stream)
    requires Matched(s)
    ensures Matched(HandleQueueDrain(s))
  {
    SameMatched(s, s.(queue := []));
    CloseStreamMatched(s.(queue := []));
    CallPullMatched(s);
  }

  lemma QueuedReadMatched(s: Stream, d: PullInto)
    requires ReadsQueued(s, d) && Matched(s)
    ensures Matched(AddPullInto(s, d))
  {
    FillEffect(s.queue, d);
    AnswerFillMatched(s, d, FillPullInto(s.queue, d));
  }

  lemma AnswerFillMatched(s: Stream, d: PullInto, f: Fill)
    requires Matched(s) && f.desc == d.(filled := f.desc.filled) && d == Asked(d)
    requires f.ready ==> Complete(f.desc)
    ensures Matched(AnswerFill(s, d, f))
  {
    var t := AfterFill(s, f);
    SameMatched(s, t);
    hide Matched, HandleQueueDrain, ErrorStream, CallPullIfNeeded;
    if f.ready {
      NewReadIntoMatched(t, View(f.desc.filled, false), d);
      HandleQueueDrainMatched(NewReadInto(t, View(f.desc.filled, false), d));
    } else if s.closeRequested {
      ErrorStreamMatched(t, InvalidState);
      NewReadMatched(ErrorStream(t, InvalidState), ReadFailed(InvalidState));
    } else {
      EnlistMatched(t, d, f.desc);
      CallPullMatched(Enlist(t, d, f.desc));
    }
  }

  lemma AddPullIntoMatched(s: Stream, d: PullInto)
    requires Inv(s) && Matched(s) && s.reader.ByobReader? && !s.state.Errored?
    requires Unfilled(d) && d == Asked(d)
    ensures Matched(AddPullInto(s, d))
  {
    if s.pullIntos != [] {
      EnlistMatched(s, d, d);
    } else if s.state.Closed? {
      EmptyIsWhole(d.elementSize);
      NewReadIntoMatched(s, View([], true), d);
    } else if Total(s.queue) == 0 {
      EnlistMatched(s, d, d);
      CallPullMatched(Enlist(s, d, d));
    } else {
      QueuedReadMatched(s, d);
    }
  }

  lemma ReadIntoMatched(s: Stream, length: nat, elementSize: ElementSize, min: nat)
    requires Inv(s) && Matched(s) && s.reader.ByobReader?
    ensures Matched(ReadInto(s, length, elementSize, min))
  {
    if length == 0 || min == 0 || min > length {
      NewReadMatched(s, ReadFailed(InvalidState));
    } else if s.state.Errored? {
      NewReadMatched(s, ReadFailed(s.error));
    } else {
      MulMonotone(1, min, elementSize);
      MulMonotone(min, length, elementSize);
      MultipleMod(min, elementSize);
      MultipleMod(length, elementSize);
      AddPullIntoMatched(s, PullInto([], length * elementSize, min * elementSize, elementSize, false));
    }
  }

  lemma ReadMatched(s: Stream)
    requires Inv(s) && Matched(s)
    ensures Matched(Read(s))
  {
    match s.state
    case Closed => NewReadMatched(s, Done);
    case Errored => NewReadMatched(s, ReadFailed(s.error));
    case Readable =>
      if s.queue != [] {
        var u := s.(queue := s.queue[1..]);
        SameMatched(s, u);
        var t := NewRead(u, Chunk(s.queue[0].item));
        NewReadMatched(u, Chunk(s.queue[0].item));
        CloseStreamMatched(t);
        CallPullMatched(t);
      } else {
        NewReadMatched(s, Waiting);
        CallPullMatched(NewRead(s, Waiting).(waiters := s.waiters + [|s.answers|]));
      }
  }

  lemma ControllerCloseMatched(s: Stream)
    requires Matched(s)
    ensures Matched(ControllerClose(s))
  {
    CloseStreamMatched(s);
    ErrorStreamMatched(s, InvalidState);
    SameMatched(s, s.(closeRequested := true));
  }

  lemma SettlementMatched(s: Stream, r: Settlement)
    requires Matched(s)
    ensures Matched(OnStart(s, r)) && (s.pullsOut > 0 ==> Matched(OnPull(s, r)))
  {
    var t := s.(startOut := false);
    SameMatched(s, t);
    CallPullMatched(t.(started := true));
    if r.Failed? {
      ErrorStreamMatched(t, r.error);
    }
    if s.pullsOut > 0 {
      var u := s.(pullsOut := s.pullsOut - 1);
      SameMatched(s, u);
      CallPullMatched(u.(pulling := false, pullAgain := false));
      if r.Failed? {
        ErrorStreamMatched(u, r.error);
      }
    }
  }

  lemma StepMatched(s: Stream, e: Event)
    requires Inv(s) && Whole(s) && Matched(s)
    ensures Matched(Step(s, e))
  {
    hide Inv, Whole, Release, Read, ReadInto, Cancel, Enqueue, Respond, ControllerClose, ErrorStream, OnStart, OnPull;
    match e
    case AcquireCall(byob) =>
    case ReleaseCall => if !s.reader.NoReader? { ReleaseMatched(s); }
    case ReadCall => ReadMatched(s);
    case ReadIntoCall(length, elementSize, min) =>
      if s.reader.ByobReader? { ReadIntoMatched(s, length, elementSize, min); }
    case CancelCall => CancelMatched(s);
    case EnqueueCall(chunk) => if CanCloseOrEnqueue(s) { EnqueueMatched(s, chunk); }
    case RespondCall(data) => RespondMatched(s, data);
    case NewViewCall(at, data) => RespondMatched(s, data);
    case CloseCall => ControllerCloseMatched(s);
    case ErrorCall(reason) => ErrorStreamMatched(s, reason);
    case StartSettles(r) => SettlementMatched(s, r);
    case PullSettles(r) => SettlementMatched(s, r);
  }

  lemma {:induction false} RunMatched(highWaterMark: nat, events: seq<Event>)
    ensures Matched(Run(Init(highWaterMark), events)) && Whole(Run(Init(highWaterMark), events))
    decreases |events|
  {
    if events != [] {
      var before := events[..|events| - 1];
      RunMatched(highWaterMark, before);
      RunKeepsInv(highWaterMark, before);
      StepMatched(Run(Init(highWaterMark), before), events[|events| - 1]);
      StepWhole(Run(Init(highWaterMark), before), events[|events| - 1]);
    }
  }

  /** Whatever a BYOB read is answered with fits the view it asked for and has whole elements;
      it has at least the minimum the read asked for exactly if it does not end the stream. */
  lemma ViewsAreComplete(s: Stream, i: nat)
    requires Reachable(s) && i < |s.answers| && s.answers[i].View?
    ensures i < |s.asked| && s.asked[i].Some?
    ensures var d := s.asked[i].value;
            && |s.answers[i].bytes| <= d.byteLength
            && |s.answers[i].bytes| % d.elementSize == 0
            && (|s.answers[i].bytes| >= d.minimumFill <==> !s.answers[i].done)
  {
    var highWaterMark: nat, events: seq<Event> :| s == Run(Init(highWaterMark), events);
    RunMatched(highWaterMark, events);
    assert Fits(s.answers[i], s.asked[i]);
  }
}
