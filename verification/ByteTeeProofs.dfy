/** What every run of a byte tee keeps: both branches accept the same bytes, and those are
    the bytes the source delivered. */
module ByteTeeProofs {
  import opened Base
  import opened Fifo
  import opened ByteSpec
  import opened ByteProofs
  import opened ByteRequests
  import opened ByteAnswers
  import opened ByteEnds
  import opened BytePromises
  import Settles = ByteSettles
  import Steps = ByteSteps
  import opened ByteTeeSpec

  // ------------------------------------------------------------- one branch

  predicate Open(b: Stream) {
    CanCloseOrEnqueue(b)
  }

  /** The first pending view, if there is one, is still first and still as full. */
  predicate FirstKept(b: Stream, c: Stream) {
    b.pullIntos != [] ==>
      && c.pullIntos != []
      && c.pullIntos[0].filled == b.pullIntos[0].filled
      && c.pullIntos[0].byteLength == b.pullIntos[0].byteLength
  }

  /** What no user of a branch can do: supply bytes, close or reopen it, or touch the view the
      tee may be reading into; and only an open branch pulls. */
  ghost predicate Steady(b: Stream, c: Stream) {
    && c.supplied == b.supplied
    && (Open(c) <==> Open(b))
    && (Open(b) ==> FirstKept(b, c))
    && (c.pulls > b.pulls ==> Open(c))
    && (b.state.Errored? ==> c.state.Errored?)
    && Mild(b, c)
  }

  /** A branch fails by itself only with InvalidState, as when it cannot close. */
  predicate Mild(b: Stream, c: Stream) {
    c.state.Errored? ==> (b.state.Errored? && c.error == b.error) || c.error == InvalidState
  }

  /** A stream that has failed keeps its error. */
  predicate KeepsError(s: Stream, t: Stream) {
    s.state.Errored? ==> t.state.Errored? && t.error == s.error
  }

  /** A read leaves the first pending view alone. */
  lemma ReadFirstStays(b: Stream)
    requires Open(b)
    ensures FirstKept(b, Read(b))
  {
    hide CallPullIfNeeded, CloseStream, FirstKept;
    if b.queue != [] {
      Steps.CallPullSame(NewRead(b.(queue := b.queue[1..]), Chunk(b.queue[0].item)));
    } else {
      Steps.CallPullSame(NewRead(b, Waiting).(waiters := b.waiters + [|b.answers|]));
    }
    SameFirst(b, Read(b));
  }

  lemma SameFirst(b: Stream, c: Stream)
    requires c.pullIntos == b.pullIntos || (b.pullIntos != [] ==> c.pullIntos != [] && c.pullIntos[0] == b.pullIntos[0])
    ensures FirstKept(b, c)
  {}

  lemma ReadIntoFirstStays(b: Stream, length: nat, elementSize: ElementSize, min: nat)
    requires Open(b)
    ensures FirstKept(b, ReadInto(b, length, elementSize, min))
  {
    hide AnswerFill, FillPullInto, CallPullIfNeeded, FirstKept;
    SameFirst(b, ReadInto(b, length, elementSize, min));
  }

  lemma FirstStays(b: Stream, e: Event)
    requires Inv(b) && UserEvent(e) && Open(b)
    ensures FirstKept(b, Step(b, e))
  {
    if e.ReleaseCall? && !b.reader.NoReader? {
      ReleaseEffect(b);
      hide Release, Inv;
    } else if Steps.Issues(b, e) {
      hide Read, ReadInto, Inv, FirstKept;
      if e.ReadCall? {
        ReadFirstStays(b);
      } else {
        ReadIntoFirstStays(b, e.length, e.elementSize, e.min);
      }
    } else {
      hide Inv, Read, ReadInto;
    }
  }

  lemma UserEventSteady(b: Stream, e: Event)
    requires Inv(b) && UserEvent(e)
    ensures Steady(b, Step(b, e))
  {
    Steps.StepFollows(b, e);
    if Open(b) {
      FirstStays(b, e);
    }
    hide Step, Inv, FirstKept, Steps.WaitingFollow, Steps.NewFollows;
  }

  // ---------------------------------------------------------- reading the source

  function Waits(s: Stream): seq<nat> {
    s.waiters + s.readIntos
  }

  function Carried(a: Answer): Bytes {
    if Carries(a) then a.bytes else []
  }

  /** With one read outstanding, a step that starts none delivers just what that read got. */
  lemma SoleReadDelivers(s: Stream, t: Stream, id: nat)
    requires Proved(s) && Proved(t) && Follows(s, t) && |t.answers| == |s.answers|
    requires Waits(s) == [id]
    ensures id < |t.answers| && t.delivered == s.delivered + Carried(t.answers[id])
    ensures Waits(t) == if t.answers[id].Waiting? then [id] else []
  {
    assert Waits(s)[0] == id;
    forall i | 0 <= i < |t.answers| && i != id
      ensures t.answers[i] == s.answers[i] && !t.answers[i].Waiting?
    {
      assert s.answers[i].Waiting? ==> i in Waits(s);
    }
    OnlyWaits(t, id);
    OrderGrows(s, t, id);
  }

  lemma OnlyWaits(t: Stream, id: nat)
    requires Inv(t) && id < |t.answers|
    requires forall i :: 0 <= i < |t.answers| && i != id ==> !t.answers[i].Waiting?
    ensures Waits(t) == if t.answers[id].Waiting? then [id] else []
  {
    var ids := Waits(t);
    forall k | 0 <= k < |ids|
      ensures ids[k] == id
    {}
    var padded := ids + [id, id];
    assert padded[0] == padded[1] == id;
    if t.answers[id].Waiting? {
      assert id in ids;
      assert |ids| <= 1;
    } else {
      assert |ids| == 0;
    }
  }

  lemma NoneWaits(t: Stream)
    requires Inv(t)
    requires forall i :: 0 <= i < |t.answers| ==> !t.answers[i].Waiting?
    ensures Waits(t) == []
  {
    var padded := Waits(t) + [0];
    assert padded[0] in padded;
    assert |Waits(t)| == 0;
  }

  lemma NotTwice(a: seq<nat>, b: seq<nat>, k: nat)
    requires a <= b && NoDuplicates(b) && |a| <= k < |b|
    ensures b[k] !in a
  {
    forall j | 0 <= j < |a|
      ensures a[j] != b[k]
    {
      assert b[j] != b[k];
    }
  }

  /** A log that grew only by one read grew by that read's answer. */
  lemma OrderGrows(s: Stream, t: Stream, id: nat)
    requires Logged(s) && Logged(t) && s.order <= t.order && id < |t.answers|
    requires |s.answers| <= |t.answers| && (id < |s.answers| ==> !Carries(s.answers[id]))
    requires Kept(s.answers, t.answers)
    requires forall i :: 0 <= i < |t.answers| && i != id && Carries(t.answers[i]) ==>
               i < |s.answers| && Carries(s.answers[i])
    ensures t.delivered == s.delivered + Carried(t.answers[id])
  {
    var n := |s.order|;
    forall k | n <= k < |t.order|
      ensures t.order[k] == id
    {
      var i := t.order[k];
      assert i != id ==> i in s.order;
      NotTwice(s.order, t.order, k);
    }
    HandedKept(s.answers, t.answers, s.order);
    if Carries(t.answers[id]) {
      assert id in t.order && id !in s.order;
      var padded := t.order + [id, id];
      assert padded[n] == padded[n + 1] == id;
      assert |t.order| <= n + 1;
      assert t.order[..n] == s.order;
    } else {
      assert |t.order| <= n;
      assert t.order == s.order;
      assert s.delivered + [] == s.delivered;
    }
  }

  /** With no read outstanding, a step that starts none delivers nothing. */
  lemma NoReadDelivers(s: Stream, t: Stream)
    requires Proved(s) && Proved(t) && Follows(s, t) && |t.answers| == |s.answers|
    requires Waits(s) == []
    ensures t.delivered == s.delivered && Waits(t) == []
  {
    forall i | 0 <= i < |t.answers|
      ensures t.answers[i] == s.answers[i] && !t.answers[i].Waiting?
    {
      assert s.answers[i].Waiting? ==> i in Waits(s);
    }
    NoneWaits(t);
    HandedKept(s.answers, t.answers, s.order);
    if |t.order| > |s.order| {
      NotTwice(s.order, t.order, |s.order|);
    }
    assert t.order == s.order;
  }

  /** A new read on a stream with none outstanding delivers what that read got. */
  lemma NewReadDelivers(s: Stream, t: Stream)
    requires Proved(s) && Proved(t) && Follows(s, t) && |t.answers| == |s.answers| + 1
    requires Waits(s) == []
    ensures t.delivered == s.delivered + Carried(t.answers[|s.answers|])
    ensures Waits(t) == if t.answers[|s.answers|].Waiting? then [|s.answers|] else []
  {
    var id := |s.answers|;
    forall i | 0 <= i < |t.answers| && i != id
      ensures t.answers[i] == s.answers[i] && !t.answers[i].Waiting?
    {
      assert s.answers[i].Waiting? ==> i in Waits(s);
    }
    OnlyWaits(t, id);
    OrderGrows(s, t, id);
  }

  // ------------------------------------------- what the tee needs of a branch's steps

  lemma UserLeaf(b: Stream, e: Event)
    requires Good(b) && UserEvent(e)
    ensures Good(Step(b, e)) && Steady(b, Step(b, e))
  {
    Unseal(b);
    UserEventSteady(b, e);
    StepGood(b, e);
  }

  /** What a step of the tee's does to a branch. */
  ghost predicate Told(b: Stream, c: Stream, supplied: Bytes) {
    Good(c) && c.supplied == b.supplied + supplied && (b.state.Errored? ==> c.state.Errored?) && Mild(b, c)
  }

  lemma CloseLeaf(b: Stream)
    requires Good(b)
    ensures Told(b, ControllerClose(b), []) && !Open(ControllerClose(b))
  {
    hide ControllerClose, Inv, Good,
         Steps.Kept, Steps.WaitingFollow, Steps.NewFollows, Steps.AskedFollow, Steps.PullsFollow;
    StepGood(b, CloseCall);
    Unseal(b);
    Steps.CloseFollows(b);
  }

  lemma RespondEmptyLeaf(b: Stream)
    requires Good(b)
    ensures var c := Respond(b, []);
            Told(b, c, []) && c.state == b.state && (Open(c) <==> Open(b))
  {
    StepGood(b, RespondCall([]));
    Unseal(b);
    Steps.RespondFollows(b, RespondCall([]), []);
    hide Respond, Inv, Good,
         Steps.Kept, Steps.WaitingFollow, Steps.NewFollows, Steps.AskedFollow, Steps.PullsFollow;
  }

  lemma NewViewLeaf(b: Stream, at: nat, data: Bytes)
    requires Good(b)
    ensures var c := RespondWithNewView(b, at, data);
            && Good(c) && Mild(b, c)
            && (b.state.Errored? ==> c.state.Errored?)
            && (Open(b) && !NewViewThrows(b, at, data) ==> Told(b, c, data) && Open(c))
            && (data == [] ==> Told(b, c, []) && (Open(c) <==> Open(b)))
  {
    hide Respond, RespondWithNewView, Good;
    StepGood(b, NewViewCall(at, data));
    Unseal(b);
    assert Inv(b);
    hide Inv;
    Steps.RespondFollows(b, NewViewCall(at, data), data);
    NewViewTells(b, NewViewCall(at, data), RespondWithNewView(b, at, data));
  }

  lemma NewViewTells(b: Stream, e: Event, c: Stream)
    requires e.NewViewCall? && Steps.Follows(b, e, c)
    ensures Mild(b, c) && (b.state.Errored? ==> c.state.Errored?)
    ensures Open(b) && !NewViewThrows(b, e.at, e.data) ==> c.supplied == b.supplied + e.data && Open(c)
    ensures e.data == [] ==> c.supplied == b.supplied + [] && (Open(c) <==> Open(b))
  {
    hide Steps.Kept, Steps.WaitingFollow, Steps.NewFollows, Steps.AskedFollow, Steps.PullsFollow;
  }

  lemma EnqueueLeaf(b: Stream, chunk: Bytes)
    requires Good(b)
    ensures var c := ControllerEnqueue(b, chunk);
            if Open(b) then Told(b, c, chunk) && Open(c) else Good(c) && c == b
  {
    StepGood(b, EnqueueCall(chunk));
    Unseal(b);
    Steps.EnqueueFollows(b, chunk);
    hide Enqueue, Inv, Good,
         Steps.Kept, Steps.WaitingFollow, Steps.NewFollows, Steps.AskedFollow, Steps.PullsFollow;
  }

  lemma CancelLeaf(b: Stream)
    requires Good(b)
    ensures var c := Cancel(b);
            && Told(b, c, []) && !c.state.Readable? && (!b.state.Readable? ==> c == b)
  {
    StepGood(b, CancelCall);
    Unseal(b);
    Steps.CancelFollows(b);
    if b.state.Readable? {
      hide Cancel, Inv, Good,
         Steps.Kept, Steps.WaitingFollow, Steps.NewFollows, Steps.AskedFollow, Steps.PullsFollow;
    }
  }

  lemma ErrorLeaf(b: Stream, reason: Reason)
    requires Good(b)
    ensures var c := ErrorStream(b, reason);
            && Good(c) && c.supplied == b.supplied && (b.state.Errored? ==> c.state.Errored?)
            && if b.state.Readable? then c.state.Errored? && c.error == reason else c == b
  {
    StepGood(b, ErrorCall(reason));
    Unseal(b);
    Steps.ErrorFollows(b, reason);
    if b.state.Readable? {
      hide ErrorStream, Inv, Good,
         Steps.Kept, Steps.WaitingFollow, Steps.NewFollows, Steps.AskedFollow, Steps.PullsFollow;
    }
  }

  // ------------------------------------------- what the tee needs of the source's steps

  /** The source's side neither starts a read nor changes the reader. */
  lemma SourceEventFrame(s: Stream, e: Event)
    requires Inv(s) && (SourceEvent(e) || e.CancelCall?)
    ensures Step(s, e).asked == s.asked && Step(s, e).reader == s.reader && |Step(s, e).answers| == |s.answers|
    ensures KeepsError(s, Step(s, e))
  {
    Steps.StepFollows(s, e);
    hide Step, Inv;
  }

  /** After a step of the source with the tee's read `id` outstanding. */
  ghost predicate Reported(s: Stream, t: Stream, id: nat) {
    && t.reader == s.reader && t.asked == s.asked && KeepsError(s, t)
    && id < |t.answers| == |t.asked|
    && t.delivered == s.delivered + Carried(t.answers[id])
    && Waits(t) == (if t.answers[id].Waiting? then [id] else [])
    && Fits(t.answers[id], t.asked[id])
    && (Ends(t.answers[id]) || t.answers[id].ReadFailed? ==> !t.state.Readable?)
    && (!s.state.Readable? ==> !t.state.Readable? && !Feeds(t.answers[id]))
  }

  /** A waiting read fails only with the stream. */
  lemma FailsWithStream(s: Stream, e: Event, t: Stream, id: nat)
    requires Steps.Follows(s, e, t) && (SourceEvent(e) || e.CancelCall?)
    requires id < |s.answers| && s.answers[id].Waiting?
    ensures t.state.Readable? ==> !t.answers[id].ReadFailed?
  {
    var after := t.answers[..|s.answers|];
    assert after[id] == t.answers[id];
    if t.state.Readable? {
      if Steps.Enqueues(s, e) && !s.reader.ByobReader? {
        var q := Steps.Offered(s, e.chunk);
        NotFailed(s.answers, s.waiters, Settles.ChunksOf(q[..Settles.Least(|q|, |s.waiters|)]), after, id);
      } else if Steps.Enqueues(s, e) || Steps.Fills(s, e) {
        var ds :| Steps.HandedOut(s, ds, after, t);
        NotFailed(s.answers, s.readIntos, Settles.Views(ds, false), after, id);
      }
    }
  }

  lemma NotFailed(before: seq<Answer>, ids: seq<nat>, given: seq<Answer>, after: seq<Answer>, i: nat)
    requires Settles.EachGets(before, ids, given, after) && i < |before| && before[i].Waiting?
    requires forall k :: 0 <= k < |given| ==> !given[k].ReadFailed?
    ensures !after[i].ReadFailed?
  {
    if i in ids[..|given|] {
      var k :| 0 <= k < |given| && ids[..|given|][k] == i;
      assert after[ids[k]] == given[k];
    }
  }

  lemma SourceLeaf(s: Stream, e: Event, id: nat)
    requires Good(s) && Waits(s) == [id] && (SourceEvent(e) || e.CancelCall?)
    ensures Good(Step(s, e)) && Reported(s, Step(s, e), id)
  {
    hide Step, Good, Inv, Logged, Follows, Steps.Truthful, Steps.Follows;
    StepGood(s, e);
    Unseal(s);
    StepProved(s, e);
    SourceEventFrame(s, e);
    StepTimely(s, e);
    SoleWaits(s, id);
    Steps.StepFollows(s, e);
    FailsWithStream(s, e, Step(s, e), id);
    SoleReadDelivers(s, Step(s, e), id);
  }

  lemma SoleWaits(s: Stream, id: nat)
    requires Inv(s) && Waits(s) == [id]
    ensures id < |s.answers| && s.answers[id].Waiting?
  {
    assert Waits(s)[0] == id;
  }

  lemma IdleSourceLeaf(s: Stream, e: Event)
    requires Good(s) && Waits(s) == [] && (SourceEvent(e) || e.CancelCall?)
    ensures var t := Step(s, e);
            && Good(t) && t.reader == s.reader && t.asked == s.asked && KeepsError(s, t)
            && t.delivered == s.delivered && Waits(t) == []
            && (!s.state.Readable? ==> !t.state.Readable?)
  {
    StepGood(s, e);
    Unseal(s);
    StepProved(s, e);
    SourceEventFrame(s, e);
    StepTimely(s, e);
    NoReadDelivers(s, Step(s, e));
  }

  lemma SwapLeaf(s: Stream, r: Reader)
    requires Good(s) && Waits(s) == [] && !s.reader.NoReader? && !r.NoReader?
    ensures var u := SwapTo(s, r);
            && Good(u) && u.reader == r && Waits(u) == []
            && u.answers == s.answers && u.asked == s.asked && u.delivered == s.delivered
            && u.state == s.state && u.error == s.error
  {
    assert s.waiters == [] && s.readIntos == [];
    if s.reader != r {
      StepGood(s, ReleaseCall);
      StepGood(Step(s, ReleaseCall), AcquireCall(r.ByobReader?));
    }
  }

  /** After a new read by the tee on a source it reads alone. */
  ghost predicate Issued(s: Stream, t: Stream, ask: Option<PullInto>) {
    && t.reader == s.reader && t.asked == s.asked + [ask] && KeepsError(s, t)
    && |t.answers| == |t.asked| == |s.answers| + 1
    && t.delivered == s.delivered + Carried(t.answers[|s.answers|])
    && Waits(t) == (if t.answers[|s.answers|].Waiting? then [|s.answers|] else [])
    && Fits(t.answers[|s.answers|], ask)
    && Timely(s, t) && (t.answers[|s.answers|].ReadFailed? ==> !t.state.Readable?)
  }

  lemma ReadLeaf(s: Stream)
    requires Good(s) && s.reader.DefaultReader? && Waits(s) == []
    ensures Good(Read(s)) && Issued(s, Read(s), None)
  {
    NewReadLeaf(s, ReadCall, None);
  }

  lemma PullIntoLeaf(s: Stream, d: PullInto)
    requires Good(s) && s.reader.ByobReader? && !s.state.Errored? && Waits(s) == []
    requires d == PullInto([], d.byteLength, 1, 1, false) && d.byteLength > 0
    ensures Good(AddPullInto(s, d)) && Issued(s, AddPullInto(s, d), Some(d))
  {
    assert AddPullInto(s, d) == Step(s, ReadIntoCall(d.byteLength, 1, 1));
    NewReadLeaf(s, ReadIntoCall(d.byteLength, 1, 1), Some(d));
  }

  lemma NewReadLeaf(s: Stream, e: Event, ask: Option<PullInto>)
    requires Good(s) && Waits(s) == [] && Steps.Issues(s, e)
    requires if e.ReadCall? then ask.None?
             else && e.length > 0 && e.elementSize == 1 && e.min == 1 && !s.state.Errored?
                  && ask == Some(PullInto([], e.length, 1, 1, false))
    ensures Good(Step(s, e)) && Issued(s, Step(s, e), ask)
  {
    hide Step, Good, Inv, Logged, Follows, Steps.Truthful;
    StepGood(s, e);
    Unseal(s);
    StepProved(s, e);
    Steps.StepFollows(s, e);
    StepTimely(s, e);
    NewReadDelivers(s, Step(s, e));
  }
}
