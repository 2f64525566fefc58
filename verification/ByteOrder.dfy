/** Whether default reads of a byte stream are answered in the order they were issued.  On
    a default stream they always are; here a new read can overtake a waiting one, and only
    after a released BYOB read was answered while that one waited. */
module ByteOrder {
  import opened Base
  import opened Fifo
  import opened ByteSpec
  import opened ByteProofs
  import opened ByteTurns

  /** A read issued now would be answered at once, past the reads that wait. */
  predicate WouldOvertake(s: Stream) {
    s.waiters != [] && s.queue != []
  }

  /** The source answers a released BYOB read, with bytes that fit, while default reads wait. */
  predicate AnswersReleased(s: Stream, e: Event) {
    && (e.RespondCall? || (e.NewViewCall? && s.pullIntos != [] && |s.pullIntos[0].filled| == e.at))
    && s.state.Readable? && s.waiters != []
    && s.pullIntos != [] && s.pullIntos[0].released
    && e.data != [] && |s.pullIntos[0].filled| + |e.data| <= s.pullIntos[0].byteLength
  }

  lemma CallPullKeepsOrder(s: Stream)
    ensures WouldOvertake(CallPullIfNeeded(s)) <==> WouldOvertake(s)
  {}

  lemma WaitersNeedDefault(s: Stream)
    requires Inv(s)
    ensures !s.state.Readable? || !s.reader.DefaultReader? ==> !WouldOvertake(s)
  {}

  lemma EnqueueOrder(s: Stream, chunk: Bytes)
    requires Inv(s) && CanCloseOrEnqueue(s)
    ensures !WouldOvertake(Enqueue(s, chunk))
  {
    EnqueueKeepsInv(s, chunk);
    WaitersNeedDefault(Enqueue(s, chunk));
    if !s.reader.ByobReader? {
      DetachedDrains(s, s.supplied + chunk);
      var t := Detached(s).(supplied := s.supplied + chunk);
      DrainEffect(t);
      var u := DrainToWaiters(t);
      if u.waiters != [] {
        GiveToWaiterEffect(u, chunk);
      }
      CallPullKeepsOrder(EnqueueDefault(s, chunk));
    }
  }

  lemma RespondReleasedOrder(s: Stream, data: Bytes)
    requires Inv(s) && s.state.Readable? && s.pullIntos != [] && s.pullIntos[0].released && s.waiters != []
    requires data != []
    ensures WouldOvertake(RespondInReadableState(s, data))
  {
    OneKindOfRead(s);
    WithDataDetached(s, data);
    var u := DetachFirst(WithData(s, data));
    var held := s.pullIntos[0].filled + data;
    assert u.pullIntos == [] && u.queue == s.queue + [Entry(held, |held|)];
    assert ProcessAndCommit(u) == u;
  }

  lemma RespondOrder(s: Stream, data: Bytes)
    requires Inv(s) && !WouldOvertake(s)
    ensures WouldOvertake(Respond(s, data)) <==> AnswersReleased(s, RespondCall(data))
  {
    RespondKeepsInv(s, data);
    WaitersNeedDefault(Respond(s, data));
    if s.pullIntos != [] && data != [] && !s.state.Closed?
       && |s.pullIntos[0].filled| + |data| <= s.pullIntos[0].byteLength {
      RespondInReadableStateKeepsInv(s, data);
      var t := RespondInReadableState(s, data);
      CallPullKeepsOrder(t);
      if s.waiters != [] {
        OneKindOfRead(s);
        RespondReleasedOrder(s, data);
      } else {
        RespondWithoutWaiters(s, data);
      }
    } else if s.pullIntos != [] && s.state.Closed? {
      RespondInClosedStateKeepsInv(s);
    }
  }

  /** Answering a view gives no default read anything to wait for. */
  lemma RespondWithoutWaiters(s: Stream, data: Bytes)
    requires Inv(s) && s.state.Readable? && s.pullIntos != [] && s.waiters == []
    requires |s.pullIntos[0].filled| + |data| <= s.pullIntos[0].byteLength
    ensures RespondInReadableState(s, data).waiters == []
  {
    if s.pullIntos[0].released {
      WithDataDetached(s, data);
      ProcessKeepsWaiters(DetachFirst(WithData(s, data)));
    } else if |s.pullIntos[0].filled| + |data| >= s.pullIntos[0].minimumFill {
      CompleteKeepsWaiters(WithData(s, data));
    }
  }

  lemma {:induction false} CommitAllKeepsWaiters(s: Stream, ds: seq<PullInto>)
    ensures CommitAll(s, ds).waiters == s.waiters
    decreases |ds|
  {
    if ds != [] {
      CommitAllKeepsWaiters(Commit(s, ds[0]), ds[1..]);
    }
  }

  lemma ProcessKeepsWaiters(s: Stream)
    ensures ProcessAndCommit(s).waiters == s.waiters
  {
    CommitAllKeepsWaiters(ProcessPullIntos(s).0, ProcessPullIntos(s).1);
  }

  lemma CompleteKeepsWaiters(s: Stream)
    requires s.pullIntos != []
    ensures CompleteFirst(s).waiters == s.waiters
  {
    var (t, first) := TakeFirst(s);
    var (u, filled) := ProcessPullIntos(t);
    CommitAllKeepsWaiters(u, [first] + filled);
  }

  lemma TakeChunkOrder(s: Stream)
    requires s.queue != [] && s.waiters == []
    ensures !WouldOvertake(TakeChunk(s))
  {
    var t := NewRead(s.(queue := s.queue[1..]), Chunk(s.queue[0].item));
    assert CloseStream(t) == t.(state := Closed);
    CallPullKeepsOrder(t);
  }

  lemma ReadOrder(s: Stream)
    requires Inv(s) && !WouldOvertake(s) && s.reader.DefaultReader?
    ensures !WouldOvertake(Read(s))
  {
    if s.state.Readable? {
      if s.queue != [] {
        TakeChunkOrder(s);
      } else {
        CallPullKeepsOrder(NewRead(s, Waiting).(waiters := s.waiters + [|s.answers|]));
      }
    }
  }

  lemma ReadIntoOrder(s: Stream, length: nat, elementSize: ElementSize, min: nat)
    requires Inv(s) && s.reader.ByobReader?
    ensures !WouldOvertake(ReadInto(s, length, elementSize, min))
  {
    ReadIntoKeepsInv(s, length, elementSize, min);
    var t := ReadInto(s, length, elementSize, min);
    WaitersNeedDefault(t);
    ReadIntoKeepsReader(s, length, elementSize, min);
  }

  lemma ReadIntoKeepsReader(s: Stream, length: nat, elementSize: ElementSize, min: nat)
    ensures ReadInto(s, length, elementSize, min).reader == s.reader
  {
    AddPullIntoKeepsReader(s, PullInto([], length * elementSize, min * elementSize, elementSize, false));
  }

  lemma AddPullIntoKeepsReader(s: Stream, d: PullInto)
    ensures AddPullInto(s, d).reader == s.reader
  {
    hide FillPullInto, AnswerFill, CallPullIfNeeded, Enlist;
    AnswerFillKeepsReader(s, d, FillPullInto(s.queue, d));
    EnlistKeepsReader(s, d);
  }

  lemma EnlistKeepsReader(s: Stream, d: PullInto)
    ensures Enlist(s, d, d).reader == CallPullIfNeeded(Enlist(s, d, d)).reader == s.reader
  {}

  lemma AnswerFillKeepsReader(s: Stream, d: PullInto, f: Fill)
    ensures AnswerFill(s, d, f).reader == s.reader
  {
    hide HandleQueueDrain, ErrorStream;
    var t := AfterFill(s, f);
    assert t.reader == s.reader;
    if f.ready {
      DrainKeepsReader(NewReadInto(t, View(f.desc.filled, false), d));
    } else if s.closeRequested {
      ErrorKeepsReader(t, InvalidState);
    }
  }

  lemma DrainKeepsReader(s: Stream)
    ensures HandleQueueDrain(s).reader == s.reader
  {
    SettleKeepsReader(s.(queue := [], state := Closed), Done);
  }

  lemma ErrorKeepsReader(s: Stream, reason: Reason)
    ensures ErrorStream(s, reason).reader == s.reader
  {
    SettleKeepsReader(s.(state := Errored, error := reason, queue := [], pullIntos := []), ReadFailed(reason));
  }

  lemma {:induction false} SettleReadIntosKeepsReader(s: Stream, a: Answer)
    ensures SettleReadIntos(s, a).reader == s.reader
    decreases |s.readIntos|
  {
    if s.readIntos != [] {
      var t := Settle(s.(readIntos := s.readIntos[1..]), s.readIntos[0], a);
      assert t.reader == s.reader;
      hide Settle;
      SettleReadIntosKeepsReader(t, a);
    }
  }

  lemma {:induction false} SettleWaitersKeepsReader(s: Stream, a: Answer)
    ensures SettleWaiters(s, a).reader == s.reader
    decreases |s.waiters|
  {
    if s.waiters != [] {
      var t := Settle(s.(waiters := s.waiters[1..]), s.waiters[0], a);
      assert t.reader == s.reader;
      hide Settle;
      SettleWaitersKeepsReader(t, a);
    }
  }

  lemma SettleKeepsReader(s: Stream, a: Answer)
    ensures SettleWaiters(s, a).reader == s.reader
    ensures SettleReadIntos(SettleWaiters(s, a), a).reader == s.reader
  {
    hide SettleWaiters, SettleReadIntos;
    SettleWaitersKeepsReader(s, a);
    SettleReadIntosKeepsReader(SettleWaiters(s, a), a);
  }

  /** A step of the stream's user. */
  lemma UserStepOrder(s: Stream, e: Event)
    requires Inv(s) && !WouldOvertake(s)
    requires e.AcquireCall? || e.ReleaseCall? || e.ReadCall? || e.ReadIntoCall? || e.CancelCall?
    ensures !WouldOvertake(Step(s, e))
  {
    match e {
      case ReleaseCall =>
        if !s.reader.NoReader? {
          ReleaseEffect(s);
        }
      case ReadCall =>
        if s.reader.DefaultReader? {
          ReadOrder(s);
        }
      case ReadIntoCall(length, elementSize, min) =>
        if s.reader.ByobReader? {
          ReadIntoOrder(s, length, elementSize, min);
        }
      case CancelCall => CancelOrder(s);
      case _ =>
    }
  }

  /** A step of the source other than an answer to a BYOB read. */
  lemma SourceStepOrder(s: Stream, e: Event)
    requires Inv(s) && !WouldOvertake(s)
    requires e.EnqueueCall? || e.CloseCall? || e.ErrorCall? || e.StartSettles? || e.PullSettles?
    ensures !WouldOvertake(Step(s, e))
  {
    match e {
      case EnqueueCall(chunk) =>
        if CanCloseOrEnqueue(s) {
          EnqueueOrder(s, chunk);
        }
      case CloseCall => CloseOrder(s);
      case ErrorCall(reason) => ErrorOrder(s, reason);
      case StartSettles(r) =>
        if s.startOut {
          OnStartOrder(s, r);
        }
      case PullSettles(r) =>
        if s.pullsOut > 0 {
          OnPullOrder(s, r);
        }
      case _ =>
    }
  }

  /** From a state in which no read can overtake, a step leads to one in which a read can if
      and only if it answers a released BYOB read while default reads wait. */
  lemma OvertakingArises(s: Stream, e: Event)
    requires Inv(s) && !WouldOvertake(s)
    ensures WouldOvertake(Step(s, e)) <==> AnswersReleased(s, e)
  {
    if e.RespondCall? || e.NewViewCall? {
      RespondOrder(s, e.data);
    } else if e.EnqueueCall? || e.CloseCall? || e.ErrorCall? || e.StartSettles? || e.PullSettles? {
      SourceStepOrder(s, e);
    } else {
      UserStepOrder(s, e);
    }
  }

  lemma CancelOrder(s: Stream)
    requires Inv(s) && !WouldOvertake(s)
    ensures !WouldOvertake(Cancel(s))
  {
    if s.state.Readable? {
      CancelEffect(s);
    }
  }

  lemma ErrorOrder(s: Stream, reason: Reason)
    requires Reads(s) && !WouldOvertake(s)
    ensures !WouldOvertake(ErrorStream(s, reason))
  {
    if s.state.Readable? {
      ErrorStreamEffect(s, reason);
    }
  }

  lemma CloseOrder(s: Stream)
    requires Inv(s) && !WouldOvertake(s)
    ensures !WouldOvertake(ControllerClose(s))
  {
    if CanCloseOrEnqueue(s) && s.queue == [] {
      ErrorOrder(s, InvalidState);
      CloseStreamKeepsInv(s);
    }
  }

  lemma OnStartOrder(s: Stream, r: Settlement)
    requires Inv(s) && !WouldOvertake(s)
    ensures !WouldOvertake(OnStart(s, r))
  {
    var t := s.(startOut := false);
    CallPullKeepsOrder(t.(started := true));
    if r.Failed? {
      ErrorOrder(t, r.error);
    }
  }

  lemma OnPullOrder(s: Stream, r: Settlement)
    requires Inv(s) && s.pullsOut > 0 && !WouldOvertake(s)
    ensures !WouldOvertake(OnPull(s, r))
  {
    var t := s.(pullsOut := s.pullsOut - 1);
    CallPullKeepsOrder(t.(pulling := false, pullAgain := false));
    if r.Failed? {
      ErrorOrder(t, r.error);
    }
  }

  lemma ReachableStep(s: Stream, e: Event)
    requires Reachable(s)
    ensures Reachable(Step(s, e))
  {
    var highWaterMark: nat, events: seq<Event> :| s == Run(Init(highWaterMark), events);
    assert (events + [e])[..|events|] == events;
    assert Step(s, e) == Run(Init(highWaterMark), events + [e]);
  }

  /** Read 0 asks for four bytes and is released; default read 1 waits. */
  function Released(): Stream {
    var d := PullInto([], 4, 4, 1, false);
    Init(0).(reader := DefaultReader, pullIntos := [d.(released := true)], waiters := [1],
             answers := [ReadFailed(Reason.Released), Waiting], asked := [Some(d), None])
  }

  lemma ReleasedReachable()
    ensures Reachable(Released())
  {
    assert Run(Init(0), []) == Init(0);
    var d := PullInto([], 4, 4, 1, false);
    ReachableStep(Init(0), AcquireCall(true));
    var s1 := Init(0).(reader := ByobReader);
    ReachableStep(s1, ReadIntoCall(4, 1, 4));
    var s2 := s1.(pullIntos := [d], readIntos := [0], answers := [Waiting], asked := [Some(d)]);
    ReadIntoIs(s1, s2, d);
    ReachableStep(s2, ReleaseCall);
    var s3 := s2.(reader := NoReader, pullIntos := [d.(released := true)], readIntos := [],
                  answers := [ReadFailed(Reason.Released)]);
    ReleaseIs(s2, s3, d);
    ReachableStep(s3, AcquireCall(false));
    ReachableStep(s3.(reader := DefaultReader), ReadCall);
    ReadIs(s3.(reader := DefaultReader));
  }

  lemma ReadIntoIs(s: Stream, t: Stream, d: PullInto)
    requires s == Init(0).(reader := ByobReader) && d == PullInto([], 4, 4, 1, false)
    requires t == s.(pullIntos := [d], readIntos := [0], answers := [Waiting], asked := [Some(d)])
    ensures Step(s, ReadIntoCall(4, 1, 4)) == t
  {
    assert Enlist(s, d, d) == t;
  }

  lemma ReadIs(s: Stream)
    requires s.state.Readable? && s.queue == [] && !s.started && s.reader.DefaultReader?
    ensures Step(s, ReadCall) == NewRead(s, Waiting).(waiters := s.waiters + [|s.answers|])
  {}

  lemma ReleaseIs(s: Stream, t: Stream, d: PullInto)
    requires s.reader.ByobReader? && s.pullIntos == [d] && s.readIntos == [0] && s.answers == [Waiting]
    requires t == s.(reader := NoReader, pullIntos := [d.(released := true)], readIntos := [],
                     answers := [ReadFailed(Reason.Released)])
    ensures Step(s, ReleaseCall) == t
  {
    var u := s.(reader := NoReader, pullIntos := [d.(released := true)]);
    var a := ReadFailed(Reason.Released);
    assert u.readIntos[1..] == [];
    assert Settle(u.(readIntos := []), 0, a) == t;
    assert SettleReadIntos(t, a) == t;
  }

  /** The source then writes one byte for read 0, and default read 2 gets it while read 1
      still waits. */
  lemma ALaterReadOvertakes(b: Byte)
    ensures var s := Step(Step(Released(), RespondCall([b])), ReadCall);
            Reachable(s) && |s.answers| == 3 && s.answers[1].Waiting? && s.answers[2] == Chunk([b])
  {
    ReleasedReachable();
    ReachableStep(Released(), RespondCall([b]));
    var s := Released().(pullIntos := [], queue := [Entry([b], 1)], supplied := [b]);
    AnsweredIs(b, s);
    ReachableStep(s, ReadCall);
  }

  lemma AnsweredIs(b: Byte, s: Stream)
    requires s == Released().(pullIntos := [], queue := [Entry([b], 1)], supplied := [b])
    ensures Step(Released(), RespondCall([b])) == s
  {
    RespondReleasedIs(Released(), Released().pullIntos[0], [b]);
    assert [] + [b] == [b];
  }

  /** On a stream not started, with an empty queue and one released descriptor. */
  lemma RespondReleasedIs(s: Stream, d: PullInto, data: Bytes)
    requires s.pullIntos == [d] && d.released && d.filled == [] && s.queue == [] && !s.started && s.state.Readable?
    requires data != [] && |data| <= d.byteLength
    ensures Respond(s, data) == s.(pullIntos := [], queue := [Entry(data, |data|)], supplied := s.supplied + data)
  {
    assert [] + data == data;
    var t := s.(supplied := s.supplied + data, pullIntos := [d.(filled := data)]);
    assert [d.(filled := data)] + s.pullIntos[1..] == [d.(filled := data)];
    DetachOnly(t);
    assert ProcessAndCommit(DetachFirst(t)) == DetachFirst(t);
  }

  lemma DetachOnly(t: Stream)
    requires |t.pullIntos| == 1 && t.pullIntos[0].filled != [] && t.queue == []
    ensures var held := t.pullIntos[0].filled; DetachFirst(t) == t.(pullIntos := [], queue := [Entry(held, |held|)])
  {
    assert t.pullIntos[1..] == [];
    var entry := Entry(t.pullIntos[0].filled, |t.pullIntos[0].filled|);
    assert [] + [entry] == [entry];
  }

  /** A default read is handed bytes while an earlier read waits exactly if the stream is in
      such a state when the read is issued. */
  lemma OvertakesExactlyIf(s: Stream)
    requires Inv(s) && s.reader.DefaultReader?
    ensures |Read(s).answers| == |s.answers| + 1
    ensures Carries(Read(s).answers[|s.answers|]) && (exists i :: 0 <= i < |s.answers| && s.answers[i].Waiting?)
            <==> WouldOvertake(s)
  {
    NextIsNew(s);
    ReadAnswers(s);
    if s.waiters != [] {
      assert (s.waiters + s.readIntos)[0] == s.waiters[0];
    }
  }

  lemma NextIsNew(s: Stream)
    requires Reads(s)
    ensures |s.answers| !in s.waiters
  {
    forall k | 0 <= k < |s.waiters|
      ensures s.waiters[k] < |s.answers|
    {
      assert (s.waiters + s.readIntos)[k] == s.waiters[k];
    }
  }

  lemma ReadAnswers(s: Stream)
    requires (s.queue != [] ==> s.state.Readable?) && |s.answers| !in s.waiters
    ensures |Read(s).answers| == |s.answers| + 1
    ensures Carries(Read(s).answers[|s.answers|]) <==> s.queue != []
  {
    hide NewRead, CallPullIfNeeded, TakeChunk;
    if s.queue != [] {
      TakeChunkAnswers(s);
    } else {
      NewReadAnswers(s);
    }
  }

  lemma NewReadAnswers(s: Stream)
    ensures NewRead(s, Done).answers == s.answers + [Done]
    ensures NewRead(s, ReadFailed(s.error)).answers == s.answers + [ReadFailed(s.error)]
    ensures CallPullIfNeeded(NewRead(s, Waiting).(waiters := s.waiters + [|s.answers|])).answers
            == s.answers + [Waiting]
  {}

  lemma TakeChunkAnswers(s: Stream)
    requires s.queue != [] && |s.answers| !in s.waiters
    ensures |TakeChunk(s).answers| == |s.answers| + 1 && Carries(TakeChunk(s).answers[|s.answers|])
  {
    var t := NewRead(s.(queue := s.queue[1..]), Chunk(s.queue[0].item));
    assert t.answers == s.answers + [Chunk(s.queue[0].item)] && CallPullIfNeeded(t).answers == t.answers;
    hide NewRead, CallPullIfNeeded, SettleWaiters;
    SettleWaitersKeepsOthers(t.(state := Closed), Done, |s.answers|);
  }

  lemma {:induction false} SettleWaitersKeepsOthers(s: Stream, a: Answer, i: nat)
    requires i < |s.answers| && i !in s.waiters
    ensures KeepsOther(s, SettleWaiters(s, a), i)
    decreases |s.waiters|
  {
    if s.waiters != [] {
      var t := Settle(s.(waiters := s.waiters[1..]), s.waiters[0], a);
      assert KeepsOther(s, t, i);
      SettleWaitersKeepsOthers(t, a, i);
    }
  }

  predicate KeepsOther(s: Stream, t: Stream, i: nat) {
    i < |s.answers| == |t.answers| && t.answers[i] == s.answers[i]
  }

  /** In a run in which no released BYOB read is answered while default reads wait, no read
      ever overtakes another: the reads that were handed bytes were so in the order in which
      they were issued, and before every read that waits. */
  lemma {:induction false} ReadsKeepTheirOrder(highWaterMark: nat, events: seq<Event>)
    requires forall k :: 0 <= k < |events| ==> !AnswersReleased(Run(Init(highWaterMark), events[..k]), events[k])
    ensures var s := Run(Init(highWaterMark), events);
            && !WouldOvertake(s) && InTurn(s)
            && (forall j, k :: 0 <= j < k < |s.order| ==> s.order[j] < s.order[k])
    decreases |events|
  {
    if events != [] {
      var n := |events| - 1;
      assert forall k :: 0 <= k < n ==> events[..n][..k] == events[..k];
      ReadsKeepTheirOrder(highWaterMark, events[..n]);
      RunKeepsInv(highWaterMark, events[..n]);
      OvertakingArises(Run(Init(highWaterMark), events[..n]), events[n]);
      StepStays(Run(Init(highWaterMark), events[..n]), events[n]);
    }
  }
}
