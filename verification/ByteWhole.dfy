/** Once a byte stream is closed, the views still pending hold whole elements: close() refuses
    otherwise, so handing them over truncates nothing. */
module ByteWhole {
  import opened Base
  import opened Fifo
  import opened ByteSpec
  import opened ByteProofs

  /** The descriptors that reads wait for. */
  function Unreleased(ds: seq<PullInto>): seq<PullInto> {
    ds[ReleasedCount(ds)..]
  }

  ghost predicate WholeElements(ds: seq<PullInto>) {
    forall k :: 0 <= k < |ds| ==> |ds[k].filled| % ds[k].elementSize == 0
  }

  ghost predicate Whole(s: Stream) {
    s.state.Closed? ==> WholeElements(Unreleased(s.pullIntos))
  }

  lemma CallPullWhole(s: Stream)
    requires Whole(s)
    ensures Whole(CallPullIfNeeded(s))
  {}

  /** Without a BYOB read waiting there is no unreleased descriptor. */
  lemma NobodyWhole(s: Stream)
    requires Descriptors(s) && s.readIntos == []
    ensures Whole(s)
  {}

  lemma EmptyIsWhole(k: ElementSize)
    ensures 0 % k == 0
  {}

  lemma CloseWhole(s: Stream)
    requires Inv(s) && Whole(s)
    ensures Whole(ControllerClose(s))
  {
    if CanCloseOrEnqueue(s) && s.queue == [] {
      ErrorStreamEffect(s, InvalidState);
      CloseStreamKeepsInv(s);
      LineIsWhole(s.pullIntos);
    }
  }

  lemma LineIsWhole(ds: seq<PullInto>)
    requires Line(ds)
    ensures ds == [] || |ds[0].filled| % ds[0].elementSize == 0 ==> WholeElements(Unreleased(ds))
  {
    forall k | 1 <= k < |ds|
      ensures |ds[k].filled| % ds[k].elementSize == 0
    {
      EmptyIsWhole(ds[k].elementSize);
    }
  }

  lemma RespondWhole(s: Stream, data: Bytes)
    requires Inv(s) && Whole(s)
    ensures Whole(Respond(s, data))
  {
    if s.pullIntos != [] {
      if s.state.Closed? {
        RespondClosedWhole(s);
      } else if data != [] && |s.pullIntos[0].filled| + |data| <= s.pullIntos[0].byteLength {
        RespondInReadableStateKeepsInv(s, data);
        CallPullWhole(RespondInReadableState(s, data));
      }
    }
  }

  lemma RespondClosedWhole(s: Stream)
    requires Inv(s) && s.state.Closed? && s.pullIntos != [] && Whole(s)
    ensures Whole(RespondInClosedState(s))
  {
    var t := if s.pullIntos[0].released then s.(pullIntos := s.pullIntos[1..]) else s;
    assert t.pullIntos == Unreleased(s.pullIntos);
    if s.reader.ByobReader? {
      if s.pullIntos[0].released {
        DropReleasedKeepsInv(s);
      }
      CommitPendingIs(t);
      CommitAllLine(t.(pullIntos := []), t.pullIntos);
    }
  }

  lemma {:induction false} CommitAllLine(s: Stream, ds: seq<PullInto>)
    ensures CommitAll(s, ds).pullIntos == s.pullIntos
    decreases |ds|
  {
    if ds != [] {
      CommitAllLine(Commit(s, ds[0]), ds[1..]);
    }
  }

  lemma ReadWhole(s: Stream)
    requires Inv(s) && s.reader.DefaultReader?
    ensures Whole(Read(s))
  {
    ReadKeepsInv(s);
    ReadLine(s);
    NobodyWhole(Read(s));
  }

  /** A default read leaves the BYOB reads alone. */
  lemma ReadLine(s: Stream)
    ensures Read(s).readIntos == s.readIntos
  {
    if s.state.Readable? && s.queue != [] {
      TakeChunkLine(s);
      hide TakeChunk;
    }
  }

  lemma TakeChunkLine(s: Stream)
    requires s.queue != []
    ensures TakeChunk(s).readIntos == s.readIntos
  {
    var t := NewRead(s.(queue := s.queue[1..]), Chunk(s.queue[0].item));
    assert SameLine(s, t) && SameLine(t, CallPullIfNeeded(t));
    hide SettleWaiters, NewRead, CallPullIfNeeded;
    SettleWaitersLine(t.(state := Closed), Done);
  }

  predicate SameLine(s: Stream, t: Stream) {
    t.readIntos == s.readIntos && t.pullIntos == s.pullIntos
  }

  lemma {:induction false} SettleWaitersLine(s: Stream, a: Answer)
    ensures SameLine(s, SettleWaiters(s, a))
    decreases |s.waiters|
  {
    if s.waiters != [] {
      var t := Settle(s.(waiters := s.waiters[1..]), s.waiters[0], a);
      assert SameLine(s, t);
      hide Settle;
      SettleWaitersLine(t, a);
    }
  }

  lemma AddPullIntoWhole(s: Stream, d: PullInto)
    requires Inv(s) && Whole(s) && !s.state.Errored? && s.reader.ByobReader?
    requires Unfilled(d) && !d.released && d.filled == []
    ensures Whole(AddPullInto(s, d))
  {
    var t := Enlist(s, d, d);
    hide FillPullInto, AnswerFill, Inv;
    if s.pullIntos != [] {
      assert Unreleased(t.pullIntos) == Unreleased(s.pullIntos) + [d];
      EmptyIsWhole(d.elementSize);
    } else if s.state.Readable? && Total(s.queue) != 0 {
      AnswerFillWhole(s, d, FillPullInto(s.queue, d));
    }
  }

  lemma AnswerFillWhole(s: Stream, d: PullInto, f: Fill)
    requires s.state.Readable? && s.pullIntos == []
    ensures Whole(AnswerFill(s, d, f))
  {
    var t := AfterFill(s, f);
    hide ErrorStream, CallPullIfNeeded, Unreleased, HandleQueueDrain;
    if f.ready {
      var u := NewReadInto(t, View(f.desc.filled, false), d);
      DrainedWhole(u);
    } else if s.closeRequested {
      RefusedWhole(t);
    } else {
      CallPullWhole(Enlist(t, d, f.desc));
    }
  }

  lemma DrainedWhole(s: Stream)
    requires s.state.Readable? && s.pullIntos == []
    ensures Whole(HandleQueueDrain(s))
  {
    SettleWaitersLine(s.(queue := [], state := Closed), Done);
    CallPullWhole(s);
    hide SettleWaiters, CallPullIfNeeded;
  }

  lemma RefusedWhole(t: Stream)
    requires t.pullIntos == [] && t.state.Readable?
    ensures Whole(NewRead(ErrorStream(t, InvalidState), ReadFailed(InvalidState)))
  {
    SettleWaitersLine(t.(state := Errored, error := InvalidState, queue := [], pullIntos := []),
                      ReadFailed(InvalidState));
    SettleReadIntosLine(SettleWaiters(t.(state := Errored, error := InvalidState, queue := [], pullIntos := []),
                                      ReadFailed(InvalidState)), ReadFailed(InvalidState));
  }

  lemma {:induction false} SettleReadIntosLine(s: Stream, a: Answer)
    ensures SettleReadIntos(s, a).pullIntos == s.pullIntos
    decreases |s.readIntos|
  {
    if s.readIntos != [] {
      SettleReadIntosLine(Settle(s.(readIntos := s.readIntos[1..]), s.readIntos[0], a), a);
    }
  }

  lemma ReadIntoWhole(s: Stream, length: nat, elementSize: ElementSize, min: nat)
    requires Inv(s) && Whole(s) && s.reader.ByobReader?
    ensures Whole(ReadInto(s, length, elementSize, min))
  {
    hide AddPullInto;
    if length != 0 && min != 0 && min <= length && !s.state.Errored? {
      MulMonotone(1, min, elementSize);
      MulMonotone(min, length, elementSize);
      MultipleMod(min, elementSize);
      MultipleMod(length, elementSize);
      AddPullIntoWhole(s, PullInto([], length * elementSize, min * elementSize, elementSize, false));
    }
  }

  lemma ErrorWhole(s: Stream, reason: Reason)
    requires Reads(s) && Whole(s)
    ensures Whole(ErrorStream(s, reason))
  {
    if s.state.Readable? {
      ErrorStreamEffect(s, reason);
    }
  }

  lemma ErrorCallWhole(s: Stream, reason: Reason)
    requires Inv(s) && Whole(s)
    ensures Whole(ErrorStream(s, reason))
  {
    ErrorWhole(s, reason);
  }

  lemma SettlementWhole(s: Stream, r: Settlement)
    requires Inv(s) && Whole(s)
    ensures Whole(OnStart(s, r)) && (s.pullsOut > 0 ==> Whole(OnPull(s, r)))
  {
    hide CallPullIfNeeded, ErrorStream, Unreleased;
    CallPullWhole(s.(startOut := false, started := true));
    if r.Failed? {
      ErrorWhole(s.(startOut := false), r.error);
    }
    if s.pullsOut > 0 {
      CallPullWhole(s.(pullsOut := s.pullsOut - 1, pulling := false, pullAgain := false));
      if r.Failed? {
        ErrorWhole(s.(pullsOut := s.pullsOut - 1), r.error);
      }
    }
  }

  lemma ReleaseWhole(s: Stream)
    requires Inv(s) && !s.reader.NoReader?
    ensures Whole(Release(s))
  {
    ReleaseEffect(s);
    hide Release;
  }

  lemma CancelWhole(s: Stream)
    requires Inv(s) && Whole(s)
    ensures Whole(Cancel(s))
  {
    if s.state.Readable? {
      CancelEffect(s);
    }
  }

  lemma StepWhole(s: Stream, e: Event)
    requires Inv(s) && Whole(s)
    ensures Whole(Step(s, e))
  {
    hide Inv, Read, ReadInto, Enqueue, Respond, ControllerClose, ErrorStream, OnStart, OnPull;
    match e {
      case ReleaseCall => if !s.reader.NoReader? { ReleaseWhole(s); }
      case ReadCall => if s.reader.DefaultReader? { ReadWhole(s); }
      case ReadIntoCall(length, elementSize, min) =>
        if s.reader.ByobReader? {
          ReadIntoWhole(s, length, elementSize, min);
        }
      case CancelCall => CancelWhole(s);
      case EnqueueCall(chunk) => if CanCloseOrEnqueue(s) { EnqueueKeepsInv(s, chunk); }
      case RespondCall(data) => RespondWhole(s, data);
      case NewViewCall(at, data) => RespondWhole(s, data);
      case CloseCall => CloseWhole(s);
      case ErrorCall(reason) => ErrorCallWhole(s, reason);
      case StartSettles(r) => SettlementWhole(s, r);
      case PullSettles(r) => SettlementWhole(s, r);
      case AcquireCall(_) =>
    }
  }
}
