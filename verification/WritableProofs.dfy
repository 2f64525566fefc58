/** What every run of the writable keeps. */
module WritableProofs {
  import opened Base
  import opened Fifo
  import opened WritableSpec

  // ------------------------------------------------------------- invariants

  function Chunks<T>(a: seq<T>): (r: seq<Item<T>>)
    ensures |r| == |a|
  {
    seq(|a|, i requires 0 <= i < |a| => Chunk(a[i]))
  }

  function SinkWrites<T>(a: seq<T>): (r: seq<SinkCall<T>>)
    ensures |r| == |a|
  {
    seq(|a|, i requires 0 <= i < |a| => SinkWrite(a[i]))
  }

  /** The sink is handed the accepted chunks in order, and at most one call follows. */
  ghost predicate Log<T>(s: Stream<T>) {
    && s.begun <= |s.accepted|
    && s.begun <= |s.calls| <= s.begun + 1
    && s.calls[..s.begun] == SinkWrites(s.accepted[..s.begun])
    && (|s.calls| > s.begun ==> !s.calls[s.begun].SinkWrite?)
  }

  predicate Alive<T>(s: Stream<T>) {
    s.state.Writable? || s.state.Erroring?
  }

  /** Each write settled as its sink write did; while the stream is live the rest
      wait in order, and afterwards they are rejected. */
  ghost predicate Writes<T>(s: Stream<T>) {
    && |s.writes| == |s.accepted|
    && |s.results| + |OptionSeq(s.inFlightWrite)| == s.begun <= |s.accepted|
    && (forall i :: 0 <= i < |s.results| ==>
          if s.results[i] then s.writes[i].Fulfilled? else s.writes[i].Rejected?)
    && (forall i :: |s.results| <= i < |s.writes| ==>
          if Alive(s) then s.writes[i].Pending? else s.writes[i].Rejected?)
    && (s.inFlightWrite.Some? ==> s.inFlightWrite.value == s.begun - 1 && Alive(s))
    && s.writeRequests == if Alive(s) then Range(s.begun, |s.accepted|) else []
  }

  /** Only the last promise of its kind can be pending, and only while `waiting`. */
  ghost predicate OnlyLast(promises: seq<Outcome>, waiting: bool) {
    && (forall i :: 0 <= i < |promises| - 1 ==> !promises[i].Pending?)
    && (waiting <==> promises != [] && promises[|promises| - 1].Pending?)
  }

  /** Close and abort requests are pending exactly while they wait in their one place. */
  ghost predicate Requests<T>(s: Stream<T>) {
    && s.faults == 0
    && OnlyLast(s.closes, CloseQueuedOrInFlight(s))
    && !(s.closeRequest.Some? && s.inFlightClose.Some?)
    && (s.closeRequest.Some? ==> s.closeRequest.value == |s.closes| - 1)
    && (s.inFlightClose.Some? ==> s.inFlightClose.value == |s.closes| - 1)
    && OnlyLast(s.aborts, s.pendingAbort.AbortRequest? || s.abortsOut != [])
    && !(s.pendingAbort.AbortRequest? && s.abortsOut != [])
    && (s.pendingAbort.AbortRequest? ==> s.pendingAbort.id == |s.aborts| - 1)
    && (s.abortsOut != [] ==> s.abortsOut == [|s.aborts| - 1])
  }

  function Outstanding<T>(s: Stream<T>): nat {
    s.writesOut + s.closesOut + |s.abortsOut|
  }

  function Sentinel<T>(s: Stream<T>): seq<Item<T>> {
    if s.closeRequest.Some? then [CloseSentinel] else []
  }

  /** Who is outstanding, and what each state allows. */
  ghost predicate Protocol<T>(s: Stream<T>) {
    && s.startOut == !s.started
    && s.writesOut == |OptionSeq(s.inFlightWrite)|
    && s.closesOut == |OptionSeq(s.inFlightClose)|
    && Outstanding(s) <= 1
    && (!s.started ==> Outstanding(s) == 0 && s.calls == [])
    && (s.abortsOut != [] ==> s.state.Errored?)
    && (s.inFlightClose.Some? ==> Alive(s) && s.begun == |s.accepted| && s.queue == [])
    && (Alive(s) && s.inFlightClose.None? ==> |s.calls| == s.begun)
    && match s.state
       case Writable =>
         && s.pendingAbort.NoAbort?
         && (s.inFlightClose.None? ==> !s.cleared)
         && (s.started && !HasOperationInFlight(s) ==> s.queue == [])
       case Erroring =>
         && (s.started ==> HasOperationInFlight(s))
         && (s.pendingAbort.AbortRequest? && !s.pendingAbort.wasAlreadyErroring && s.inFlightClose.None? ==>
               !s.cleared)
       case Errored =>
         && s.started && s.pendingAbort.NoAbort?
         && (s.closeRequest.Some? ==> s.abortsOut != [])
       case Closed =>
         && s.started && s.pendingAbort.NoAbort? && s.closeRequest.None?
  }

  /** While writable, the queued chunks are the writes in flight and pending, one for one. */
  ghost predicate Queued<T>(s: Stream<T>) {
    s.state.Writable? && s.inFlightClose.None? ==>
      && |s.results| <= |s.accepted|
      && Items(s.queue) == Chunks(s.accepted[|s.results|..]) + Sentinel(s)
  }

  ghost predicate AcceptsWrites<T>(s: Stream<T>) {
    s.state.Writable? && !CloseQueuedOrInFlight(s)
  }

  /** The cached flag is exact where it matters, and `ready` follows it. */
  ghost predicate Readiness<T>(s: Stream<T>) {
    && (AcceptsWrites(s) ==> s.backpressure == GetBackpressure(s))
    && (s.writer.Writer? ==>
          && (s.writer.ready.Pending? <==> AcceptsWrites(s) && s.backpressure)
          && (s.state.Closed? || (s.state.Errored? && s.abortsOut == []) ==> !s.writer.closed.Pending?))
  }

  ghost predicate Inv<T>(s: Stream<T>) {
    Log(s) && Writes(s) && Requests(s) && Protocol(s) && Queued(s) && Readiness(s)
  }

  // ---------------------------------------------------------- finishing errors

  /** Rejecting the waiting writes, seen as one step. */
  lemma {:induction false} RejectWritesEffect<T>(s: Stream<T>, lo: nat)
    requires lo <= |s.writes| && s.writeRequests == Range(lo, |s.writes|)
    requires forall i :: lo <= i < |s.writes| ==> s.writes[i].Pending?
    ensures var t := RejectWrites(s);
            && t == s.(writeRequests := [], writes := t.writes)
            && |t.writes| == |s.writes|
            && t.writes[..lo] == s.writes[..lo]
            && (forall i :: lo <= i < |s.writes| ==> t.writes[i].Rejected?)
    decreases |s.writeRequests|
  {
    if s.writeRequests != [] {
      var t := SettleWrite(s.(writeRequests := s.writeRequests[1..]), Some(lo), Outcome.Rejected(s.storedError));
      assert s.writeRequests[1..] == Range(lo + 1, |s.writes|);
      RejectWritesEffect(t, lo + 1);
      RejectedFrom(s.writes, t.writes, RejectWrites(t).writes, lo);
      assert RejectWrites(s) == RejectWrites(t);
    }
  }

  /** One promise rejected, then all after it. */
  lemma RejectedFrom(a: seq<Outcome>, b: seq<Outcome>, c: seq<Outcome>, lo: nat)
    requires lo < |a| == |b| == |c| && b == a[lo := b[lo]] && b[lo].Rejected?
    requires c[..lo + 1] == b[..lo + 1] && forall i :: lo + 1 <= i < |c| ==> c[i].Rejected?
    ensures c[..lo] == a[..lo] && forall i :: lo <= i < |c| ==> c[i].Rejected?
  {
    assert c[..lo] == c[..lo + 1][..lo] && c[lo] == c[..lo + 1][lo];
  }

  /** A stream about to finish erroring: nothing is in flight any more. */
  ghost predicate Finishing<T>(s: Stream<T>) {
    && s.state.Erroring?
    && Log(s) && Writes(s) && Requests(s)
    && s.started && !s.startOut && !HasOperationInFlight(s) && Outstanding(s) == 0
    && (s.pendingAbort.AbortRequest? && !s.pendingAbort.wasAlreadyErroring ==>
          !s.cleared && |s.calls| == s.begun)
    && (s.writer.Writer? ==> !s.writer.ready.Pending?)
  }

  /** The same, once the waiting writes have been rejected. */
  ghost predicate Rejected<T>(s: Stream<T>) {
    && s.state.Errored?
    && Log(s) && Writes(s) && Requests(s)
    && s.started && !s.startOut && !HasOperationInFlight(s) && Outstanding(s) == 0
    && (s.pendingAbort.AbortRequest? && !s.pendingAbort.wasAlreadyErroring ==>
          !s.cleared && |s.calls| == s.begun)
    && (s.writer.Writer? ==> !s.writer.ready.Pending?)
  }

  lemma RejectWritesFinishing<T>(s: Stream<T>)
    requires Finishing(s)
    ensures Rejected(RejectWrites(s.(state := Errored, queue := [])))
  {
    RejectWritesEffect(s.(state := Errored, queue := []), s.begun);
    var t := RejectWrites(s.(state := Errored, queue := []));
    forall i | 0 <= i < s.begun
      ensures t.writes[i] == s.writes[i]
    {
      assert t.writes[..s.begun][i] == s.writes[..s.begun][i];
    }
  }

  /** The pending promise, the last, settles. */
  lemma LastSettles(promises: seq<Outcome>, o: Outcome)
    requires OnlyLast(promises, true) && !o.Pending?
    ensures OnlyLast(promises[|promises| - 1 := o], false)
  {}

  lemma KeepsLogAndWrites<T>(s: Stream<T>, t: Stream<T>)
    requires Log(s) && Writes(s) && Alive(t) == Alive(s)
    requires t.accepted == s.accepted && t.calls == s.calls && t.begun == s.begun && t.results == s.results
    requires t.writes == s.writes && t.inFlightWrite == s.inFlightWrite && t.writeRequests == s.writeRequests
    ensures Log(t) && Writes(t)
  {}

  lemma RejectCloseKeepsRejected<T>(s: Stream<T>)
    requires Rejected(s)
    ensures Rejected(RejectClose(s)) && RejectClose(s).closeRequest.None?
    ensures RejectClose(s).pendingAbort == s.pendingAbort
  {
    if s.closeRequest.Some? {
      LastSettles(s.closes, Outcome.Rejected(s.storedError));
      KeepsLogAndWrites(s, RejectClose(s));
    }
  }

  lemma RejectCloseKeepsInv<T>(s: Stream<T>)
    requires Rejected(s) && s.pendingAbort.NoAbort?
    ensures Inv(RejectCloseAndClosed(s)) && RejectCloseAndClosed(s).state.Errored?
  {
    RejectCloseKeepsRejected(s);
  }

  lemma RejectAbortKeepsRejected<T>(s: Stream<T>)
    requires Rejected(s) && s.pendingAbort.AbortRequest?
    ensures Rejected(SettleAbort(s.(pendingAbort := NoAbort), s.pendingAbort.id, Outcome.Rejected(s.storedError)))
  {
    LastSettles(s.aborts, Outcome.Rejected(s.storedError));
    KeepsLogAndWrites(s, SettleAbort(s.(pendingAbort := NoAbort), s.pendingAbort.id, Outcome.Rejected(s.storedError)));
  }

  lemma InvokeAbortKeepsInv<T>(s: Stream<T>)
    requires Rejected(s) && s.pendingAbort.AbortRequest? && !s.pendingAbort.wasAlreadyErroring
    ensures Inv(AnswerAbort(s)) && AnswerAbort(s).state.Errored?
  {
    assert AnswerAbort(s).calls[..s.begun] == s.calls[..s.begun];
  }

  lemma AnswerAbortKeepsInv<T>(s: Stream<T>)
    requires Rejected(s)
    ensures Inv(AnswerAbort(s)) && AnswerAbort(s).state.Errored?
  {
    if s.pendingAbort.NoAbort? {
      RejectCloseKeepsInv(s);
    } else if s.pendingAbort.wasAlreadyErroring {
      RejectAbortKeepsRejected(s);
      RejectCloseKeepsInv(SettleAbort(s.(pendingAbort := NoAbort), s.pendingAbort.id, Outcome.Rejected(s.storedError)));
    } else {
      InvokeAbortKeepsInv(s);
    }
  }

  lemma FinishErroringKeepsInv<T>(s: Stream<T>)
    requires Finishing(s)
    ensures Inv(FinishErroring(s)) && FinishErroring(s).state.Errored?
  {
    RejectWritesFinishing(s);
    AnswerAbortKeepsInv(RejectWrites(s.(state := Errored, queue := [])));
  }

  /** The shape from which erroring may start: everything but the state's own part. */
  ghost predicate MayError<T>(s: Stream<T>) {
    && Alive(s) && Log(s) && Writes(s) && Requests(s)
    && s.startOut == !s.started
    && s.writesOut == |OptionSeq(s.inFlightWrite)|
    && s.closesOut == |OptionSeq(s.inFlightClose)|
    && s.abortsOut == [] && Outstanding(s) <= 1
    && (!s.started ==> Outstanding(s) == 0 && s.calls == [])
    && (s.inFlightClose.Some? ==> s.begun == |s.accepted| && s.queue == [])
    && (HasOperationInFlight(s) || s.pendingAbort.AbortRequest? || !s.started ==>
          s.inFlightClose.None? ==> |s.calls| == s.begun)
    && (s.pendingAbort.AbortRequest? && !s.pendingAbort.wasAlreadyErroring && s.inFlightClose.None? ==>
          !s.cleared)
  }

  lemma StartErroringKeepsInv<T>(s: Stream<T>, reason: Reason)
    requires MayError(s)
    ensures Inv(StartErroring(s, reason)) && !StartErroring(s, reason).state.Writable?
  {
    var t := s.(state := Erroring, storedError := reason, writer := EnsureReadyRejected(s.writer, reason));
    if !HasOperationInFlight(t) && t.started {
      FinishErroringKeepsInv(t);
    }
  }

  lemma ErrorIfNeededKeepsInv<T>(s: Stream<T>, reason: Reason)
    requires Inv(s)
    ensures Inv(ControllerErrorIfNeeded(s, reason))
    ensures !ControllerErrorIfNeeded(s, reason).state.Writable?
  {
    if s.state.Writable? {
      StartErroringKeepsInv(s.(cleared := true), reason);
    }
  }

  // ---------------------------------------------------------------- advancing

  /** A stream whose sink may be idle: `Inv` but for that. */
  ghost predicate Idle<T>(s: Stream<T>) {
    && Log(s) && Writes(s) && Requests(s) && Queued(s) && Readiness(s)
    && Alive(s)
    && s.startOut == !s.started
    && s.writesOut == |OptionSeq(s.inFlightWrite)|
    && s.inFlightClose.None? && s.closesOut == 0
    && s.abortsOut == []
    && (!s.started ==> s.inFlightWrite.None? && s.calls == [])
    && |s.calls| == s.begun
    && (s.state.Writable? ==> s.pendingAbort.NoAbort? && !s.cleared)
    && (s.pendingAbort.AbortRequest? && !s.pendingAbort.wasAlreadyErroring ==> !s.cleared)
  }

  lemma ProcessCloseKeepsInv<T>(s: Stream<T>)
    requires Idle(s) && s.started && s.inFlightWrite.None? && s.state.Writable?
    requires s.queue != [] && s.queue[0].item.CloseSentinel?
    ensures Inv(ProcessClose(s))
  {
    var waiting := s.accepted[|s.results|..];
    assert Items(s.queue)[0] == CloseSentinel;
    assert waiting == [] by {
      if waiting != [] {
        assert false;
      }
    }
    assert s.queue[1..] == [];
    assert ProcessClose(s).calls[..s.begun] == s.calls[..s.begun];
  }

  lemma ProcessWriteKeepsInv<T>(s: Stream<T>)
    requires Idle(s) && s.started && s.inFlightWrite.None? && s.state.Writable?
    requires s.queue != [] && s.queue[0].item.Chunk?
    ensures Inv(ProcessWrite(s, s.queue[0].item.value))
  {
    ProcessWriteLog(s, ProcessWrite(s, s.queue[0].item.value));
    hide Log, Writes, Requests, Queued, Readiness;
    RestOfWriteInv(s, s.queue[0].item.value);
  }

  /** The parts of the invariant that do not look at what a write in flight changes. */
  lemma RestOfWriteInv<T>(s: Stream<T>, chunk: T)
    requires Requests(s) && Queued(s) && Readiness(s)
    ensures var t := ProcessWrite(s, chunk);
            (!s.cleared ==> Requests(t)) && Queued(t) && Readiness(t)
  {}

  lemma ProcessWriteLog<T>(s: Stream<T>, t: Stream<T>)
    requires Idle(s) && s.started && s.inFlightWrite.None? && s.state.Writable?
    requires s.queue != [] && s.queue[0].item.Chunk? && t == ProcessWrite(s, s.queue[0].item.value)
    ensures Log(t) && Writes(t)
  {
    var waiting := s.accepted[|s.results|..];
    assert Items(s.queue)[0] == Chunk(s.queue[0].item.value);
    assert waiting != [] && waiting[0] == s.queue[0].item.value;
    assert t.calls[..t.begun] == s.calls[..s.begun] + [SinkWrite(s.accepted[s.begun])];
    assert t.calls[..t.begun] == SinkWrites(t.accepted[..t.begun]);
    assert s.writeRequests[1..] == Range(t.begun, |t.accepted|);
  }

  lemma AdvanceKeepsInv<T>(s: Stream<T>)
    requires Idle(s)
    ensures Inv(AdvanceQueueIfNeeded(s))
  {
    if s.started && s.inFlightWrite.None? {
      if s.state.Erroring? {
        FinishErroringKeepsInv(s);
      } else if s.queue != [] {
        if s.queue[0].item.CloseSentinel? {
          ProcessCloseKeepsInv(s);
        } else {
          ProcessWriteKeepsInv(s);
        }
      }
    }
  }

  // ------------------------------------------------------------- user's calls

  lemma InitInv<T>(highWaterMark: nat)
    ensures Inv(Init<T>(highWaterMark))
  {}

  lemma OtherWriterKeepsInv<T>(s: Stream<T>, t: Stream<T>)
    requires Inv(s) && t == s.(writer := t.writer) && Readiness(t)
    ensures Inv(t)
  {
    KeepsLogAndWrites(s, t);
  }

  lemma GetWriterReadiness<T>(s: Stream<T>)
    requires Readiness(s)
    ensures Readiness(GetWriter(s))
  {}

  lemma GetWriterKeepsInv<T>(s: Stream<T>)
    requires Inv(s)
    ensures Inv(GetWriter(s))
  {
    GetWriterReadiness(s);
    OtherWriterKeepsInv(s, GetWriter(s));
  }

  lemma AbortKeepsInv<T>(s: Stream<T>, reason: Reason)
    requires Inv(s)
    ensures Inv(Abort(s, reason).0)
  {
    hide Inv, MayError, StartErroring;
    if Alive(s) && s.pendingAbort.NoAbort? {
      if s.state.Erroring? {
        AbortRequestKeepsInv(s, AbortRequest(|s.aborts|, Undefined, true));
      } else {
        var request := AbortRequest(|s.aborts|, reason, false);
        AbortRequestKeepsInv(s, request);
        StartErroringKeepsInv(s.(aborts := s.aborts + [Pending], pendingAbort := request), reason);
      }
    }
  }

  lemma AbortRequestKeepsInv<T>(s: Stream<T>, request: AbortRequest)
    requires Inv(s) && Alive(s) && s.pendingAbort.NoAbort? && request.AbortRequest? && request.id == |s.aborts|
    requires request.wasAlreadyErroring == s.state.Erroring?
    ensures var t := s.(aborts := s.aborts + [Pending], pendingAbort := request);
            if s.state.Erroring? then Inv(t) else MayError(t)
  {
    var t := s.(aborts := s.aborts + [Pending], pendingAbort := request);
    KeepsLogAndWrites(s, t);
    assert Requests(t);
    hide Log, Writes, Requests, Queued;
  }

  lemma QueueCloseEffect<T>(s: Stream<T>)
    requires Inv(s) && !CloseQueuedOrInFlight(s) && Alive(s)
    ensures var t := QueueClose(s);
            && t == s.(closes := t.closes, closeRequest := t.closeRequest, queue := t.queue, writer := t.writer)
            && Requests(t) && Queued(t) && Readiness(t)
  {
    QueueCloseFrame(s);
    var t := QueueClose(s);
    ClosingRequests(s, t);
    ClosingQueued(s, t);
    hide Requests, Queued, QueueClose;
  }

  lemma QueueCloseFrame<T>(s: Stream<T>)
    ensures var t := QueueClose(s);
            && t == s.(closes := s.closes + [Pending], closeRequest := Some(|s.closes|),
                       queue := s.queue + [Entry(CloseSentinel, 0)], writer := t.writer)
            && (t.writer.Writer? <==> s.writer.Writer?)
            && (s.writer.Writer? ==>
                  && t.writer.closed == s.writer.closed
                  && (if s.backpressure && s.state.Writable? then !t.writer.ready.Pending?
                      else t.writer.ready == s.writer.ready))
  {}

  lemma ClosingRequests<T>(s: Stream<T>, t: Stream<T>)
    requires Requests(s) && !CloseQueuedOrInFlight(s)
    requires t == s.(closes := s.closes + [Pending], closeRequest := Some(|s.closes|), queue := t.queue,
                     writer := t.writer)
    ensures Requests(t)
  {
    assert OnlyLast(t.closes, true);
  }

  lemma ClosingQueued<T>(s: Stream<T>, t: Stream<T>)
    requires Queued(s) && !CloseQueuedOrInFlight(s) && |s.results| <= |s.accepted|
    requires t == s.(closes := t.closes, closeRequest := Some(|s.closes|),
                     queue := s.queue + [Entry(CloseSentinel, 0)], writer := t.writer)
    ensures Queued(t)
  {
    ItemsAppend(s.queue, Entry(CloseSentinel, 0));
    assert Chunks(s.accepted[|s.results|..]) + Sentinel(s) == Chunks(s.accepted[|s.results|..]);
  }

  lemma QueueCloseIdle<T>(s: Stream<T>)
    requires Inv(s) && !CloseQueuedOrInFlight(s) && Alive(s)
    ensures Idle(QueueClose(s))
  {
    QueueCloseEffect(s);
    var t := QueueClose(s);
    assert Log(t) && Writes(t);
  }

  lemma CloseKeepsInv<T>(s: Stream<T>)
    requires Inv(s)
    ensures Inv(Close(s).0)
  {
    if !CloseQueuedOrInFlight(s) && Alive(s) {
      QueueCloseIdle(s);
      AdvanceKeepsInv(QueueClose(s));
    }
  }

  /** A write that was accepted, its chunk not queued yet. */
  ghost predicate Writing<T>(s: Stream<T>, t: Stream<T>, chunk: T) {
    && Inv(s) && AcceptsWrites(s)
    && t == s.(writes := s.writes + [Pending], writeRequests := s.writeRequests + [|s.writes|],
               accepted := s.accepted + [chunk])
  }

  lemma AcceptKeepsWrites<T>(s: Stream<T>, t: Stream<T>, chunk: T)
    requires Writing(s, t, chunk)
    ensures Log(t) && Writes(t) && Requests(t)
    ensures t.accepted[|t.results|..] == s.accepted[|s.results|..] + [chunk]
  {
    assert t.accepted[..t.begun] == s.accepted[..s.begun];
    assert s.writeRequests + [|s.writes|] == Range(t.begun, |t.accepted|);
  }

  lemma ControllerWriteKeepsInv<T>(s: Stream<T>, t: Stream<T>, chunk: T, size: nat)
    requires Writing(s, t, chunk)
    ensures Inv(ControllerWrite(t, chunk, Size(size)))
  {
    QueuedWriteIdle(s, t, chunk, size);
    hide Inv, Idle, RefreshBackpressure, AdvanceQueueIfNeeded;
    AdvanceKeepsInv(RefreshBackpressure(t.(queue := t.queue + [Entry(Chunk(chunk), size)])));
  }

  lemma QueuedWrite<T>(s: Stream<T>, t: Stream<T>, u: Stream<T>, chunk: T, size: nat)
    requires Writing(s, t, chunk) && u == t.(queue := t.queue + [Entry(Chunk(chunk), size)])
    ensures Queued(u)
  {
    AcceptKeepsWrites(s, t, chunk);
    ItemsAppend(t.queue, Entry(Chunk(chunk), size));
    assert Chunks(u.accepted[|u.results|..]) == Chunks(s.accepted[|s.results|..]) + [Chunk(chunk)];
  }

  lemma QueuedWriteIdle<T>(s: Stream<T>, t: Stream<T>, chunk: T, size: nat)
    requires Writing(s, t, chunk)
    ensures Idle(RefreshBackpressure(t.(queue := t.queue + [Entry(Chunk(chunk), size)])))
  {
    var u := t.(queue := t.queue + [Entry(Chunk(chunk), size)]);
    AcceptKeepsWrites(s, t, chunk);
    QueuedWrite(s, t, u, chunk, size);
    assert Readiness(RefreshBackpressure(u));
    hide Log, Writes, Requests, Queued;
  }

  lemma RefusedWriteKeepsInv<T>(s: Stream<T>, t: Stream<T>, chunk: T, reason: Reason)
    requires Writing(s, t, chunk)
    ensures Inv(ControllerErrorIfNeeded(t, reason))
  {
    AcceptKeepsWrites(s, t, chunk);
    StartErroringKeepsInv(t.(cleared := true), reason);
  }

  lemma WriteKeepsInv<T>(s: Stream<T>, chunk: T, size: SizeResult)
    requires Inv(s)
    ensures Inv(Write(s, chunk, size).0)
  {
    if !s.cleared && size.Threw? {
      ErrorIfNeededKeepsInv(s, size.error);
    } else if AcceptsWrites(s) {
      var t := s.(writes := s.writes + [Pending], writeRequests := s.writeRequests + [|s.writes|],
                  accepted := s.accepted + [chunk]);
      var chunkSize := GetChunkSize(s, size).1;
      if chunkSize.Size? {
        ControllerWriteKeepsInv(s, t, chunk, chunkSize.size);
      } else {
        RefusedWriteKeepsInv(s, t, chunk, chunkSize.error);
      }
    }
  }

  // --------------------------------------------------------------- settlements

  lemma OnStartKeepsInv<T>(s: Stream<T>, r: Settlement)
    requires Inv(s) && s.startOut
    ensures Inv(OnStart(s, r))
  {
    var t := s.(startOut := false, started := true);
    if r.Ok? {
      AdvanceKeepsInv(t);
    } else if t.state.Writable? {
      StartErroringKeepsInv(t, r.error);
    } else {
      FinishErroringKeepsInv(t);
    }
  }

  /** The sink has settled its write, and nothing else has happened yet. */
  ghost predicate WriteSettled<T>(s: Stream<T>) {
    && Alive(s) && Log(s) && Writes(s) && Requests(s)
    && s.started && !s.startOut && !HasOperationInFlight(s) && Outstanding(s) == 0
    && |s.calls| == s.begun
    && (s.state.Writable? ==> s.pendingAbort.NoAbort?)
    && (s.pendingAbort.AbortRequest? && !s.pendingAbort.wasAlreadyErroring ==> !s.cleared)
    && (s.state.Erroring? && s.writer.Writer? ==> !s.writer.ready.Pending?)
  }

  lemma FinishInFlightWriteSettles<T>(s: Stream<T>, o: Outcome)
    requires Inv(s) && s.writesOut > 0 && !o.Pending?
    ensures WriteSettled(FinishInFlightWrite(
                           s.(writesOut := s.writesOut - 1, results := s.results + [o.Fulfilled?]), o))
  {}

  lemma DequeueKeepsQueued<T>(s: Stream<T>, t: Stream<T>)
    requires Inv(s) && s.writesOut > 0 && s.state.Writable?
    requires t.state == s.state && t.queue == s.queue && t.accepted == s.accepted
    requires t.closeRequest == s.closeRequest && |t.results| == |s.results| + 1
    ensures Queued(Dequeue(t))
  {
    var waiting := s.accepted[|s.results|..];
    assert |Items(s.queue)| >= 1;
    ItemsTail(s.queue);
    assert waiting[1..] == t.accepted[|t.results|..];
    assert Items(t.queue[1..]) == (Chunks(waiting) + Sentinel(s))[1..];
    assert Chunks(waiting)[1..] == Chunks(waiting[1..]);
  }

  lemma DequeueKeepsSettled<T>(s: Stream<T>)
    requires WriteSettled(s)
    ensures WriteSettled(Dequeue(s))
    ensures Dequeue(s).writer == s.writer && (AcceptsWrites(Dequeue(s)) <==> AcceptsWrites(s))
    ensures Dequeue(s).cleared == s.cleared && Dequeue(s).backpressure == s.backpressure
  {}

  lemma RefreshIdle<T>(s: Stream<T>)
    requires WriteSettled(s) && Queued(s)
    requires s.state.Writable? ==> !s.cleared
    requires s.writer.Writer? ==>
               (s.writer.ready.Pending? <==> AcceptsWrites(s) && s.backpressure)
    ensures Idle(RefreshBackpressure(s))
  {}

  lemma WriteFulfilledIdle<T>(s: Stream<T>, t: Stream<T>)
    requires Inv(s) && s.writesOut > 0
    requires t == FinishInFlightWrite(s.(writesOut := s.writesOut - 1, results := s.results + [true]), Fulfilled)
    ensures Idle(RefreshBackpressure(Dequeue(t)))
  {
    FinishInFlightWriteSettles(s, Fulfilled);
    if s.state.Writable? {
      DequeueKeepsQueued(s, t);
    }
    DequeueKeepsSettled(t);
    RefreshIdle(Dequeue(t));
  }

  lemma WriteFulfilledKeepsInv<T>(s: Stream<T>)
    requires Inv(s) && s.writesOut > 0
    ensures Inv(OnWrite(s, Ok))
  {
    var t := FinishInFlightWrite(s.(writesOut := s.writesOut - 1, results := s.results + [true]), Fulfilled);
    WriteFulfilledIdle(s, t);
    AdvanceKeepsInv(RefreshBackpressure(Dequeue(t)));
  }

  lemma ClearedMayError<T>(s: Stream<T>)
    requires WriteSettled(s) && s.state.Writable?
    ensures MayError(s.(cleared := true))
  {}

  lemma WriteRejectedKeepsInv<T>(s: Stream<T>, reason: Reason)
    requires Inv(s) && s.writesOut > 0
    ensures Inv(OnWrite(s, Failed(reason)))
  {
    FinishInFlightWriteSettles(s, Outcome.Rejected(reason));
    var t := s.(writesOut := s.writesOut - 1, results := s.results + [false]);
    if s.state.Writable? {
      ClearedFirst(t, Outcome.Rejected(reason));
      ClearedMayError(FinishInFlightWrite(t, Outcome.Rejected(reason)));
      StartErroringKeepsInv(FinishInFlightWrite(t.(cleared := true), Outcome.Rejected(reason)), reason);
    } else {
      FinishErroringKeepsInv(FinishInFlightWrite(t, Outcome.Rejected(reason)));
    }
  }

  lemma ClearedFirst<T>(s: Stream<T>, o: Outcome)
    ensures FinishInFlightWrite(s.(cleared := true), o) == FinishInFlightWrite(s, o).(cleared := true)
    ensures FinishInFlightWrite(s, o).state == s.state
  {}

  /** The sink has settled its close, and nothing else has happened yet. */
  ghost predicate CloseSettled<T>(s: Stream<T>) {
    && Alive(s) && Log(s) && Writes(s) && Requests(s)
    && s.started && !s.startOut && !HasOperationInFlight(s) && Outstanding(s) == 0
    && s.begun == |s.accepted| && s.queue == [] && s.closeRequest.None?
    && (s.state.Writable? ==> s.pendingAbort.NoAbort?)
    && (s.writer.Writer? ==> !s.writer.ready.Pending?)
  }

  lemma FinishInFlightCloseSettles<T>(s: Stream<T>, o: Outcome)
    requires Inv(s) && s.closesOut > 0 && !o.Pending?
    ensures CloseSettled(FinishInFlightClose(s.(closesOut := s.closesOut - 1), o))
  {}

  lemma SettlePendingAbortKeeps<T>(s: Stream<T>, o: Outcome)
    requires CloseSettled(s) && !o.Pending?
    ensures CloseSettled(SettlePendingAbort(s, o))
    ensures SettlePendingAbort(s, o).pendingAbort.NoAbort?
    ensures SettlePendingAbort(s, o).state == s.state
  {
    if s.pendingAbort.AbortRequest? {
      LastSettles(s.aborts, o);
      KeepsLogAndWrites(s, SettlePendingAbort(s, o));
    }
  }

  lemma MarkClosedInv<T>(s: Stream<T>)
    requires CloseSettled(s) && s.pendingAbort.NoAbort?
    ensures Inv(MarkClosed(s))
  {}

  lemma ForgivenStaysSettled<T>(s: Stream<T>)
    requires CloseSettled(s)
    ensures CloseSettled(s.(storedError := Undefined))
  {}

  lemma CloseFulfilledKeepsInv<T>(s: Stream<T>)
    requires Inv(s) && s.closesOut > 0
    ensures Inv(OnClose(s, Ok))
  {
    FinishInFlightCloseSettles(s, Fulfilled);
    var u := FinishInFlightClose(s.(closesOut := s.closesOut - 1), Fulfilled);
    if u.state.Erroring? {
      SettlePendingAbortKeeps(u, Fulfilled);
      ForgivenStaysSettled(SettlePendingAbort(u, Fulfilled));
      MarkClosedInv(SettlePendingAbort(u, Fulfilled).(storedError := Undefined));
    } else {
      MarkClosedInv(u);
    }
  }

  lemma CloseRejectedKeepsInv<T>(s: Stream<T>, reason: Reason)
    requires Inv(s) && s.closesOut > 0
    ensures Inv(OnClose(s, Failed(reason)))
  {
    FinishInFlightCloseSettles(s, Outcome.Rejected(reason));
    var u := FinishInFlightClose(s.(closesOut := s.closesOut - 1), Outcome.Rejected(reason));
    SettlePendingAbortKeeps(u, Outcome.Rejected(reason));
    var t := SettlePendingAbort(u, Outcome.Rejected(reason));
    if t.state.Writable? {
      StartErroringKeepsInv(t, reason);
    } else {
      FinishErroringKeepsInv(t);
    }
  }

  lemma OnAbortKeepsInv<T>(s: Stream<T>, r: Settlement)
    requires Inv(s) && s.abortsOut != []
    ensures Inv(OnAbort(s, r))
  {
    var o := if r.Ok? then Fulfilled else Outcome.Rejected(r.error);
    AbortSettled(s, o);
    assert s.abortsOut[1..] == [];
    hide Inv, Rejected, RejectCloseAndClosed, SettleAbort;
    RejectCloseKeepsInv(SettleAbort(s.(abortsOut := []), s.abortsOut[0], o));
  }

  lemma AbortSettled<T>(s: Stream<T>, o: Outcome)
    requires Inv(s) && s.abortsOut != [] && !o.Pending?
    ensures Rejected(SettleAbort(s.(abortsOut := []), s.abortsOut[0], o))
    ensures SettleAbort(s.(abortsOut := []), s.abortsOut[0], o).pendingAbort.NoAbort?
  {
    LastSettles(s.aborts, o);
    KeepsLogAndWrites(s, SettleAbort(s.(abortsOut := []), s.abortsOut[0], o));
  }

  lemma ReleaseKeepsInv<T>(s: Stream<T>)
    requires Inv(s)
    ensures Inv(ReleaseWriter(s))
  {
    OtherWriterKeepsInv(s, ReleaseWriter(s));
  }

  lemma StepKeepsInv<T>(s: Stream<T>, e: Event<T>)
    requires Inv(s)
    ensures Inv(Step(s, e))
  {
    hide Inv, GetWriter, ReleaseWriter, Write, Close, Abort, ControllerErrorIfNeeded, OnStart, OnWrite, OnClose,
         OnAbort;
    match e
    case GetWriterCall => GetWriterKeepsInv(s);
    case ReleaseCall => ReleaseKeepsInv(s);
    case WriteCall(chunk, size) => WriteKeepsInv(s, chunk, size);
    case CloseCall => CloseKeepsInv(s);
    case AbortCall(reason) => AbortKeepsInv(s, reason);
    case SinkErrorCall(reason) => ErrorIfNeededKeepsInv(s, reason);
    case StartSettles(r) => if s.startOut { OnStartKeepsInv(s, r); }
    case WriteSettles(r) =>
      if s.writesOut > 0 {
        match r
        case Ok => WriteFulfilledKeepsInv(s);
        case Failed(reason) => WriteRejectedKeepsInv(s, reason);
      }
    case CloseSettles(r) =>
      if s.closesOut > 0 {
        match r
        case Ok => CloseFulfilledKeepsInv(s);
        case Failed(reason) => CloseRejectedKeepsInv(s, reason);
      }
    case AbortSettles(r) => if s.abortsOut != [] { OnAbortKeepsInv(s, r); }
  }

  lemma {:induction false} RunKeepsInv<T>(highWaterMark: nat, events: seq<Event<T>>)
    ensures Inv(Run(Init(highWaterMark), events))
    decreases |events|
  {
    if events == [] {
      InitInv<T>(highWaterMark);
    } else {
      RunKeepsInv(highWaterMark, events[..|events| - 1]);
      StepKeepsInv(Run(Init(highWaterMark), events[..|events| - 1]), events[|events| - 1]);
    }
  }

  ghost predicate Reachable<T(!new)>(s: Stream<T>) {
    exists highWaterMark: nat, events: seq<Event<T>> :: s == Run(Init(highWaterMark), events)
  }

  lemma ReachableInv<T(!new)>(s: Stream<T>)
    requires Reachable(s)
    ensures Inv(s)
  {
    var highWaterMark: nat, events: seq<Event<T>> :| s == Run(Init(highWaterMark), events);
    RunKeepsInv(highWaterMark, events);
  }
}
