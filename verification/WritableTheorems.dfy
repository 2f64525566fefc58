/** The writable's promises in every reachable state, so over every run: any interleaving of write, close,
    abort, error, getWriter, releaseLock and the settlements of start, write, close
    and abort promises. */
module WritableTheorems {
  import opened Base
  import opened Fifo
  import opened WritableSpec
  import opened WritableProofs

  /** The calls on the sink are the accepted chunks in write() order, then at most one
      of close and abort; nothing is called before start settles or while an earlier
      call is outstanding; no cleared algorithm is ever called. */
  ghost predicate FollowsSinkProtocol<T>(s: Stream<T>) {
    && (forall i :: 0 <= i < |s.calls| && s.calls[i].SinkWrite? ==>
          i < |s.accepted| && s.calls[i] == SinkWrite(s.accepted[i]))
    && (forall i :: 0 <= i < |s.calls| - 1 ==> s.calls[i].SinkWrite?)
    && (!s.started ==> s.calls == [] && Outstanding(s) == 0)
    && Outstanding(s) <= 1
    && s.faults == 0
  }

  lemma SinkProtocolFromInv<T>(s: Stream<T>)
    requires Inv(s)
    ensures FollowsSinkProtocol(s)
  {
    assert forall i :: 0 <= i < s.begun ==> s.calls[i] == s.calls[..s.begun][i];
  }

  lemma SinkProtocol<T(!new)>(s: Stream<T>)
    requires Reachable(s)
    ensures FollowsSinkProtocol(s)
  {
    ReachableInv(s);
    SinkProtocolFromInv(s);
  }

  /** A write's promise is fulfilled exactly when its sink write fulfilled, and pending
      exactly while the stream lives and the sink has not finished it; those waiting
      wait in order, and while writable the queue is exactly their chunks. */
  ghost predicate ConservesWrites<T>(s: Stream<T>) {
    && |s.writes| == |s.accepted| && |s.results| <= |s.accepted|
    && (forall i :: 0 <= i < |s.writes| ==>
          (s.writes[i].Fulfilled? <==> i < |s.results| && s.results[i]))
    && (forall i :: 0 <= i < |s.writes| ==>
          (s.writes[i].Pending? <==> |s.results| <= i && Alive(s)))
    && (Alive(s) ==> OptionSeq(s.inFlightWrite) + s.writeRequests == Range(|s.results|, |s.accepted|))
    && (s.state.Writable? && s.inFlightClose.None? ==>
          Items(s.queue) == Chunks(s.accepted[|s.results|..]) + Sentinel(s))
  }

  lemma ConservationFromInv<T>(s: Stream<T>)
    requires Inv(s)
    ensures ConservesWrites(s)
  {}

  lemma WriteConservation<T(!new)>(s: Stream<T>)
    requires Reachable(s)
    ensures ConservesWrites(s)
  {
    ReachableInv(s);
    ConservationFromInv(s);
  }

  predicate AllSettled(promises: seq<Outcome>) {
    forall i :: 0 <= i < |promises| ==> !promises[i].Pending?
  }

  /** Nothing is left pending: no write, close or abort request, and neither promise of
      an attached writer. */
  predicate Quiet<T>(s: Stream<T>) {
    && AllSettled(s.writes) && AllSettled(s.closes) && AllSettled(s.aborts)
    && (s.writer.Writer? ==> !s.writer.closed.Pending? && !s.writer.ready.Pending?)
  }

  predicate Terminal<T>(s: Stream<T>) {
    s.state.Closed? || (s.state.Errored? && s.abortsOut == [])
  }

  lemma QuietFromInv<T>(s: Stream<T>)
    requires Inv(s) && Terminal(s)
    ensures Quiet(s)
  {}

  /** Closed, or errored with any abort callback settled, leaves nothing pending. */
  lemma NothingLeftPending<T(!new)>(s: Stream<T>)
    requires Reachable(s) && Terminal(s)
    ensures Quiet(s)
  {
    ReachableInv(s);
    QuietFromInv(s);
  }

  /** `ready` is pending exactly while writes are accepted and desiredSize <= 0, and the
      cached flag agrees with the recomputed one in that region. */
  ghost predicate ReadyIsExact<T>(s: Stream<T>) {
    && (s.writer.Writer? ==>
          (s.writer.ready.Pending? <==>
             s.state.Writable? && !CloseQueuedOrInFlight(s) && DesiredSize(s) <= 0))
    && (s.state.Writable? && !CloseQueuedOrInFlight(s) ==>
          (s.backpressure <==> DesiredSize(s) <= 0))
  }

  lemma ReadinessFromInv<T>(s: Stream<T>)
    requires Inv(s)
    ensures ReadyIsExact(s)
  {}

  lemma ExactReadiness<T(!new)>(s: Stream<T>)
    requires Reachable(s)
    ensures ReadyIsExact(s)
  {
    ReachableInv(s);
    ReadinessFromInv(s);
  }

  predicate WorkWaits<T>(s: Stream<T>) {
    s.writeRequests != [] || s.closeRequest.Some? || s.state.Erroring?
  }

  lemma StallFreeFromInv<T>(s: Stream<T>)
    requires Inv(s) && s.started && WorkWaits(s)
    ensures Outstanding(s) == 1
  {
    if s.state.Writable? && s.inFlightClose.None? {
      assert |Items(s.queue)| == |s.accepted| - |s.results| + |Sentinel(s)|;
    }
  }

  /** A started stream never stalls: if a write or a close still waits to be handed to the
      sink, or the stream is erroring, then a sink call is outstanding. */
  lemma NeverStalls<T(!new)>(s: Stream<T>)
    requires Reachable(s) && s.started && WorkWaits(s)
    ensures Outstanding(s) == 1
  {
    ReachableInv(s);
    StallFreeFromInv(s);
  }

  // --------------------------------------------------- a promise settles once

  /** Promises are only added, and a settled one never changes. */
  ghost predicate Kept(before: seq<Outcome>, after: seq<Outcome>) {
    && |before| <= |after|
    && forall i :: 0 <= i < |before| && !before[i].Pending? ==> after[i] == before[i]
  }

  ghost predicate AllKept<T>(s: Stream<T>, t: Stream<T>) {
    Kept(s.writes, t.writes) && Kept(s.closes, t.closes) && Kept(s.aborts, t.aborts)
  }

  /** Settling what is settled counts as a fault; without one, what is settled is kept. */
  ghost predicate KeepsSettled<T>(s: Stream<T>, t: Stream<T>) {
    s.faults <= t.faults && (s.faults == t.faults ==> AllKept(s, t))
  }

  /** No close was fulfilled. */
  ghost predicate NoneClosed(before: seq<Outcome>, after: seq<Outcome>) {
    forall i :: 0 <= i < |after| && after[i].Fulfilled? ==> i < |before| && before[i].Fulfilled?
  }

  /** No close was asked for or fulfilled. */
  ghost predicate Settles<T>(s: Stream<T>, t: Stream<T>) {
    KeepsSettled(s, t) && NoneClosed(s.closes, t.closes) && |t.closes| == |s.closes|
  }

  lemma KeepsThrough<T>(s: Stream<T>, t: Stream<T>, u: Stream<T>)
    requires KeepsSettled(s, t) && KeepsSettled(t, u)
    ensures KeepsSettled(s, u)
  {}

  lemma SettlesThrough<T>(s: Stream<T>, t: Stream<T>, u: Stream<T>)
    requires Settles(s, t) && Settles(t, u)
    ensures Settles(s, u)
  {
    KeepsThrough(s, t, u);
    hide KeepsSettled;
  }

  lemma {:induction false} RejectWritesKeeps<T>(s: Stream<T>)
    ensures Settles(s, RejectWrites(s))
    decreases |s.writeRequests|
  {
    if s.writeRequests != [] {
      var t := SettleWrite(s.(writeRequests := s.writeRequests[1..]), Some(s.writeRequests[0]),
                           Outcome.Rejected(s.storedError));
      RejectWritesKeeps(t);
      SettlesThrough(s, t, RejectWrites(t));
    }
  }

  lemma SettleWriteKeeps<T>(s: Stream<T>, id: Option<nat>, o: Outcome)
    ensures Settles(s, SettleWrite(s, id, o))
  {}

  lemma SettleCloseKeeps<T>(s: Stream<T>, id: Option<nat>, o: Outcome)
    ensures KeepsSettled(s, SettleClose(s, id, o))
    ensures !o.Fulfilled? ==> Settles(s, SettleClose(s, id, o))
  {}

  lemma SettleAbortKeeps<T>(s: Stream<T>, id: nat, o: Outcome)
    ensures Settles(s, SettleAbort(s, id, o))
  {}

  lemma SettlePendingAbortKeepsAll<T>(s: Stream<T>, o: Outcome)
    ensures Settles(s, SettlePendingAbort(s, o))
  {
    if s.pendingAbort.AbortRequest? {
      SettleAbortKeeps(s, s.pendingAbort.id, o);
    }
  }

  ghost predicate SamePromises<T>(s: Stream<T>, t: Stream<T>) {
    s.writes == t.writes && s.closes == t.closes && s.aborts == t.aborts && s.faults == t.faults
  }

  lemma RejectCloseAndClosedKeeps<T>(s: Stream<T>)
    ensures Settles(s, RejectCloseAndClosed(s))
  {
    SettleCloseKeeps(s, s.closeRequest, Outcome.Rejected(s.storedError));
    assert SamePromises(RejectClose(s), RejectCloseAndClosed(s));
  }

  lemma AnswerAbortKeeps<T>(s: Stream<T>)
    ensures Settles(s, AnswerAbort(s))
  {
    RejectCloseAndClosedKeeps(s);
    if s.pendingAbort.AbortRequest? && s.pendingAbort.wasAlreadyErroring {
      var t := SettleAbort(s.(pendingAbort := NoAbort), s.pendingAbort.id, Outcome.Rejected(s.storedError));
      SettleAbortKeeps(s.(pendingAbort := NoAbort), s.pendingAbort.id, Outcome.Rejected(s.storedError));
      RejectCloseAndClosedKeeps(t);
      SettlesThrough(s, t, RejectCloseAndClosed(t));
    }
  }

  lemma FinishErroringKeeps<T>(s: Stream<T>)
    ensures Settles(s, FinishErroring(s))
  {
    var t := s.(state := Errored, queue := []);
    RejectWritesKeeps(t);
    AnswerAbortKeeps(RejectWrites(t));
    SettlesThrough(t, RejectWrites(t), FinishErroring(s));
  }

  lemma StartErroringKeeps<T>(s: Stream<T>, reason: Reason)
    ensures Settles(s, StartErroring(s, reason))
  {
    FinishErroringKeeps(s.(state := Erroring, storedError := reason,
                           writer := EnsureReadyRejected(s.writer, reason)));
  }

  lemma DealWithRejectionKeeps<T>(s: Stream<T>, reason: Reason)
    ensures Settles(s, DealWithRejection(s, reason))
  {
    StartErroringKeeps(s, reason);
    FinishErroringKeeps(s);
  }

  lemma AdvanceKeeps<T>(s: Stream<T>)
    ensures Settles(s, AdvanceQueueIfNeeded(s))
  {
    hide AllKept, NoneClosed, FinishErroring, ProcessClose, ProcessWrite;
    FinishErroringKeeps(s);
    ProcessCloseKeeps(s);
    if s.queue != [] && s.queue[0].item.Chunk? {
      ProcessWriteKeeps(s, s.queue[0].item.value);
    }
    SettlesNothing(s);
  }

  lemma SettlesNothing<T>(s: Stream<T>)
    ensures Settles(s, s)
  {}

  lemma SameSettles<T>(s: Stream<T>, t: Stream<T>)
    requires SamePromises(s, t)
    ensures Settles(s, t)
  {}

  lemma ProcessCloseKeeps<T>(s: Stream<T>)
    ensures Settles(s, ProcessClose(s))
  {}

  lemma ProcessWriteKeeps<T>(s: Stream<T>, chunk: T)
    ensures Settles(s, ProcessWrite(s, chunk))
  {}

  lemma ErrorIfNeededKeeps<T>(s: Stream<T>, reason: Reason)
    ensures Settles(s, ControllerErrorIfNeeded(s, reason))
  {
    StartErroringKeeps(s.(cleared := true), reason);
  }

  lemma ControllerWriteKeeps<T>(s: Stream<T>, chunk: T, size: SizeResult)
    ensures Settles(s, ControllerWrite(s, chunk, size))
  {
    if size.Size? {
      AdvanceKeeps(RefreshBackpressure(s.(queue := s.queue + [Entry(Chunk(chunk), size.size)])));
    } else {
      ErrorIfNeededKeeps(s, size.error);
    }
  }

  lemma WriteKeeps<T>(s: Stream<T>, chunk: T, size: SizeResult)
    ensures Settles(s, Write(s, chunk, size).0)
  {
    var (t, chunkSize) := GetChunkSize(s, size);
    if size.Threw? {
      ErrorIfNeededKeeps(s, size.error);
    }
    assert Settles(s, t);
    var u := t.(writes := t.writes + [Pending], writeRequests := t.writeRequests + [|t.writes|],
                accepted := t.accepted + [chunk]);
    ControllerWriteKeeps(u, chunk, chunkSize);
    SettlesThrough(t, u, ControllerWrite(u, chunk, chunkSize));
    SettlesThrough(s, t, ControllerWrite(u, chunk, chunkSize));
  }

  lemma OnWriteKeeps<T>(s: Stream<T>, r: Settlement)
    requires s.writesOut > 0
    ensures Settles(s, OnWrite(s, r))
  {
    var t := s.(writesOut := s.writesOut - 1, results := s.results + [r.Ok?]);
    hide AllKept, NoneClosed, AdvanceQueueIfNeeded, DealWithRejection, RefreshBackpressure, Dequeue,
         FinishInFlightWrite;
    match r
    case Ok =>
      SameSettles(s, t);
      WriteDoneKeeps(t);
      var v := RefreshBackpressure(Dequeue(FinishInFlightWrite(t, Fulfilled)));
      SettlesThrough(s, t, v);
      AdvanceKeeps(v);
      SettlesThrough(s, v, AdvanceQueueIfNeeded(v));
    case Failed(e) =>
      var u := if t.state.Writable? then t.(cleared := true) else t;
      SameSettles(s, u);
      FinishWriteKeeps(u, Outcome.Rejected(e));
      var v := FinishInFlightWrite(u, Outcome.Rejected(e));
      SettlesThrough(s, u, v);
      DealWithRejectionKeeps(v, e);
      SettlesThrough(s, v, DealWithRejection(v, e));
  }

  lemma FinishWriteKeeps<T>(s: Stream<T>, o: Outcome)
    ensures Settles(s, FinishInFlightWrite(s, o))
  {
    SettleWriteKeeps(s, s.inFlightWrite, o);
    hide AllKept, NoneClosed, SettleWrite;
    SameSettles(SettleWrite(s, s.inFlightWrite, o), FinishInFlightWrite(s, o));
    SettlesThrough(s, SettleWrite(s, s.inFlightWrite, o), FinishInFlightWrite(s, o));
  }

  lemma WriteDoneKeeps<T>(s: Stream<T>)
    ensures Settles(s, RefreshBackpressure(Dequeue(FinishInFlightWrite(s, Fulfilled))))
  {
    var u := FinishInFlightWrite(s, Fulfilled);
    FinishWriteKeeps(s, Fulfilled);
    hide AllKept, NoneClosed, FinishInFlightWrite;
    SameSettles(u, RefreshBackpressure(Dequeue(u)));
    SettlesThrough(s, u, RefreshBackpressure(Dequeue(u)));
  }

  lemma FinishInFlightCloseKeeps<T>(s: Stream<T>, o: Outcome)
    ensures var u := FinishInFlightClose(s, o);
            KeepsSettled(s, u) && KeepsSettled(s, SettlePendingAbort(u, o))
    ensures !o.Fulfilled? ==> Settles(s, SettlePendingAbort(FinishInFlightClose(s, o), o))
  {
    var t := SettleClose(s, s.inFlightClose, o);
    var u := FinishInFlightClose(s, o);
    SettleCloseKeeps(s, s.inFlightClose, o);
    SameSettles(t, u);
    SettlePendingAbortKeepsAll(u, o);
    hide AllKept, NoneClosed, SettleClose, SettlePendingAbort;
    KeepsThrough(s, t, u);
    KeepsThrough(s, u, SettlePendingAbort(u, o));
    if !o.Fulfilled? {
      SettlesThrough(s, t, u);
      SettlesThrough(s, u, SettlePendingAbort(u, o));
    }
  }

  lemma OnCloseKeeps<T>(s: Stream<T>, r: Settlement)
    requires s.closesOut > 0
    ensures KeepsSettled(s, OnClose(s, r)) && (r.Failed? ==> Settles(s, OnClose(s, r)))
  {
    var t := s.(closesOut := s.closesOut - 1);
    SameSettles(s, t);
    hide AllKept, NoneClosed, SettlePendingAbort, FinishInFlightClose, DealWithRejection, MarkClosed;
    if r.Failed? {
      var v := SettlePendingAbort(FinishInFlightClose(t, Outcome.Rejected(r.error)), Outcome.Rejected(r.error));
      FinishInFlightCloseKeeps(t, Outcome.Rejected(r.error));
      SettlesThrough(s, t, v);
      DealWithRejectionKeeps(v, r.error);
      SettlesThrough(s, v, DealWithRejection(v, r.error));
    } else {
      FinishInFlightCloseKeeps(t, Fulfilled);
      var u := FinishInFlightClose(t, Fulfilled);
      KeepsThrough(s, t, u);
      KeepsThrough(s, t, SettlePendingAbort(u, Fulfilled));
      MarkClosedKeeps(u);
      KeepsThrough(s, u, MarkClosed(u));
      var v := SettlePendingAbort(u, Fulfilled);
      MarkClosedKeeps(v);
      KeepsThrough(s, v, MarkClosed(v.(storedError := Undefined)));
    }
  }

  lemma MarkClosedKeeps<T>(s: Stream<T>)
    ensures Settles(s, MarkClosed(s)) && Settles(s, MarkClosed(s.(storedError := Undefined)))
  {
    SameSettles(s, MarkClosed(s));
    SameSettles(s, MarkClosed(s.(storedError := Undefined)));
  }

  lemma OnAbortKeeps<T>(s: Stream<T>, r: Settlement)
    requires s.abortsOut != []
    ensures Settles(s, OnAbort(s, r))
  {
    var t := SettleAbort(s.(abortsOut := s.abortsOut[1..]), s.abortsOut[0],
                         if r.Ok? then Fulfilled else Outcome.Rejected(r.error));
    SettleAbortKeeps(s.(abortsOut := s.abortsOut[1..]), s.abortsOut[0],
                     if r.Ok? then Fulfilled else Outcome.Rejected(r.error));
    RejectCloseAndClosedKeeps(t);
    SettlesThrough(s, t, RejectCloseAndClosed(t));
  }

  lemma OnStartKeeps<T>(s: Stream<T>, r: Settlement)
    ensures Settles(s, OnStart(s, r))
  {
    var t := s.(startOut := false, started := true);
    AdvanceKeeps(t);
    if r.Failed? {
      DealWithRejectionKeeps(t, r.error);
    }
  }

  lemma CloseKeeps<T>(s: Stream<T>)
    ensures KeepsSettled(s, Close(s).0) && NoneClosed(s.closes, Close(s).0.closes)
  {
    var t := QueueClose(s);
    assert KeepsSettled(s, t) && NoneClosed(s.closes, t.closes);
    AdvanceKeeps(t);
    KeepsThrough(s, t, AdvanceQueueIfNeeded(t));
    hide QueueClose, AdvanceQueueIfNeeded, AllKept;
  }

  lemma AbortKeeps<T>(s: Stream<T>, reason: Reason)
    ensures Settles(s, Abort(s, reason).0)
  {
    var t := s.(aborts := s.aborts + [Pending], pendingAbort := AbortRequest(|s.aborts|, reason, false));
    StartErroringKeeps(t, reason);
    SettlesThrough(s, t, StartErroring(t, reason));
  }

  lemma GetWriterSame<T>(s: Stream<T>)
    ensures Settles(s, GetWriter(s)) && Settles(s, ReleaseWriter(s))
  {}

  lemma StepSettles<T>(s: Stream<T>, e: Event<T>)
    ensures KeepsSettled(s, Step(s, e))
    ensures !(e.CloseSettles? && e.r.Ok?) ==> NoneClosed(s.closes, Step(s, e).closes)
    ensures !(e.CloseSettles? && e.r.Ok?) && !e.CloseCall? ==> Settles(s, Step(s, e))
  {
    hide AllKept, NoneClosed, GetWriter, ReleaseWriter, Write, Close, Abort, ControllerErrorIfNeeded, OnStart, OnWrite,
         OnClose, OnAbort;
    SettlesNothing(s);
    match e
    case GetWriterCall => GetWriterSame(s);
    case ReleaseCall => GetWriterSame(s);
    case WriteCall(chunk, size) => WriteKeeps(s, chunk, size);
    case CloseCall => CloseKeeps(s);
    case AbortCall(reason) => AbortKeeps(s, reason);
    case SinkErrorCall(reason) => ErrorIfNeededKeeps(s, reason);
    case StartSettles(r) => OnStartKeeps(s, r);
    case WriteSettles(r) => if s.writesOut > 0 { OnWriteKeeps(s, r); }
    case CloseSettles(r) => if s.closesOut > 0 { OnCloseKeeps(s, r); }
    case AbortSettles(r) => if s.abortsOut != [] { OnAbortKeeps(s, r); }
  }

  lemma StepKeepsSettled<T>(s: Stream<T>, e: Event<T>)
    requires Inv(s)
    ensures AllKept(s, Step(s, e))
  {
    StepKeepsInv(s, e);
    StepSettles(s, e);
  }

  /** In every run: a step adds promises or settles pending ones, and never one that is
      settled, although the setters would overwrite it. */
  lemma PromisesSettleOnce<T(!new)>(s: Stream<T>, e: Event<T>)
    requires Reachable(s)
    ensures AllKept(s, Step(s, e))
  {
    ReachableInv(s);
    StepKeepsSettled(s, e);
  }

  // ---------------------------------------------------- what a fulfilled close means

  /** A close() promise is fulfilled only by closing, and then the sink has been called with
      every chunk that was accepted. */
  ghost predicate CloseMeans<T>(s: Stream<T>) {
    && (forall i :: 0 <= i < |s.closes| && s.closes[i].Fulfilled? ==> s.state.Closed?)
    && (s.state.Closed? ==> s.begun == |s.accepted|)
  }

  lemma ClosedStays<T>(s: Stream<T>, e: Event<T>)
    requires Inv(s) && s.state.Closed?
    ensures Step(s, e) == s.(writer := Step(s, e).writer)
  {}

  lemma {:induction false} RejectWritesState<T>(s: Stream<T>)
    ensures RejectWrites(s).state == s.state
    decreases |s.writeRequests|
  {
    if s.writeRequests != [] {
      RejectWritesState(SettleWrite(s.(writeRequests := s.writeRequests[1..]), Some(s.writeRequests[0]),
                                    Outcome.Rejected(s.storedError)));
    }
  }

  lemma RejectCloseState<T>(s: Stream<T>)
    ensures RejectCloseAndClosed(s).state == s.state
  {}

  lemma AnswerAbortState<T>(s: Stream<T>)
    ensures AnswerAbort(s).state == s.state
  {
    RejectCloseState(s);
    if s.pendingAbort.AbortRequest? {
      RejectCloseState(SettleAbort(s.(pendingAbort := NoAbort), s.pendingAbort.id,
                                   Outcome.Rejected(s.storedError)));
    }
    hide RejectCloseAndClosed;
  }

  lemma FinishErroringState<T>(s: Stream<T>)
    ensures FinishErroring(s).state.Errored?
  {
    var t := s.(state := Errored, queue := []);
    RejectWritesState(t);
    AnswerAbortState(RejectWrites(t));
    hide RejectWrites, AnswerAbort;
  }

  lemma StartErroringState<T>(s: Stream<T>, reason: Reason)
    ensures !StartErroring(s, reason).state.Closed?
  {
    FinishErroringState(s.(state := Erroring, storedError := reason, writer := EnsureReadyRejected(s.writer, reason)));
    hide FinishErroring;
  }

  lemma DealWithRejectionState<T>(s: Stream<T>, reason: Reason)
    ensures !DealWithRejection(s, reason).state.Closed?
  {
    StartErroringState(s, reason);
    FinishErroringState(s);
    hide FinishErroring, StartErroring;
  }

  lemma ErrorIfNeededState<T>(s: Stream<T>, reason: Reason)
    requires !s.state.Closed?
    ensures !ControllerErrorIfNeeded(s, reason).state.Closed?
  {
    StartErroringState(s.(cleared := true), reason);
    hide StartErroring;
  }

  lemma AdvanceState<T>(s: Stream<T>)
    requires !s.state.Closed?
    ensures !AdvanceQueueIfNeeded(s).state.Closed?
  {
    FinishErroringState(s);
    hide FinishErroring;
  }

  lemma WriteState<T>(s: Stream<T>, chunk: T, size: SizeResult)
    requires !s.state.Closed?
    ensures !Write(s, chunk, size).0.state.Closed?
  {
    var (t, chunkSize) := GetChunkSize(s, size);
    if size.Threw? {
      ErrorIfNeededState(s, size.error);
    }
    assert !t.state.Closed?;
    var u := t.(writes := t.writes + [Pending], writeRequests := t.writeRequests + [|t.writes|],
                accepted := t.accepted + [chunk]);
    hide ControllerErrorIfNeeded, AdvanceQueueIfNeeded;
    if chunkSize.Size? {
      AdvanceState(RefreshBackpressure(u.(queue := u.queue + [Entry(Chunk(chunk), chunkSize.size)])));
    } else {
      ErrorIfNeededState(u, chunkSize.error);
    }
  }

  lemma OnWriteState<T>(s: Stream<T>, r: Settlement)
    requires s.writesOut > 0 && !s.state.Closed?
    ensures !OnWrite(s, r).state.Closed?
  {
    var t := s.(writesOut := s.writesOut - 1, results := s.results + [r.Ok?]);
    hide AdvanceQueueIfNeeded, DealWithRejection;
    match r
    case Ok => AdvanceState(RefreshBackpressure(Dequeue(FinishInFlightWrite(t, Fulfilled))));
    case Failed(e) =>
      var u := if t.state.Writable? then t.(cleared := true) else t;
      DealWithRejectionState(FinishInFlightWrite(u, Outcome.Rejected(e)), e);
  }

  lemma CloseState<T>(s: Stream<T>, r: Settlement)
    requires s.closesOut > 0 && r.Failed?
    ensures !OnClose(s, r).state.Closed?
  {
    var t := s.(closesOut := s.closesOut - 1);
    hide DealWithRejection;
    DealWithRejectionState(
      SettlePendingAbort(FinishInFlightClose(t, Outcome.Rejected(r.error)), Outcome.Rejected(r.error)), r.error);
  }

  lemma UserState<T>(s: Stream<T>, reason: Reason)
    requires !s.state.Closed?
    ensures !Close(s).0.state.Closed? && !Abort(s, reason).0.state.Closed?
  {
    hide AdvanceQueueIfNeeded, StartErroring;
    AdvanceState(QueueClose(s));
    StartErroringState(
      s.(aborts := s.aborts + [Pending], pendingAbort := AbortRequest(|s.aborts|, reason, false)), reason);
  }

  lemma ClosesOnlyByClose<T>(s: Stream<T>, e: Event<T>)
    requires !s.state.Closed? && !(e.CloseSettles? && e.r.Ok?)
    ensures !Step(s, e).state.Closed?
  {
    hide Write, Close, Abort, ControllerErrorIfNeeded, OnWrite, OnClose, AdvanceQueueIfNeeded, DealWithRejection;
    match e {
      case WriteCall(chunk, size) => WriteState(s, chunk, size);
      case CloseCall => UserState(s, Undefined);
      case AbortCall(reason) => UserState(s, reason);
      case SinkErrorCall(reason) => ErrorIfNeededState(s, reason);
      case StartSettles(r) =>
        var t := s.(startOut := false, started := true);
        AdvanceState(t);
        DealWithRejectionState(t, if r.Failed? then r.error else Undefined);
      case WriteSettles(r) => if s.writesOut > 0 { OnWriteState(s, r); }
      case CloseSettles(r) => if s.closesOut > 0 { CloseState(s, r); }
      case _ =>
    }
  }

  lemma CloseFulfilledMeans<T>(s: Stream<T>)
    requires Inv(s) && s.closesOut > 0
    ensures var t := OnClose(s, Ok); t.state.Closed? && t.begun == |t.accepted|
  {}

  lemma StepKeepsCloseMeans<T>(s: Stream<T>, e: Event<T>)
    requires Inv(s) && CloseMeans(s)
    ensures CloseMeans(Step(s, e))
  {
    if s.state.Closed? {
      ClosedStays(s, e);
    } else if e.CloseSettles? && e.r.Ok? {
      if s.closesOut > 0 {
        CloseFulfilledMeans(s);
      }
    } else {
      ClosesOnlyByClose(s, e);
      StepSettles(s, e);
    }
  }

  lemma {:induction false} RunCloseMeans<T>(highWaterMark: nat, events: seq<Event<T>>)
    ensures CloseMeans(Run(Init(highWaterMark), events))
    decreases |events|
  {
    if events != [] {
      RunCloseMeans(highWaterMark, events[..|events| - 1]);
      RunKeepsInv(highWaterMark, events[..|events| - 1]);
      StepKeepsCloseMeans(Run(Init(highWaterMark), events[..|events| - 1]), events[|events| - 1]);
    }
  }

  /** Once a close() promise is fulfilled the stream is closed and the sink has been given every
      accepted chunk, in order, and has settled every write. */
  lemma FulfilledClose<T(!new)>(s: Stream<T>, i: nat)
    requires Reachable(s) && i < |s.closes| && s.closes[i].Fulfilled?
    ensures s.state.Closed?
    ensures |s.accepted| <= |s.calls| && s.calls[..|s.accepted|] == SinkWrites(s.accepted)
    ensures AllSettled(s.writes)
  {
    var highWaterMark: nat, events: seq<Event<T>> :| s == Run(Init(highWaterMark), events);
    RunKeepsInv(highWaterMark, events);
    RunCloseMeans(highWaterMark, events);
    assert s.accepted[..s.begun] == s.accepted;
  }

  // ------------------------------------------------------------- a stream not closing

  predicate NotClosing<T>(s: Stream<T>) {
    !CloseQueuedOrInFlight(s) && !s.state.Closed?
  }

  /** Only close() starts a close. */
  lemma NotClosingStays<T>(s: Stream<T>, e: Event<T>)
    requires Inv(s) && NotClosing(s) && !e.CloseCall?
    ensures NotClosing(Step(s, e))
  {
    if e.CloseSettles? {
      assert s.closesOut == 0;
    } else {
      ClosesOnlyByClose(s, e);
      StepKeepsInv(s, e);
      StepSettles(s, e);
      NoPendingClose(s, Step(s, e));
    }
  }

  lemma NoPendingClose<T>(s: Stream<T>, t: Stream<T>)
    requires Requests(s) && Requests(t) && !CloseQueuedOrInFlight(s) && Settles(s, t)
    ensures !CloseQueuedOrInFlight(t)
  {}

  lemma ErroredStays<T>(s: Stream<T>, e: Event<T>)
    requires Inv(s) && s.state.Errored?
    ensures Step(s, e).state.Errored? && Step(s, e).storedError == s.storedError
  {}

  // ---------------------------------------------------------- the promises handed out

  predicate InRange(promises: seq<Outcome>, reply: Reply) {
    reply.Request? ==> reply.id < |promises|
  }

  lemma NoFaultsCounted<T>(s: Stream<T>)
    requires Inv(s)
    ensures s.faults == 0
  {}

  lemma ErrorIfNeededCounts<T>(s: Stream<T>, reason: Reason)
    ensures s.faults <= ControllerErrorIfNeeded(s, reason).faults
  {
    ErrorIfNeededKeeps(s, reason);
    hide ControllerErrorIfNeeded;
  }

  lemma ControllerWriteCounts<T>(s: Stream<T>, chunk: T, size: SizeResult)
    ensures s.faults <= ControllerWrite(s, chunk, size).faults
    ensures s.faults == ControllerWrite(s, chunk, size).faults ==>
              |s.writes| <= |ControllerWrite(s, chunk, size).writes|
  {
    ControllerWriteKeeps(s, chunk, size);
    hide ControllerWrite;
  }

  lemma WriteReply<T>(s: Stream<T>, chunk: T, size: SizeResult)
    requires Inv(s)
    ensures InRange(Write(s, chunk, size).0.writes, Write(s, chunk, size).1)
  {
    hide Inv, ControllerWrite, ControllerErrorIfNeeded;
    WriteKeepsInv(s, chunk, size);
    NoFaultsCounted(s);
    NoFaultsCounted(Write(s, chunk, size).0);
    var (t, chunkSize) := GetChunkSize(s, size);
    if size.Threw? {
      ErrorIfNeededCounts(s, size.error);
    }
    ControllerWriteCounts(t.(writes := t.writes + [Pending], writeRequests := t.writeRequests + [|t.writes|],
                             accepted := t.accepted + [chunk]), chunk, chunkSize);
  }

  lemma CloseReply<T>(s: Stream<T>)
    requires Inv(s)
    ensures InRange(Close(s).0.closes, Close(s).1)
  {
    CloseKeepsInv(s);
    AdvanceKeeps(QueueClose(s));
    hide AdvanceQueueIfNeeded;
  }

  lemma AbortReply<T>(s: Stream<T>, reason: Reason)
    requires Inv(s)
    ensures InRange(Abort(s, reason).0.aborts, Abort(s, reason).1)
  {
    AbortKeepsInv(s, reason);
    StartErroringKeeps(s.(aborts := s.aborts + [Pending], pendingAbort := AbortRequest(|s.aborts|, reason, false)),
                       reason);
    hide StartErroring;
  }

  // -------------------------------------------------------------- all of it

  /** What a user of the stream relies on. */
  ghost predicate KeepsPromises<T>(s: Stream<T>) {
    && FollowsSinkProtocol(s) && ConservesWrites(s) && ReadyIsExact(s)
    && (s.started && WorkWaits(s) ==> Outstanding(s) == 1)
    && (Terminal(s) ==> Quiet(s))
    && CloseMeans(s)
  }

  lemma PromisesFromInv<T>(s: Stream<T>)
    requires Inv(s) && CloseMeans(s)
    ensures KeepsPromises(s)
  {
    SinkProtocolFromInv(s);
    ConservationFromInv(s);
    ReadinessFromInv(s);
    if s.started && WorkWaits(s) {
      StallFreeFromInv(s);
    }
    if Terminal(s) {
      QuietFromInv(s);
    }
  }
}
