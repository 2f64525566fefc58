/** What a pipe relies on in its destination: every step of a writable other than a write
    keeps what was accepted, and never takes room away while writes are accepted. */
module PipeDest {
  import opened Base
  import opened Fifo
  import opened WritableSpec
  import P = WritableProofs
  import T = WritableTheorems
  import WR = WritableReasons
  import opened PipeSpec

  /** What is proved of a writable, folded away. */
  ghost predicate Sealed<T>(s: W.Stream<T>, n: nat) {
    if n == 0 then P.Inv(s) && T.CloseMeans(s) && WR.Told(s) else Sealed(s, n - 1)
  }

  ghost predicate Sound<T>(s: W.Stream<T>) {
    Sealed(s, |s.writes| + 5)
  }

  lemma {:induction false} SealedMeans<T>(s: W.Stream<T>, n: nat)
    ensures Sealed(s, n) == (P.Inv(s) && T.CloseMeans(s) && WR.Told(s))
  {
    if n > 0 {
      SealedMeans(s, n - 1);
    }
  }

  lemma SoundMeans<T>(s: W.Stream<T>)
    ensures Sound(s) == (P.Inv(s) && T.CloseMeans(s) && WR.Told(s))
  {
    SealedMeans(s, |s.writes| + 5);
  }

  /** The destination can no longer close: whatever it was not given is lost with an error. */
  predicate Doomed<T>(s: W.Stream<T>) {
    s.state.Errored? || (s.state.Erroring? && s.inFlightClose.None?)
  }

  /** A step from `s` to `t` that accepts nothing. */
  ghost predicate Settles<T>(s: W.Stream<T>, t: W.Stream<T>) {
    && t.accepted == s.accepted
    && t.writer.Writer? == s.writer.Writer?
    && (Accepting(t) ==> Accepting(s) && DesiredSize(s) <= DesiredSize(t))
    && (Doomed(s) ==> Doomed(t))
    && (Accepting(s) ==> Accepting(t) || Doomed(t))
    && (t.state.Writable? ==> s.state.Writable?)
  }

  /** What no step of the destination but a close takes back: promises handed out, an error,
      that no close is under way. */
  ghost predicate Moves<T>(s: W.Stream<T>, t: W.Stream<T>) {
    && |s.writes| <= |t.writes| && |s.closes| <= |t.closes| && |s.aborts| <= |t.aborts|
    && (s.state.Errored? ==> t.state.Errored? && t.storedError == s.storedError)
    && (T.NotClosing(s) ==> T.NotClosing(t))
  }

  lemma StepMoves<T>(s: W.Stream<T>, e: W.Event<T>)
    requires Sound(s)
    ensures Sound(W.Step(s, e)) && (!e.CloseCall? ==> Moves(s, W.Step(s, e)))
  {
    SoundMeans(s);
    SoundMeans(W.Step(s, e));
    hide W.Step, T.CloseMeans, WR.Told;
    P.StepKeepsInv(s, e);
    WR.StepTold(s, e);
    T.StepKeepsCloseMeans(s, e);
    T.StepKeepsSettled(s, e);
    if s.state.Errored? {
      T.ErroredStays(s, e);
    }
    if T.NotClosing(s) && !e.CloseCall? {
      T.NotClosingStays(s, e);
    }
  }

  // ------------------------------------------------------------------- errors

  /** What finishing an erroring stream leaves alone. */
  ghost predicate Errors<T>(s: W.Stream<T>, t: W.Stream<T>) {
    && t.accepted == s.accepted
    && t.writer.Writer? == s.writer.Writer?
    && t.state == s.state
  }

  lemma {:induction false} RejectWritesErrors<T>(s: W.Stream<T>)
    ensures Errors(s, RejectWrites(s))
    decreases |s.writeRequests|
  {
    if s.writeRequests != [] {
      RejectWritesErrors(SettleWrite(s.(writeRequests := s.writeRequests[1..]), Some(s.writeRequests[0]),
                                     Rejected(s.storedError)));
    }
  }

  lemma RejectCloseErrors<T>(s: W.Stream<T>)
    ensures Errors(s, RejectCloseAndClosed(s))
  {}

  lemma AnswerAbortErrors<T>(s: W.Stream<T>)
    ensures Errors(s, AnswerAbort(s))
  {
    RejectCloseErrors(s);
    if s.pendingAbort.AbortRequest? && s.pendingAbort.wasAlreadyErroring {
      RejectCloseErrors(SettleAbort(s.(pendingAbort := NoAbort), s.pendingAbort.id, Rejected(s.storedError)));
    }
  }

  lemma FinishErroringSettles<T>(s: W.Stream<T>)
    requires !Accepting(s)
    ensures Settles(s, FinishErroring(s)) && FinishErroring(s).state.Errored?
  {
    var t := s.(state := Errored, queue := []);
    RejectWritesErrors(t);
    AnswerAbortErrors(RejectWrites(t));
  }

  lemma StartErroringSettles<T>(s: W.Stream<T>, reason: Reason)
    requires s.state.Writable?
    ensures Settles(s, StartErroring(s, reason)) && !StartErroring(s, reason).state.Writable?
  {
    var t := s.(state := Erroring, storedError := reason, writer := EnsureReadyRejected(s.writer, reason));
    if !HasOperationInFlight(t) && t.started {
      FinishErroringSettles(t);
    }
  }

  lemma ErrorIfNeededSettles<T>(s: W.Stream<T>, reason: Reason)
    ensures Settles(s, ControllerErrorIfNeeded(s, reason)) && !ControllerErrorIfNeeded(s, reason).state.Writable?
  {
    if s.state.Writable? {
      StartErroringSettles(s.(cleared := true), reason);
    }
  }

  lemma DealWithRejectionSettles<T>(s: W.Stream<T>, reason: Reason)
    requires s.state.Writable? || s.state.Erroring?
    ensures Settles(s, DealWithRejection(s, reason)) && !DealWithRejection(s, reason).state.Writable?
  {
    if s.state.Writable? {
      StartErroringSettles(s, reason);
    } else {
      FinishErroringSettles(s);
    }
  }

  // -------------------------------------------------------------- settlements

  lemma AdvanceSettles<T>(s: W.Stream<T>)
    requires s.inFlightClose.Some? ==> s.queue == []
    ensures Settles(s, AdvanceQueueIfNeeded(s))
  {
    hide FinishErroring;
    if s.started && s.inFlightWrite.None? {
      if s.state.Erroring? {
        FinishErroringSettles(s);
      } else if s.queue != [] {
        hide ProcessClose, ProcessWrite;
        match s.queue[0].item
        case CloseSentinel => ProcessCloseSettles(s);
        case Chunk(chunk) => ProcessWriteSettles(s, chunk);
      }
    }
  }

  lemma ProcessCloseSettles<T>(s: W.Stream<T>)
    requires s.queue != [] && s.inFlightClose.None? && !s.state.Erroring?
    ensures Settles(s, ProcessClose(s))
  {}

  lemma ProcessWriteSettles<T>(s: W.Stream<T>, chunk: T)
    ensures Settles(s, ProcessWrite(s, chunk))
  {}

  lemma SettlesTwice<T>(s: W.Stream<T>, t: W.Stream<T>, u: W.Stream<T>)
    requires Settles(s, t) && Settles(t, u)
    ensures Settles(s, u)
  {}

  lemma OnStartSettles<T>(s: W.Stream<T>, r: Settlement)
    requires P.Inv(s) && s.startOut
    ensures Settles(s, OnStart(s, r))
  {
    var t := s.(startOut := false, started := true);
    if r.Ok? {
      AdvanceSettles(t);
    } else {
      DealWithRejectionSettles(t, r.error);
    }
  }

  lemma DequeueSettles<T>(s: W.Stream<T>)
    ensures Settles(s, Dequeue(s))
  {}

  lemma RefreshSettles<T>(s: W.Stream<T>)
    ensures Settles(s, RefreshBackpressure(s))
  {}

  lemma FinishWriteSettles<T>(s: W.Stream<T>, o: Outcome)
    ensures Settles(s, FinishInFlightWrite(s, o))
  {}

  lemma WriteDoneSettles<T>(s: W.Stream<T>, o: Outcome)
    ensures Settles(s, RefreshBackpressure(Dequeue(FinishInFlightWrite(s, o))))
  {
    var t := FinishInFlightWrite(s, o);
    FinishWriteSettles(s, o);
    DequeueSettles(t);
    RefreshSettles(Dequeue(t));
    SettlesTwice(s, t, Dequeue(t));
    SettlesTwice(s, Dequeue(t), RefreshBackpressure(Dequeue(t)));
  }

  lemma OnWriteSettles<T>(s: W.Stream<T>, r: Settlement)
    requires P.Inv(s) && s.writesOut > 0
    ensures Settles(s, OnWrite(s, r))
  {
    var t := s.(writesOut := s.writesOut - 1, results := s.results + [r.Ok?]);
    if r.Ok? {
      var u := RefreshBackpressure(Dequeue(FinishInFlightWrite(t, Fulfilled)));
      WriteDoneSettles(t, Fulfilled);
      AdvanceSettles(u);
      SettlesTwice(t, u, AdvanceQueueIfNeeded(u));
    } else {
      var u := if t.state.Writable? then t.(cleared := true) else t;
      var v := FinishInFlightWrite(u, Rejected(r.error));
      assert Settles(s, v);
      DealWithRejectionSettles(v, r.error);
      SettlesTwice(s, v, DealWithRejection(v, r.error));
    }
  }

  lemma AbortDoneErrors<T>(s: W.Stream<T>, o: Outcome)
    ensures Errors(s, SettlePendingAbort(s, o))
  {}

  lemma CloseDoneErrors<T>(s: W.Stream<T>, o: Outcome)
    ensures Errors(s, FinishInFlightClose(s, o))
  {}

  lemma CloseDoneKeeps<T>(s: W.Stream<T>, o: Outcome)
    ensures Errors(s, SettlePendingAbort(FinishInFlightClose(s, o), o))
    ensures Errors(s, FinishInFlightClose(s, o))
  {
    CloseDoneErrors(s, o);
    AbortDoneErrors(FinishInFlightClose(s, o), o);
  }

  lemma OnAbortSettles<T>(s: W.Stream<T>, r: Settlement)
    requires P.Inv(s) && s.abortsOut != []
    ensures Settles(s, OnAbort(s, r))
  {
    RejectCloseErrors(SettleAbort(s.(abortsOut := s.abortsOut[1..]), s.abortsOut[0],
                                  if r.Ok? then Fulfilled else Rejected(r.error)));
  }

  lemma OnCloseSettles<T>(s: W.Stream<T>, r: Settlement)
    requires P.Inv(s) && s.closesOut > 0
    ensures Settles(s, OnClose(s, r))
  {
    var t := s.(closesOut := s.closesOut - 1);
    if r.Ok? {
      CloseDoneKeeps(t, Fulfilled);
    } else {
      var u := SettlePendingAbort(FinishInFlightClose(t, Rejected(r.error)), Rejected(r.error));
      CloseDoneKeeps(t, Rejected(r.error));
      DealWithRejectionSettles(u, r.error);
    }
  }

  lemma StepSettles<T>(s: W.Stream<T>, e: W.Event<T>)
    requires P.Inv(s) && DestSide(e)
    ensures Settles(s, W.Step(s, e))
  {
    match e {
      case SinkErrorCall(reason) => ErrorIfNeededSettles(s, reason);
      case StartSettles(r) => if s.startOut { OnStartSettles(s, r); }
      case WriteSettles(r) => if s.writesOut > 0 { OnWriteSettles(s, r); }
      case CloseSettles(r) => if s.closesOut > 0 { OnCloseSettles(s, r); }
      case AbortSettles(r) => if s.abortsOut != [] { OnAbortSettles(s, r); }
      case _ =>
    }
  }

  /** No step the destination takes by itself accepts a chunk or takes room away. */
  lemma DestStepSettles<T>(s: W.Stream<T>, e: W.Event<T>)
    requires Sound(s) && DestSide(e)
    ensures Sound(W.Step(s, e)) && Settles(s, W.Step(s, e)) && Moves(s, W.Step(s, e))
  {
    StepMoves(s, e);
    SoundMeans(s);
    StepSettles(s, e);
  }

  // ---------------------------------------------------------- the pipe's calls

  lemma AbortSettlesAll<T>(s: W.Stream<T>, reason: Reason)
    requires Sound(s)
    ensures Sound(W.Abort(s, reason).0) && Settles(s, W.Abort(s, reason).0) && Moves(s, W.Abort(s, reason).0)
    ensures !W.Abort(s, reason).0.state.Writable?
    ensures T.InRange(W.Abort(s, reason).0.aborts, W.Abort(s, reason).1)
  {
    StepMoves(s, AbortCall(reason));
    SoundMeans(s);
    T.AbortReply(s, reason);
    AbortSettles(s, reason);
  }

  lemma AbortSettles<T>(s: W.Stream<T>, reason: Reason)
    requires s.state.Writable? ==> s.pendingAbort.NoAbort?
    ensures Settles(s, W.Abort(s, reason).0) && !W.Abort(s, reason).0.state.Writable?
  {
    hide StartErroring;
    if s.state.Writable? {
      StartErroringSettles(s.(aborts := s.aborts + [Pending], pendingAbort := AbortRequest(|s.aborts|, reason, false)),
                           reason);
    }
  }

  /** Closing accepts nothing and dooms nothing; a close that was not under way is asked for or
      refused. */
  lemma CloseAccepts<T>(s: W.Stream<T>)
    requires Sound(s)
    ensures var (t, reply) := CloseWithErrorPropagation(s);
            && Sound(t) && t.accepted == s.accepted && t.writer.Writer? == s.writer.Writer?
            && !Accepting(t) && (Doomed(s) ==> Doomed(t)) && (t.state.Writable? ==> s.state.Writable?)
            && T.InRange(t.closes, reply) && (T.NotClosing(s) ==> !reply.Resolved?)
            && |s.writes| <= |t.writes|
  {
    StepMoves(s, CloseCall);
    SoundMeans(s);
    T.CloseReply(s);
    T.StepKeepsSettled(s, CloseCall);
    CloseSettles(s);
  }

  lemma CloseSettles<T>(s: W.Stream<T>)
    requires P.Inv(s)
    ensures var t := CloseWithErrorPropagation(s).0;
            && t.accepted == s.accepted && t.writer.Writer? == s.writer.Writer?
            && !Accepting(t) && (Doomed(s) ==> Doomed(t)) && (t.state.Writable? ==> s.state.Writable?)
  {
    if s.inFlightClose.None? {
      AdvanceSettles(QueueClose(s));
    }
  }

  /** A write is accepted, or the destination is not accepting, or it errors there and then. */
  ghost predicate Receives<T>(s: W.Stream<T>, t: W.Stream<T>, chunk: T, size: SizeResult) {
    && t.writer.Writer? == s.writer.Writer?
    && (Doomed(s) ==> Doomed(t)) && (t.state.Writable? ==> s.state.Writable?)
    && (!Accepting(s) ==> !Accepting(t) && t.accepted == s.accepted)
    && (Accepting(s) ==> t.accepted == s.accepted + [chunk] || (t.accepted == s.accepted && Doomed(t)))
    && (Accepting(s) ==> Accepting(t) || Doomed(t))
    && (Accepting(t) && size.Size? && !s.cleared ==> DesiredSize(t) == DesiredSize(s) - size.size)
  }

  lemma AcceptReceives<T>(s: W.Stream<T>, t: W.Stream<T>, chunk: T, size: SizeResult)
    requires P.Inv(s) && P.Writing(s, t, chunk)
    ensures var u := ControllerWrite(t, chunk, size);
            && u.writer.Writer? == t.writer.Writer? && u.accepted == t.accepted
            && (Accepting(u) || Doomed(u))
            && (Accepting(u) ==> size.Size? && DesiredSize(u) == DesiredSize(t) - size.size)
  {
    if size.Size? {
      var v := RefreshBackpressure(t.(queue := t.queue + [Entry(Chunk(chunk), size.size)]));
      TotalAppend(t.queue, Entry(Chunk(chunk), size.size));
      assert s.queue != [] ==> s.queue[0].item == Items(s.queue)[0];
      AdvanceExactly(v);
    } else {
      ErrorIfNeededSettles(t, size.error);
    }
  }

  lemma AdvanceExactly<T>(s: W.Stream<T>)
    requires Accepting(s) && (s.queue != [] ==> s.queue[0].item.Chunk?)
    ensures var t := AdvanceQueueIfNeeded(s);
            Accepting(t) && t.queue == s.queue && t.accepted == s.accepted && t.writer == s.writer
            && t.highWaterMark == s.highWaterMark
  {}

  /** The size function threw: the destination errors and accepts nothing. */
  lemma ThrowReceives<T>(s: W.Stream<T>, chunk: T, size: SizeResult)
    requires size.Threw? && !s.cleared
    ensures Receives(s, W.Write(s, chunk, size).0, chunk, size)
  {
    ErrorIfNeededSettles(s, size.error);
  }

  lemma AcceptedReceives<T>(s: W.Stream<T>, chunk: T, size: SizeResult)
    requires P.Inv(s) && Accepting(s) && !(size.Threw? && !s.cleared)
    ensures Receives(s, W.Write(s, chunk, size).0, chunk, size)
  {
    var t := s.(writes := s.writes + [Pending], writeRequests := s.writeRequests + [|s.writes|],
                accepted := s.accepted + [chunk]);
    AcceptReceives(s, t, chunk, GetChunkSize(s, size).1);
  }

  lemma WriteReceives<T>(s: W.Stream<T>, chunk: T, size: SizeResult)
    requires Sound(s) && s.writer.Writer?
    ensures Sound(W.Write(s, chunk, size).0) && Receives(s, W.Write(s, chunk, size).0, chunk, size)
    ensures Moves(s, W.Write(s, chunk, size).0)
    ensures T.InRange(W.Write(s, chunk, size).0.writes, W.Write(s, chunk, size).1)
  {
    WriteStaysSound(s, chunk, size);
    if !s.cleared && size.Threw? {
      ThrowReceives(s, chunk, size);
    } else if Accepting(s) {
      SoundMeans(s);
      AcceptedReceives(s, chunk, size);
    }
  }

  lemma WriteStaysSound<T>(s: W.Stream<T>, chunk: T, size: SizeResult)
    requires Sound(s) && s.writer.Writer?
    ensures Sound(W.Write(s, chunk, size).0) && Moves(s, W.Write(s, chunk, size).0)
    ensures T.InRange(W.Write(s, chunk, size).0.writes, W.Write(s, chunk, size).1)
  {
    StepMoves(s, WriteCall(chunk, size));
    SoundMeans(s);
    T.WriteReply(s, chunk, size);
  }

  /** `ready` is pending exactly when the destination accepts writes and has no room. */
  lemma ReadyMeansRoom<T>(s: W.Stream<T>)
    requires Sound(s) && s.writer.Writer?
    ensures s.writer.ready.Pending? <==> Accepting(s) && DesiredSize(s) <= 0
  {
    SoundMeans(s);
  }

  /** `ready` is rejected only if the destination fails. */
  lemma ReadyMeansAlive<T>(s: W.Stream<T>)
    requires Sound(s) && s.writer.Writer? && s.writer.ready.Rejected?
    ensures !s.state.Writable?
  {
    SoundMeans(s);
  }
}
