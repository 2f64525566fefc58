/** What the writer and the sink of a writable are told, in every reachable state. */
module WritableReasons {
  import opened Base
  import opened Fifo
  import opened WritableSpec
  import opened WritableProofs
  import opened WritableSteps

  /** The writer's promises: `ready` is rejected, and with the stream's error, once the stream
      fails; `closed` tells how it ended, after any abort the sink has to be heard from. */
  ghost predicate WriterTold<T>(s: Stream<T>) {
    s.writer.Writer? ==>
      match s.state
      case Writable => !s.writer.ready.Rejected? && s.writer.closed.Pending?
      case Erroring => s.writer.ready == Outcome.Rejected(s.storedError) && s.writer.closed.Pending?
      case Errored =>
        && s.writer.ready == Outcome.Rejected(s.storedError)
        && (s.writer.closed == Outcome.Rejected(s.storedError) || (s.writer.closed.Pending? && s.abortsOut != []))
      case Closed => s.writer.closed.Fulfilled?
  }

  predicate LastCall<T(==)>(s: Stream<T>, call: SinkCall<T>) {
    |s.calls| == s.begun + 1 && s.calls[s.begun] == call
  }

  /** A stream that is closing or closed has called the sink's close(), and one with an abort to
      hear from its abort(), with the stream's error. */
  ghost predicate SinkTold<T>(s: Stream<T>) {
    && (s.inFlightClose.Some? || s.state.Closed? ==> LastCall(s, SinkClose))
    && (s.abortsOut != [] ==> LastCall(s, SinkAbort(s.storedError)))
    && (s.pendingAbort.AbortRequest? && !s.pendingAbort.wasAlreadyErroring ==>
          s.pendingAbort.reason == s.storedError)
    && (|s.calls| > s.begun && s.calls[s.begun].SinkAbort? ==>
          s.state.Errored? && s.calls[s.begun] == SinkAbort(s.storedError))
  }

  /** The writes the sink never got to were rejected with the stream's error. */
  ghost predicate WritesTold<T>(s: Stream<T>) {
    s.state.Errored? ==>
      forall i :: |s.results| <= i < |s.writes| ==> s.writes[i] == Outcome.Rejected(s.storedError)
  }

  ghost predicate Told<T>(s: Stream<T>) {
    WriterTold(s) && SinkTold(s) && WritesTold(s)
  }

  lemma StepWritesTold<T>(s: Stream<T>, e: Event<T>)
    requires Inv(s) && WritesTold(s)
    ensures WritesTold(Step(s, e))
  {
    StepFollows(s, e);
    hide Step;
  }

  // ------------------------------------------------------------- the engine

  ghost predicate Tells<T>(s: Stream<T>) {
    WriterTold(s) && SinkTold(s)
  }

  /** A sink that still has to be told of the abort can be. */
  predicate MayAbort<T>(s: Stream<T>) {
    s.pendingAbort.AbortRequest? && !s.pendingAbort.wasAlreadyErroring ==> !s.cleared && |s.calls| == s.begun
  }

  lemma RejectCloseTells<T>(s: Stream<T>)
    requires s.state.Errored? && s.abortsOut == [] && s.inFlightClose.None? && SinkTold(s)
    requires s.writer.Writer? ==> && s.writer.ready == Outcome.Rejected(s.storedError)
                                  && (s.writer.closed.Pending? || s.writer.closed == Outcome.Rejected(s.storedError))
    ensures Tells(RejectCloseAndClosed(s))
  {
    RejectCloseReacts(s);
    hide Put;
  }

  lemma AnswerAbortTells<T>(s: Stream<T>)
    requires s.state.Errored? && s.abortsOut == [] && s.inFlightClose.None? && SinkTold(s) && MayAbort(s)
    requires s.writer.Writer? ==> s.writer.ready == Outcome.Rejected(s.storedError) && s.writer.closed.Pending?
    ensures Tells(AnswerAbort(s))
  {
    hide RejectCloseAndClosed;
    if s.pendingAbort.NoAbort? {
      RejectCloseTells(s);
    } else if s.pendingAbort.wasAlreadyErroring {
      RejectCloseTells(SettleAbort(s.(pendingAbort := NoAbort), s.pendingAbort.id, Outcome.Rejected(s.storedError)));
    }
  }

  lemma FinishErroringTells<T>(s: Stream<T>)
    requires s.state.Erroring? && s.abortsOut == [] && s.inFlightClose.None? && Tells(s) && MayAbort(s)
    ensures Tells(FinishErroring(s))
  {
    var t := s.(state := Errored, queue := []);
    RejectWritesReacts(t);
    hide RejectWrites, AnswerAbort;
    AnswerAbortTells(RejectWrites(t));
  }

  lemma StartErroringTells<T>(s: Stream<T>, reason: Reason)
    requires s.state.Writable? && s.abortsOut == [] && WriterTold(s) && SinkTold(Failing(s, reason))
    requires s.inFlightClose.None? ==> MayAbort(s)
    ensures Tells(StartErroring(s, reason))
  {
    hide FinishErroring;
    if !HasOperationInFlight(s) && s.started {
      FinishErroringTells(Failing(s, reason));
    }
  }

  lemma AdvanceTells<T>(s: Stream<T>)
    requires Alive(s) && s.abortsOut == [] && s.inFlightClose.None? && Tells(s) && MayAbort(s)
    requires s.state.Writable? ==> !s.cleared && s.pendingAbort.NoAbort? && |s.calls| == s.begun
    ensures Tells(AdvanceQueueIfNeeded(s))
  {
    hide FinishErroring;
    if s.started && s.inFlightWrite.None? && s.state.Erroring? {
      FinishErroringTells(s);
    }
  }

  // ------------------------------------------------------------- one step

  lemma WriteTells<T>(s: Stream<T>, chunk: T, size: SizeResult)
    requires Inv(s) && Tells(s) && s.writer.Writer?
    ensures Tells(Write(s, chunk, size).0)
  {
    hide StartErroring, AdvanceQueueIfNeeded;
    if s.state.Writable? {
      AliveFacts(s);
      var e := WriteCall(chunk, size);
      if Failure(s, e).Some? {
        FailedWriteIs(s, chunk, size);
        StartErroringTells((if Accepts(s, e) then Requested(s, chunk) else s).(cleared := true), size.error);
      } else if Accepts(s, e) {
        AdvanceTells(RefreshBackpressure(Requested(s, chunk).(queue := s.queue + [Entry(Chunk(chunk), size.size)])));
      }
    }
  }

  lemma CloseTells<T>(s: Stream<T>)
    requires Inv(s) && Tells(s)
    ensures Tells(Close(s).0)
  {
    hide AdvanceQueueIfNeeded;
    if StartsClose(s, CloseCall) {
      AdvanceTells(QueueClose(s));
    }
  }

  lemma AbortTells<T>(s: Stream<T>, reason: Reason)
    requires Inv(s) && Tells(s)
    ensures Tells(Abort(s, reason).0)
  {
    hide StartErroring;
    if s.state.Writable? {
      StartErroringTells(s.(aborts := s.aborts + [Pending], pendingAbort := AbortRequest(|s.aborts|, reason, false)),
                         reason);
    }
  }

  lemma ErrorTells<T>(s: Stream<T>, reason: Reason)
    requires Inv(s) && Tells(s)
    ensures Tells(ControllerErrorIfNeeded(s, reason))
  {
    hide StartErroring;
    if s.state.Writable? {
      StartErroringTells(s.(cleared := true), reason);
    }
  }

  lemma StartTells<T>(s: Stream<T>, r: Settlement)
    requires Inv(s) && Tells(s) && s.startOut
    ensures Tells(OnStart(s, r))
  {
    hide StartErroring, FinishErroring, AdvanceQueueIfNeeded;
    var t := s.(startOut := false, started := true);
    if r.Ok? {
      AdvanceTells(t);
    } else if s.state.Writable? {
      StartErroringTells(t, r.error);
    } else {
      FinishErroringTells(t);
    }
  }

  lemma WriteHeardTells<T>(s: Stream<T>, r: Settlement)
    requires Inv(s) && Tells(s) && s.writesOut > 0
    ensures Tells(OnWrite(s, r))
  {
    hide StartErroring, FinishErroring, AdvanceQueueIfNeeded;
    InFlightFacts(s);
    var t := s.(writesOut := s.writesOut - 1, results := s.results + [r.Ok?]);
    if r.Ok? {
      AdvanceTells(RefreshBackpressure(Dequeue(FinishInFlightWrite(t, Fulfilled))));
    } else if s.state.Writable? {
      StartErroringTells(FinishInFlightWrite(t.(cleared := true), Outcome.Rejected(r.error)), r.error);
    } else {
      FinishErroringTells(FinishInFlightWrite(t, Outcome.Rejected(r.error)));
    }
  }

  lemma CloseHeardTells<T>(s: Stream<T>, r: Settlement)
    requires Inv(s) && Tells(s) && s.closesOut > 0
    ensures Tells(OnClose(s, r))
  {
    hide StartErroring, FinishErroring;
    InFlightFacts(s);
    if r.Failed? {
      var u := SettlePendingAbort(FinishInFlightClose(s.(closesOut := s.closesOut - 1), Outcome.Rejected(r.error)),
                                  Outcome.Rejected(r.error));
      if s.state.Writable? {
        StartErroringTells(u, r.error);
      } else {
        FinishErroringTells(u);
      }
    }
  }

  lemma AbortHeardTells<T>(s: Stream<T>, r: Settlement)
    requires Inv(s) && Tells(s) && s.abortsOut != []
    ensures Tells(OnAbort(s, r))
  {
    hide RejectCloseAndClosed;
    InFlightFacts(s);
    RejectCloseTells(SettleAbort(s.(abortsOut := s.abortsOut[1..]), s.abortsOut[0], OutcomeOf(r)));
  }

  lemma WriterTells<T>(s: Stream<T>)
    requires Tells(s)
    ensures Tells(GetWriter(s)) && Tells(ReleaseWriter(s))
  {}

  lemma StepTold<T>(s: Stream<T>, e: Event<T>)
    requires Inv(s) && Told(s)
    ensures Told(Step(s, e))
  {
    StepWritesTold(s, e);
    hide Inv, WriterTold, SinkTold, WritesTold, GetWriter, ReleaseWriter, Write, Close, Abort, ControllerErrorIfNeeded,
         OnStart, OnWrite, OnClose, OnAbort;
    match e
    case GetWriterCall => WriterTells(s);
    case ReleaseCall => WriterTells(s);
    case WriteCall(chunk, size) => if s.writer.Writer? { WriteTells(s, chunk, size); }
    case CloseCall => CloseTells(s);
    case AbortCall(reason) => AbortTells(s, reason);
    case SinkErrorCall(reason) => ErrorTells(s, reason);
    case StartSettles(r) => if s.startOut { StartTells(s, r); }
    case WriteSettles(r) => if s.writesOut > 0 { WriteHeardTells(s, r); }
    case CloseSettles(r) => if s.closesOut > 0 { CloseHeardTells(s, r); }
    case AbortSettles(r) => if s.abortsOut != [] { AbortHeardTells(s, r); }
  }

  lemma {:induction false} RunTold<T>(highWaterMark: nat, events: seq<Event<T>>)
    ensures Told(Run(Init(highWaterMark), events))
    decreases |events|
  {
    if events != [] {
      RunTold(highWaterMark, events[..|events| - 1]);
      RunKeepsInv(highWaterMark, events[..|events| - 1]);
      StepTold(Run(Init(highWaterMark), events[..|events| - 1]), events[|events| - 1]);
    }
  }

  /** Over every run: writer, sink and unfinished writes are told the error the stream failed with. */
  lemma EverybodyIsTold<T(!new)>(s: Stream<T>)
    requires Reachable(s)
    ensures Told(s)
  {
    var highWaterMark: nat, events: seq<Event<T>> :| s == Run(Init(highWaterMark), events);
    RunTold(highWaterMark, events);
  }
}
