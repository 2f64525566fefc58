/** pipeTo()'s promises in every state a pipe can reach from any two unlocked streams. */
module PipeTheorems {
  import opened Base
  import opened Fifo
  import opened PipeSpec
  import opened PipeProofs
  import R = ReadableSpec
  import W = WritableSpec
  import S = LockedSource
  import D = PipeDest
  import RP = ReadableProofs
  import WP = WritableProofs

  ghost predicate Piped<T(!new)>(p: Pipe<T>) {
    exists source: R.Stream<T>, dest: W.Stream<T>, options: Options, signal: Option<Reason>, events: seq<Event<T>> ::
      && Joins(source, dest)
      && p == Run(Launch(Join(source, dest, options, RP.Chunks(source.answers)), signal), events)
  }

  lemma PipedInv<T(!new)>(p: Pipe<T>)
    requires Piped(p)
    ensures Inv(p)
  {
    var source: R.Stream<T>, dest: W.Stream<T>, options: Options, signal: Option<Reason>, events: seq<Event<T>> :|
      && Joins(source, dest)
      && p == Run(Launch(Join(source, dest, options, RP.Chunks(source.answers)), signal), events);
    JoinInv(source, dest, options);
    LaunchKeepsInv(Join(source, dest, options, RP.Chunks(source.answers)), signal);
    RunKeepsInv(Launch(Join(source, dest, options, RP.Chunks(source.answers)), signal), events);
  }

  // ------------------------------------------------------------ order and loss

  /** What the pipe's reads took is what it handed over, in order and before the next read;
      the destination accepted a prefix of it, all of it while it accepts writes; so what
      the source was given is what the destination accepted, then what the source still
      queues. */
  ghost predicate Conserves<T>(p: Pipe<T>) {
    && |p.source.waiters| <= 1
    && RP.Chunks(p.source.answers) == p.readBefore + Handed(p.handed)
    && p.dest.accepted <= p.acceptedBefore + Handed(p.handed)
    && (Accepting(p.dest) ==> p.dest.accepted == p.acceptedBefore + Handed(p.handed))
    && (Accepting(p.dest) && !p.source.state.Errored? && !p.source.cancelled ==>
          p.source.enqueued == p.readBefore + p.dest.accepted[|p.acceptedBefore|..] + Items(p.source.queue))
  }

  lemma ConservesFromInv<T>(p: Pipe<T>)
    requires Inv(p) && !p.shutdown.Finalized?
    ensures Conserves(p)
  {
    S.SoundMeans(p.source);
    if Accepting(p.dest) {
      assert p.dest.accepted[|p.acceptedBefore|..] == Handed(p.handed);
    }
  }

  lemma PipeConserves<T(!new)>(p: Pipe<T>)
    requires Piped(p) && !p.shutdown.Finalized?
    ensures Conserves(p)
  {
    PipedInv(p);
    ConservesFromInv(p);
  }

  // -------------------------------------------------------------- backpressure

  /** Every chunk handed to a destination that accepts writes found room there. */
  lemma HandsOverWithRoom<T(!new)>(p: Pipe<T>, i: nat)
    requires Piped(p) && i < |p.handed| && p.handed[i].accepting
    ensures p.handed[i].room > 0
  {
    PipedInv(p);
  }

  ghost predicate Overshoots<T>(p: Pipe<T>, q: Pipe<T>, size: nat) {
    |q.handed| > |p.handed| && Accepting(q.dest) ==> Total(q.dest.queue) < q.dest.highWaterMark + size
  }

  lemma HandOvershoots<T>(p: Pipe<T>, chunk: T, size: nat)
    requires Holding(p, chunk)
    ensures Overshoots(p, Hand(p, chunk, Size(size)), size)
  {
    D.WriteReceives(p.dest, chunk, Size(size));
    D.SoundMeans(p.dest);
  }

  lemma PollOvershoots<T>(p: Pipe<T>, size: nat)
    requires Answered(p) || (Inv(p) && !p.loop.Reading?)
    ensures Overshoots(p, Poll(p, Size(size)), size)
  {
    if Answered(p) && p.source.answers[p.loop.id].Got? {
      HandOvershoots(p, p.source.answers[p.loop.id].value, size);
    }
  }

  lemma TurnOvershoots<T>(p: Pipe<T>, size: nat)
    requires Inv(p)
    ensures Overshoots(p, Turn(p, Size(size)), size)
  {
    if !p.shutdown.Finalized? && p.loop == AtReady(Fulfilled) {
      StartReadAnswered(p);
      PollOvershoots(StartRead(p), size);
    }
  }

  lemma SourceEventOvershoots<T>(p: Pipe<T>, e: R.Event<T>, size: nat)
    requires Inv(p) && R.SourceSide(e)
    ensures Overshoots(p, Poll(p.(source := R.Step(p.source, e)), Size(size)), size)
  {
    if !p.shutdown.Finalized? {
      SourceEventAnswers(p, e);
      PollOvershoots(p.(source := R.Step(p.source, e)), size);
    }
  }

  /** After a hand-off the destination's queue exceeds its mark by less than that chunk. */
  lemma OvershootsByOneChunk<T(!new)>(p: Pipe<T>, e: R.Event<T>, size: nat)
    requires Piped(p) && R.SourceSide(e)
    ensures Overshoots(p, Step(p, LoopTurn(Size(size))), size)
    ensures Overshoots(p, Step(p, SourceEvent(e, Size(size))), size)
  {
    PipedInv(p);
    TurnOvershoots(p, size);
    SourceEventOvershoots(p, e, size);
  }

  // ------------------------------------------------------------------ the close

  /** When the pipe has the sink's close() called, the sink has been given every chunk the
      source ever held, in order. */
  ghost predicate ClosedComplete<T>(p: Pipe<T>) {
    && p.source.state.Closed?
    && p.dest.begun == |p.dest.accepted| <= |p.dest.calls|
    && p.dest.calls[..p.dest.begun] == WP.SinkWrites(p.dest.accepted)
    && p.dest.accepted == p.acceptedBefore + Handed(p.handed)
    && (!p.source.cancelled ==> p.source.enqueued == p.readBefore + Handed(p.handed))
  }

  lemma ClosedCompleteFromInv<T>(p: Pipe<T>)
    requires Inv(p) && !p.shutdown.Finalized? && p.openAtStart && p.dest.inFlightClose.Some?
    ensures ClosedComplete(p)
  {
    S.SoundMeans(p.source);
    D.SoundMeans(p.dest);
    assert p.dest.accepted[..p.dest.begun] == p.dest.accepted;
    assert RP.Chunks(p.source.answers) + Items(p.source.queue) == RP.Chunks(p.source.answers);
  }

  lemma ClosesAfterEverything<T(!new)>(p: Pipe<T>)
    requires Piped(p) && !p.shutdown.Finalized? && p.openAtStart && p.dest.inFlightClose.Some?
    ensures ClosedComplete(p)
  {
    PipedInv(p);
    ClosedCompleteFromInv(p);
  }

  // --------------------------------------------------------------- the shutdown

  /** A shutdown's action has the cause it is for and is not prevented: the
      destination is aborted with the error of a source that failed, the source is cancelled
      if the destination failed or closed, and the destination is closed after a source that
      ended.  The pipe's promise is to be rejected with that
      error, or with the signal's reason, and to be fulfilled only after a closed source.  Once
      the action has run, it is done. */
  lemma ShutdownActsOnItsCause<T(!new)>(p: Pipe<T>)
    requires Piped(p)
    ensures p.shutdown.AwaitingWrite? || p.shutdown.WriteDone? || p.shutdown.Acting? ==>
              Justified(p, p.shutdown.action, p.shutdown.error)
    ensures p.shutdown.Acting? ==> CarriedOut(p, p.shutdown.action)
  {
    PipedInv(p);
  }

  // --------------------------------------------------------------- finalization

  /** A pipe is finalized at most once, and holds both locks until then. */
  lemma FinalizesOnce<T(!new)>(p: Pipe<T>)
    requires Piped(p)
    ensures p.finalizations <= 1
    ensures p.finalizations == 0 ==> p.source.locked && p.dest.writer.Writer?
    ensures p.finalizations == 1 <==> p.shutdown.Finalized?
  {
    PipedInv(p);
  }

  /** Everything that was handed over has been accepted, and the sink called with it in order. */
  ghost predicate Received<T>(p: Pipe<T>) {
    && p.dest.accepted == p.acceptedBefore + Handed(p.handed)
    && |p.dest.accepted| <= |p.dest.calls|
    && p.dest.calls[..|p.dest.accepted|] == WP.SinkWrites(p.dest.accepted)
  }

  /** A pipe's promise is fulfilled only once the source closed and everything it was given has
      been handed over.  Unless that is prevented, the promise of the destination's close() was
      fulfilled too, and a destination that was open is closed and its sink has received it all. */
  ghost predicate Fulfils<T>(p: Pipe<T>) {
    && p.source.state.Closed?
    && (!p.source.cancelled ==> p.source.enqueued == p.readBefore + Handed(p.handed))
    && (if p.options.preventClose then
          p.openAtStart ==> p.dest.accepted == p.acceptedBefore + Handed(p.handed) || D.Doomed(p.dest)
        else
          && p.shutdown.Acting? && p.shutdown.action.CloseDest?
          && ReplyOutcome(p.dest.closes, p.shutdown.returned) == Fulfilled
          && (p.openAtStart ==> p.dest.state.Closed? && Received(p)))
  }

  lemma FulfilledMeans<T(!new)>(p: Pipe<T>, e: Event<T>)
    requires Piped(p) && !p.shutdown.Finalized? && Step(p, e).shutdown == Finalized(None)
    ensures Fulfils(p)
  {
    PipedInv(p);
    S.SoundMeans(p.source);
    FinalizingStep(p, e);
    assert RP.Chunks(p.source.answers) + Items(p.source.queue) == RP.Chunks(p.source.answers);
    if p.openAtStart && !p.options.preventClose {
      ClosedReceived(p);
    }
  }

  lemma ClosedReceived<T>(p: Pipe<T>)
    requires Inv(p) && p.openAtStart && p.shutdown.Acting? && p.shutdown.action.CloseDest?
    requires ReplyOutcome(p.dest.closes, p.shutdown.returned) == Fulfilled
    ensures p.dest.state.Closed? && Received(p)
  {
    D.SoundMeans(p.dest);
    assert p.dest.closes[p.shutdown.returned.id].Fulfilled?;
    assert p.dest.accepted[..p.dest.begun] == p.dest.accepted;
  }

  /** What a shutdown waits for is a promise the destination has made. */
  lemma WaitsForPromises<T(!new)>(p: Pipe<T>)
    requires Piped(p)
    ensures p.shutdown.AwaitingWrite? && p.shutdown.write.Request? ==> p.shutdown.write.id < |p.dest.writes|
    ensures p.shutdown.Acting? && p.shutdown.returned.Request? ==>
              && (p.shutdown.action.CloseDest? ==> p.shutdown.returned.id < |p.dest.closes|)
              && (p.shutdown.action.AbortDest? ==> p.shutdown.returned.id < |p.dest.aborts|)
  {
    PipedInv(p);
  }

  /** The steps that finalize a pipe without an error. */
  lemma FinalizingStep<T>(p: Pipe<T>, e: Event<T>)
    requires Inv(p) && !p.shutdown.Finalized? && Step(p, e).shutdown == Finalized(None)
    ensures p.source.state.Closed?
    ensures !p.options.preventClose ==>
              && p.shutdown.Acting? && p.shutdown.action.CloseDest?
              && ReplyOutcome(p.dest.closes, p.shutdown.returned) == Fulfilled
  {
    hide Taking, Room, Given, W.Write, W.Abort, W.Step, R.Step, R.Cancel, R.Read, CloseWithErrorPropagation;
  }

  /** It is fulfilled exactly if the action was the close and that went well; what a failed
      action or write gives is what it is rejected with. */
  lemma ActionDecides<T(!new)>(p: Pipe<T>, r: Settlement)
    requires Piped(p) && p.shutdown.Acting? && CanEnd(p, r)
    ensures Step(p, WaitOver(r)).shutdown.Finalized?
    ensures Step(p, WaitOver(r)).shutdown.error.None? <==> p.shutdown.action.CloseDest? && r.Ok?
    ensures Step(p, WaitOver(r)).shutdown.error.None? ==> p.source.state.Closed?
  {
    PipedInv(p);
    ActionDecidesFromInv(p, r);
  }

  lemma ActionDecidesFromInv<T>(p: Pipe<T>, r: Settlement)
    requires Inv(p) && p.shutdown.Acting? && CanEnd(p, r)
    ensures var q := Step(p, WaitOver(r));
            && q.shutdown.Finalized?
            && (q.shutdown.error.None? <==> p.shutdown.action.CloseDest? && r.Ok?)
            && (q.shutdown.error.None? ==> p.source.state.Closed?)
  {
    hide Taking, Room, Given, W.ReleaseWriter, Track;
  }
}
