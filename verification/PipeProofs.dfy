/** What every run of a pipe keeps, and what follows for the two streams it joins. */
module PipeProofs {
  import opened Base
  import opened PipeSpec
  import R = ReadableSpec
  import W = WritableSpec
  import S = LockedSource
  import D = PipeDest
  import WT = WritableTheorems
  import WS = WritableSteps
  import WR = WritableReasons
  import RP = ReadableProofs
  import WP = WritableProofs

  function Handed<T>(handed: seq<HandOff<T>>): (r: seq<T>)
    ensures |r| == |handed|
  {
    seq(|handed|, i requires 0 <= i < |handed| => handed[i].chunk)
  }

  function ReadId(loop: Loop): Option<nat> {
    if loop.Reading? then Some(loop.id) else None
  }

  /** The pipe holds both locks; its read is the only one that waits; what its reads got is
      what it handed over. */
  ghost predicate Taking<T>(p: Pipe<T>) {
    && S.WaitsFor(p.source, ReadId(p.loop)) && p.source.locked
    && RP.Chunks(p.source.answers) == p.readBefore + Handed(p.handed)
  }

  /** Past `ready`, a destination that accepts writes has room. */
  ghost predicate Room<T>(p: Pipe<T>) {
    && D.Sound(p.dest) && p.dest.writer.Writer?
    && (p.loop.AtReady? && p.loop.ready.Pending? ==> p.dest.writer.ready.Pending?)
    && (p.loop.AtReady? && p.loop.ready.Rejected? ==> !p.dest.state.Writable?)
    && (p.loop.Reading? || (p.loop.AtReady? && p.loop.ready.Fulfilled?) ==>
          Accepting(p.dest) ==> W.DesiredSize(p.dest) > 0)
  }

  /** The destination was given everything, unless it fails; and an open one is closed only
      after the source. */
  ghost predicate Given<T>(p: Pipe<T>) {
    && p.dest.accepted <= p.acceptedBefore + Handed(p.handed)
    && (Accepting(p.dest) ==> p.openAtStart)
    && (p.openAtStart ==> p.dest.accepted == p.acceptedBefore + Handed(p.handed) || D.Doomed(p.dest))
    && (p.openAtStart ==> Accepting(p.dest) || D.Doomed(p.dest) || p.source.state.Closed?)
  }

  ghost predicate WithRoom<T>(handed: seq<HandOff<T>>) {
    forall i :: 0 <= i < |handed| && handed[i].accepting ==> handed[i].room > 0
  }

  /** The destination has failed with this error, or was closed when the pipe began. */
  ghost predicate DestFailed<T>(p: Pipe<T>, error: Reason) {
    && !Accepting(p.dest)
    && (error == InvalidState || (p.dest.state.Errored? && error == p.dest.storedError))
  }

  /** What calls for each action, and what the pipe's promise is then to be rejected with:
      it is to be fulfilled only if the source closed. */
  ghost predicate Justified<T>(p: Pipe<T>, action: Action, error: Option<Reason>) {
    match action
    case NoAction =>
      if error.None? then p.options.preventClose && p.source.state.Closed?
      else
        || (p.options.preventAbort && p.source.state.Errored? && error.value == p.source.error)
        || (p.options.preventCancel && DestFailed(p, error.value))
    case AbortDest(reason) =>
      !p.options.preventAbort && p.source.state.Errored? && reason == p.source.error && error == Some(reason)
    case CancelSource => !p.options.preventCancel && error.Some? && DestFailed(p, error.value)
    case CloseDest => !p.options.preventClose && p.source.state.Closed? && error.None?
    case AbortBoth(reason) => error == Some(reason)
  }

  /** What each action has done; without one there is nothing to wait for. */
  ghost predicate CarriedOut<T>(p: Pipe<T>, action: Action) {
    match action
    case NoAction => false
    case AbortDest(_) => !p.dest.state.Writable?
    case CancelSource => !p.source.state.Readable?
    case CloseDest => !Accepting(p.dest)
    case AbortBoth(_) =>
      && (p.options.preventAbort || !p.dest.state.Writable?)
      && (p.options.preventCancel || !p.source.state.Readable?)
  }

  ghost predicate Stage<T>(p: Pipe<T>) {
    match p.shutdown
    case Running => true
    case AwaitingWrite(action, error, _) => Justified(p, action, error)
    case WriteDone(action, error, _) => Justified(p, action, error)
    case Acting(action, error, _) => Justified(p, action, error) && CarriedOut(p, action)
    case Finalized(error) => error.None? ==> p.source.state.Closed?
  }

  /** The current write is the last one the destination accepted, if that took the last chunk. */
  ghost predicate Current<T>(p: Pipe<T>) {
    match p.currentWrite
    case Resolved => p.handed == []
    case Request(id) => id + 1 == |p.dest.accepted|
    case RejectedWith(_) => true
  }

  /** The promises the pipe waits for exist, and nobody but the pipe closes a destination that
      was open. */
  ghost predicate Replies<T>(p: Pipe<T>) {
    && WT.InRange(p.dest.writes, p.currentWrite) && Current(p)
    && (p.openAtStart ==> WT.NotClosing(p.dest) || (p.shutdown.Acting? && p.shutdown.action.CloseDest?))
    && match p.shutdown
       case Running => true
       case AwaitingWrite(_, _, write) => WT.InRange(p.dest.writes, write)
       case WriteDone(_, _, _) => true
       case Acting(action, _, returned) =>
         && (action.CloseDest? ==>
               WT.InRange(p.dest.closes, returned) && (p.openAtStart ==> !returned.Resolved?))
         && (action.AbortDest? ==> WT.InRange(p.dest.aborts, returned))
       case Finalized(_) => true
  }

  lemma RepliesStay<T>(p: Pipe<T>, q: Pipe<T>)
    requires Replies(p) && q.shutdown == p.shutdown && q.openAtStart == p.openAtStart
    requires WT.InRange(q.dest.writes, q.currentWrite) && Current(q) && D.Moves(p.dest, q.dest)
    ensures Replies(q)
  {}

  ghost predicate Inv<T>(p: Pipe<T>) {
    && WithRoom(p.handed)
    && p.finalizations == (if p.shutdown.Finalized? then 1 else 0)
    && (!p.shutdown.Finalized? ==> Taking(p) && Room(p) && Given(p) && Replies(p))
    && Stage(p)
  }

  // ---------------------------------------------------------------- handing over

  lemma HandedAppend<T>(handed: seq<HandOff<T>>, h: HandOff<T>)
    ensures Handed(handed + [h]) == Handed(handed) + [h.chunk]
  {}

  /** Neither side recovers what it has lost, so a shutdown keeps its cause and its effect. */
  lemma StageStays<T>(p: Pipe<T>, q: Pipe<T>)
    requires Stage(p) && q.shutdown == p.shutdown && q.options == p.options
    requires S.Ends(p.source, q.source) && D.Moves(p.dest, q.dest)
    requires (Accepting(q.dest) ==> Accepting(p.dest)) && (q.dest.state.Writable? ==> p.dest.state.Writable?)
    ensures Stage(q)
  {}

  /** A read answered with a chunk, not handed over yet. */
  ghost predicate Holding<T>(p: Pipe<T>, chunk: T) {
    && !p.shutdown.Finalized?
    && S.WaitsFor(p.source, None) && p.source.locked
    && RP.Chunks(p.source.answers) == p.readBefore + Handed(p.handed) + [chunk]
    && D.Sound(p.dest) && p.dest.writer.Writer?
    && (Accepting(p.dest) ==> W.DesiredSize(p.dest) > 0)
    && Given(p) && (p.openAtStart ==> Accepting(p.dest) || D.Doomed(p.dest))
    && WithRoom(p.handed) && p.finalizations == 0 && Stage(p) && Replies(p)
  }

  lemma HandGives<T>(p: Pipe<T>, chunk: T, size: SizeResult)
    requires Holding(p, chunk)
    ensures Given(Hand(p, chunk, size))
  {
    var q := Hand(p, chunk, size);
    D.WriteReceives(p.dest, chunk, size);
    HandedAppend(p.handed, HandOff(chunk, Accepting(p.dest), W.DesiredSize(p.dest)));
    assert p.acceptedBefore + Handed(q.handed) == (p.acceptedBefore + Handed(p.handed)) + [chunk];
  }

  lemma HandCurrent<T>(p: Pipe<T>, chunk: T, size: SizeResult)
    requires !p.shutdown.Finalized? && D.Sound(p.dest) && p.dest.writer.Writer?
    ensures Current(Hand(p, chunk, size))
  {
    D.SoundMeans(p.dest);
    WS.WriteReplies(p.dest, chunk, size);
    hide D.Sound, WP.Inv, WT.CloseMeans, W.Write;
  }

  lemma HandKeepsInv<T>(p: Pipe<T>, chunk: T, size: SizeResult)
    requires Holding(p, chunk)
    ensures Inv(Hand(p, chunk, size))
  {
    D.WriteReceives(p.dest, chunk, size);
    HandGives(p, chunk, size);
    HandCurrent(p, chunk, size);
    StageStays(p, Hand(p, chunk, size));
    RepliesStay(p, Hand(p, chunk, size));
    HandedAppend(p.handed, HandOff(chunk, Accepting(p.dest), W.DesiredSize(p.dest)));
    assert p.readBefore + Handed(p.handed) + [chunk] == p.readBefore + (Handed(p.handed) + [chunk]);
  }

  /** A pipe whose read has just been answered, or still waits. */
  ghost predicate Answered<T>(p: Pipe<T>) {
    && p.loop.Reading? && p.loop.id + 1 == |p.source.answers|
    && var r := p.source.answers[p.loop.id];
       if r.Got? then Holding(p, r.value)
       else if r.Waiting? then Inv(p)
       else Inv(p.(loop := Ended))
  }

  lemma PollKeepsInv<T>(p: Pipe<T>, size: SizeResult)
    requires Answered(p) || (Inv(p) && !p.loop.Reading?)
    ensures Inv(Poll(p, size))
  {
    if Answered(p) {
      var r := p.source.answers[p.loop.id];
      if r.Got? {
        HandKeepsInv(p, r.value, size);
      }
    }
  }

  // ------------------------------------------------------------------- the loop

  lemma SourceEventAnswers<T>(p: Pipe<T>, e: R.Event<T>)
    requires Inv(p) && !p.shutdown.Finalized? && R.SourceSide(e)
    ensures var q := p.(source := R.Step(p.source, e));
            if p.loop.Reading? then Answered(q) else Inv(q)
  {
    S.SourceStep(p.source, e, ReadId(p.loop));
    StageStays(p, p.(source := R.Step(p.source, e)));
    assert p.readBefore + Handed(p.handed) + [] == p.readBefore + Handed(p.handed);
  }

  lemma SourceEventKeepsInv<T>(p: Pipe<T>, e: R.Event<T>, size: SizeResult)
    requires Inv(p) && !p.shutdown.Finalized? && R.SourceSide(e)
    ensures Inv(Poll(p.(source := R.Step(p.source, e)), size))
  {
    SourceEventAnswers(p, e);
    PollKeepsInv(p.(source := R.Step(p.source, e)), size);
  }

  lemma StartReadAnswered<T>(p: Pipe<T>)
    requires Inv(p) && !p.shutdown.Finalized? && p.loop == AtReady(Fulfilled)
    ensures Answered(StartRead(p))
  {
    S.ReadAnswers(p.source);
    StageStays(p, StartRead(p));
    assert p.readBefore + Handed(p.handed) + [] == p.readBefore + Handed(p.handed);
  }

  lemma AwaitReadyKeepsInv<T>(p: Pipe<T>)
    requires Inv(p) && !p.shutdown.Finalized? && p.loop.Next?
    ensures Inv(p.(loop := AtReady(Ready(p.dest)))) && Inv(p.(loop := Ended))
  {
    D.ReadyMeansRoom(p.dest);
    if p.dest.writer.ready.Rejected? {
      D.ReadyMeansAlive(p.dest);
    }
    hide Stage, Given, WithRoom, D.Sound;
  }

  lemma TurnKeepsInv<T>(p: Pipe<T>, size: SizeResult)
    requires Inv(p) && !p.shutdown.Finalized?
    ensures Inv(Turn(p, size))
  {
    if p.loop.Next? {
      AwaitReadyKeepsInv(p);
    } else if p.loop == AtReady(Fulfilled) {
      StartReadAnswered(p);
      PollKeepsInv(StartRead(p), size);
    }
  }

  lemma WithDestKeepsInv<T>(p: Pipe<T>, d: W.Stream<T>)
    requires Inv(p) && !p.shutdown.Finalized?
    requires D.Sound(d) && D.Settles(p.dest, d) && D.Moves(p.dest, d)
    ensures Inv(WithDest(p, d))
    ensures WithDest(p, d) == p.(dest := d, loop := WithDest(p, d).loop)
    ensures ReadId(WithDest(p, d).loop) == ReadId(p.loop)
  {
    D.ReadyMeansRoom(d);
    if d.writer.ready.Rejected? {
      D.ReadyMeansAlive(d);
    }
    StageStays(p, WithDest(p, d));
    RepliesStay(p, WithDest(p, d));
  }

  lemma DestEventKeepsInv<T>(p: Pipe<T>, d: W.Event<T>)
    requires Inv(p) && !p.shutdown.Finalized? && DestSide(d)
    ensures Inv(WithDest(p, W.Step(p.dest, d)))
  {
    D.DestStepSettles(p.dest, d);
    WithDestKeepsInv(p, W.Step(p.dest, d));
  }

  // --------------------------------------------------------------- the shutdown

  lemma FinalizeKeepsInv<T>(p: Pipe<T>, error: Option<Reason>)
    requires Inv(p) && !p.shutdown.Finalized? && (error.None? ==> p.source.state.Closed?)
    ensures Inv(Finalize(p, error))
  {}

  /** The pipe is where its action may run. */
  predicate Acts<T>(p: Pipe<T>) {
    p.shutdown.Running? || p.shutdown.WriteDone?
  }

  lemma CloseKeepsInv<T>(p: Pipe<T>)
    requires Inv(p) && Acts(p) && Justified(p, CloseDest, None)
    ensures Inv(Act(p, CloseDest, None))
  {
    D.CloseAccepts(p.dest);
    var d := CloseWithErrorPropagation(p.dest).0;
    D.ReadyMeansRoom(d);
    if d.writer.ready.Rejected? {
      D.ReadyMeansAlive(d);
    }
  }

  lemma CancelKeepsInv<T>(p: Pipe<T>, action: Action, error: Option<Reason>)
    requires Inv(p) && Acts(p) && Justified(p, action, error)
    requires action.CancelSource? || (action.AbortBoth? && (p.options.preventAbort || !p.dest.state.Writable?))
    ensures Inv(Poll(p.(source := R.Cancel(p.source), shutdown := Acting(action, error, W.Resolved)), Size(0)))
  {
    S.CancelAnswers(p.source, ReadId(p.loop));
    var q := p.(source := R.Cancel(p.source), shutdown := Acting(action, error, W.Resolved));
    assert Inv(q.(loop := if p.loop.Reading? then Ended else p.loop));
    PollKeepsInv(q, Size(0));
  }

  lemma AbortKeepsInv<T>(p: Pipe<T>, reason: Reason)
    requires Inv(p) && Acts(p) && Justified(p, AbortDest(reason), Some(reason))
    ensures Inv(Act(p, AbortDest(reason), Some(reason)))
  {
    D.AbortSettlesAll(p.dest, reason);
    WithDestKeepsInv(p, W.Abort(p.dest, reason).0);
  }

  lemma ActKeepsInv<T>(p: Pipe<T>, action: Action, error: Option<Reason>)
    requires Inv(p) && Acts(p) && Justified(p, action, error)
    ensures Inv(Act(p, action, error))
  {
    match action
    case NoAction => FinalizeKeepsInv(p, error);
    case AbortDest(reason) => AbortKeepsInv(p, reason);
    case CancelSource => CancelKeepsInv(p, action, error);
    case CloseDest => CloseKeepsInv(p);
    case AbortBoth(reason) => AbortBothKeepsInv(p, reason);
  }

  lemma AbortWritableKeepsInv<T>(p: Pipe<T>, reason: Reason)
    requires Inv(p) && !p.shutdown.Finalized?
    ensures var q := AbortWritable(p, reason);
            && Inv(q) && q.options == p.options && q.shutdown == p.shutdown
            && (q.options.preventAbort || !q.dest.state.Writable?)
  {
    D.AbortSettlesAll(p.dest, reason);
    if !p.options.preventAbort && p.dest.state.Writable? {
      WithDestKeepsInv(p, W.Abort(p.dest, reason).0);
    }
  }

  lemma AbortBothKeepsInv<T>(p: Pipe<T>, reason: Reason)
    requires Inv(p) && Acts(p)
    ensures Inv(Act(p, AbortBoth(reason), Some(reason)))
  {
    AbortWritableKeepsInv(p, reason);
    var q := AbortWritable(p, reason);
    if p.options.preventCancel {
      PollUnanswered(q.(shutdown := Acting(AbortBoth(reason), Some(reason), W.Resolved)));
    } else {
      CancelKeepsInv(q, AbortBoth(reason), Some(reason));
    }
  }

  lemma PollUnanswered<T>(p: Pipe<T>)
    requires Inv(p) && !p.shutdown.Finalized?
    ensures Inv(Poll(p, Size(0)))
  {}

  lemma BeginShutdownKeepsInv<T>(p: Pipe<T>, action: Action, error: Option<Reason>)
    requires Inv(p) && Justified(p, action, error)
    ensures Inv(BeginShutdown(p, action, error))
  {
    if p.shutdown.Running? && !Accepting(p.dest) {
      ActKeepsInv(p, action, error);
    }
  }

  lemma ConcludeKeepsInv<T>(p: Pipe<T>, r: Settlement)
    requires Inv(p)
    ensures Inv(Conclude(p, r))
  {
    match p.shutdown
    case WriteDone(action, error, failed) =>
      if failed.None? { ActKeepsInv(p, action, error); } else { FinalizeKeepsInv(p, failed); }
    case Acting(_, error, _) => FinalizeKeepsInv(p, if r.Ok? then error else Some(r.error));
    case Running =>
    case AwaitingWrite(_, _, _) =>
    case Finalized(_) =>
  }

  // ------------------------------------------------------------------------ runs

  /** A finalized pipe hands over nothing more. */
  lemma FinalizedKeepsInv<T>(p: Pipe<T>, e: Event<T>)
    requires Inv(p) && p.shutdown.Finalized?
    ensures Inv(Step(p, e)) && Step(p, e).shutdown.Finalized?
  {
    match e {
      case SourceEvent(e, size) =>
        if R.SourceSide(e) {
          ClosedStays(p.source, e);
          hide R.Step;
        }
      case _ =>
        hide R.Step, W.Step;
    }
  }

  lemma ClosedStays<T>(s: R.Stream<T>, e: R.Event<T>)
    requires R.SourceSide(e)
    ensures s.state.Closed? ==> R.Step(s, e).state.Closed?
  {}

  lemma LiveStepKeepsInv<T>(p: Pipe<T>, e: Event<T>)
    requires Inv(p) && !p.shutdown.Finalized?
    ensures Inv(Step(p, e))
  {
    hide Taking, Room, Given, Replies, Stage, R.Step, W.Step, Poll, Turn, Act;
    match e
    case SourceEvent(e, size) => if R.SourceSide(e) { SourceEventKeepsInv(p, e, size); }
    case DestEvent(d) => if DestSide(d) { DestEventKeepsInv(p, d); }
    case LoopTurn(size) => TurnKeepsInv(p, size);
    case SourceErrorSeen => SourceErroredKeepsInv(p);
    case DestErrorSeen => DestErroredKeepsInv(p);
    case SourceCloseSeen => SourceClosedKeepsInv(p);
    case SignalAborts(reason) => BeginShutdownKeepsInv(p, AbortBoth(reason), Some(reason));
    case WriteSettlementSeen => CheckWriteKeepsInv(p);
    case WaitOver(r) => ConcludeKeepsInv(p, r);
  }

  lemma WaitStageKeepsInv<T>(p: Pipe<T>, q: Pipe<T>)
    requires Inv(p) && p.shutdown.AwaitingWrite? && q == p.(shutdown := q.shutdown)
    requires q.shutdown.AwaitingWrite? || q.shutdown.WriteDone?
    requires q.shutdown.AwaitingWrite? ==> q.shutdown.write == p.shutdown.write || q.shutdown.write == p.currentWrite
    requires q.shutdown.action == p.shutdown.action && q.shutdown.error == p.shutdown.error
    ensures Inv(q)
  {}

  lemma CheckWriteKeepsInv<T>(p: Pipe<T>)
    requires Inv(p)
    ensures Inv(CheckWrite(p))
  {
    if p.shutdown.AwaitingWrite? {
      WaitStageKeepsInv(p, CheckWrite(p));
    }
  }

  lemma StepKeepsInv<T>(p: Pipe<T>, e: Event<T>)
    requires Inv(p)
    ensures Inv(Step(p, e))
  {
    if p.shutdown.Finalized? {
      FinalizedKeepsInv(p, e);
    } else {
      LiveStepKeepsInv(p, e);
    }
  }

  lemma SourceErroredKeepsInv<T>(p: Pipe<T>)
    requires Inv(p)
    ensures Inv(SourceErrored(p))
  {
    if p.source.state.Errored? {
      BeginShutdownKeepsInv(p, if p.options.preventAbort then NoAction else AbortDest(p.source.error),
                            Some(p.source.error));
    }
  }

  lemma DestErroredKeepsInv<T>(p: Pipe<T>)
    requires Inv(p)
    ensures Inv(DestErrored(p))
  {
    if p.dest.state.Errored? {
      BeginShutdownKeepsInv(p, if p.options.preventCancel then NoAction else CancelSource, Some(p.dest.storedError));
    }
  }

  lemma SourceClosedKeepsInv<T>(p: Pipe<T>)
    requires Inv(p)
    ensures Inv(SourceClosed(p))
  {
    if p.source.state.Closed? {
      BeginShutdownKeepsInv(p, if p.options.preventClose then NoAction else CloseDest, None);
    }
  }

  lemma DestClosedKeepsInv<T>(p: Pipe<T>)
    requires Inv(p)
    ensures Inv(DestClosed(p))
  {
    if W.CloseQueuedOrInFlight(p.dest) || p.dest.state.Closed? {
      BeginShutdownKeepsInv(p, if p.options.preventCancel then NoAction else CancelSource, Some(InvalidState));
    }
  }

  /** The two streams pipeTo() is called on: unlocked, in any state they can reach. */
  ghost predicate Joins<T>(source: R.Stream<T>, dest: W.Stream<T>) {
    RP.Inv(source) && WP.Inv(dest) && WT.CloseMeans(dest) && WR.Told(dest) && !source.locked && dest.writer.NoWriter?
  }

  lemma JoinInv<T>(source: R.Stream<T>, dest: W.Stream<T>, options: Options)
    requires Joins(source, dest)
    ensures Inv(Join(source, dest, options, RP.Chunks(source.answers)))
  {
    var p := Join(source, dest, options, RP.Chunks(source.answers));
    RP.StepKeepsInv(source, R.AcquireCall);
    WP.GetWriterKeepsInv(dest);
    WR.StepTold(dest, W.GetWriterCall);
    S.SoundMeans(p.source);
    D.SoundMeans(p.dest);
  }

  lemma LaunchKeepsInv<T>(p: Pipe<T>, signal: Option<Reason>)
    requires Inv(p) && p.loop.Next? && p.shutdown.Running?
    ensures Inv(Launch(p, signal))
  {
    match signal
    case Some(reason) => BeginShutdownKeepsInv(p.(loop := Ended), AbortBoth(reason), Some(reason));
    case None =>
      var q := Turn(p, Size(0));
      TurnKeepsInv(p, Size(0));
      SourceErroredKeepsInv(q);
      DestErroredKeepsInv(SourceErrored(q));
      SourceClosedKeepsInv(DestErrored(SourceErrored(q)));
      DestClosedKeepsInv(SourceClosed(DestErrored(SourceErrored(q))));
  }

  lemma {:induction false} RunKeepsInv<T>(p: Pipe<T>, events: seq<Event<T>>)
    requires Inv(p)
    ensures Inv(Run(p, events))
    decreases |events|
  {
    if events != [] {
      RunKeepsInv(p, events[..|events| - 1]);
      StepKeepsInv(Run(p, events[..|events| - 1]), events[|events| - 1]);
    }
  }
}
