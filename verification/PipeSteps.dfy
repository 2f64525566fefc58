/** How a pipe shuts down, step by step: what it waits for, what its action does to the two
    streams, and what its promise is settled with. */
module PipeSteps {
  import opened Base
  import opened PipeSpec
  import opened PipeProofs
  import opened PipeTheorems
  import R = ReadableSpec
  import W = WritableSpec
  import S = LockedSource
  import D = PipeDest
  import RP = ReadableProofs
  import RS = ReadableSteps
  import WS = WritableSteps
  import WP = WritableProofs
  import WT = WritableTheorems

  // ------------------------------------------------------ what the promise is settled with

  /** The step sees that one of the streams has ended, so. */
  ghost predicate Ends<T>(p: Pipe<T>, e: Event<T>, error: Option<Reason>) {
    match e
    case SourceErrorSeen => p.source.state.Errored? && error == Some(p.source.error)
    case DestErrorSeen => p.dest.state.Errored? && error == Some(p.dest.storedError)
    case SourceCloseSeen => p.source.state.Closed? && error.None?
    case _ => false
  }

  /** The step from `p` by `e` settles the pipe's promise: with what the action failed with; if
      it went well, with what called for it; with the reason of a write that failed first; or,
      without an action, with the error that ends the pipe. */
  ghost predicate Explains<T>(p: Pipe<T>, e: Event<T>, error: Option<Reason>) {
    match p.shutdown
    case Acting(action, cause, _) =>
      && e.WaitOver? && CanEnd(p, e.r)
      && (if e.r.Failed? then error == Some(e.r.error)
          else match action
            case CloseDest => error.None? && p.source.state.Closed?
            case AbortDest(_) => p.source.state.Errored? && error == Some(p.source.error)
            case CancelSource => error.Some? && error == cause && DestFailed(p, error.value)
            case AbortBoth(reason) => error == Some(reason)
            case NoAction => false)
    case WriteDone(action, cause, failed) =>
      && e.WaitOver?
      && (if failed.Some? then error == failed
          else action.NoAction? && error == cause && Justified(p, NoAction, error))
    case Running => !Accepting(p.dest) && Justified(p, NoAction, error) && Ends(p, e, error)
    case AwaitingWrite(_, _, _) => false
    case Finalized(_) => false
  }

  /** Both streams are free again. */
  predicate Frees<T>(p: Pipe<T>) {
    !p.source.locked && p.dest.writer.NoWriter?
  }

  lemma FinalizedFrees<T>(p: Pipe<T>, e: Event<T>)
    requires !p.shutdown.Finalized? && Step(p, e).shutdown.Finalized?
    ensures Frees(Step(p, e))
  {
    hide W.Write, W.Abort, W.Step, R.Step, R.Cancel, R.Read, CloseWithErrorPropagation;
  }

  lemma ExplainsFromInv<T>(p: Pipe<T>, e: Event<T>)
    requires Inv(p) && !p.shutdown.Finalized? && Step(p, e).shutdown.Finalized?
    ensures Explains(p, e, Step(p, e).shutdown.error)
  {
    hide Taking, Room, Given, Replies, W.Write, W.Abort, W.Step, R.Step, R.Cancel, R.Read, CloseWithErrorPropagation;
  }

  lemma SettlesWith<T(!new)>(p: Pipe<T>, e: Event<T>)
    requires Piped(p) && !p.shutdown.Finalized? && Step(p, e).shutdown.Finalized?
    ensures Explains(p, e, Step(p, e).shutdown.error) && Frees(Step(p, e))
  {
    PipedInv(p);
    ExplainsFromInv(p, e);
    FinalizedFrees(p, e);
  }

  /** Whatever happens to the two streams later does not change it. */
  lemma StaysSettled<T>(p: Pipe<T>, e: Event<T>)
    requires p.shutdown.Finalized?
    ensures Step(p, e).shutdown == p.shutdown
  {
    hide W.Write, W.Abort, W.Step, R.Step, R.Cancel, R.Read, CloseWithErrorPropagation;
  }

  // --------------------------------------------------------------- the wait for the writes

  /** While the destination accepts writes a shutdown first waits for the last write; for as
      long as that is pending nothing happens.  The wait ends well only once the sink is done
      with every chunk it was handed. */
  ghost predicate Waits<T>(p: Pipe<T>, q: Pipe<T>)
    requires p.shutdown.AwaitingWrite?
  {
    && q == p.(shutdown := q.shutdown)
    && match q.shutdown
       case AwaitingWrite(action, error, _) => action == p.shutdown.action && error == p.shutdown.error
       case WriteDone(action, error, failed) =>
         && action == p.shutdown.action && error == p.shutdown.error
         && (if failed.Some? then ReplyOutcome(p.dest.writes, p.shutdown.write) == Rejected(failed.value)
             else p.handed == [] || (WT.AllSettled(p.dest.writes) && |p.dest.results| == |p.dest.accepted|))
       case Running => false
       case Acting(_, _, _) => false
       case Finalized(_) => false
  }

  lemma WaitsFromInv<T>(p: Pipe<T>)
    requires Inv(p) && p.shutdown.AwaitingWrite?
    ensures Waits(p, Step(p, WriteSettlementSeen))
    ensures Step(p, WriteSettlementSeen).shutdown.WriteDone? <==>
              match ReplyOutcome(p.dest.writes, p.shutdown.write)
              case Pending => false
              case Rejected(_) => true
              case Fulfilled => p.shutdown.write == p.currentWrite
  {
    D.SoundMeans(p.dest);
    assert Current(p) && WT.InRange(p.dest.writes, p.currentWrite);
    WritesDone(p.dest, p.currentWrite);
    hide Inv, D.Sound, WT.CloseMeans;
  }

  lemma WritesDone<T>(d: W.Stream<T>, reply: W.Reply)
    requires WP.Inv(d) && reply.Request? ==> reply.id + 1 == |d.accepted|
    ensures WP.Inv(d) && reply.Request? && ReplyOutcome(d.writes, reply) == Fulfilled ==>
              WT.AllSettled(d.writes) && |d.results| == |d.accepted|
  {}

  lemma WaitsForTheWrites<T(!new)>(p: Pipe<T>)
    requires Piped(p) && p.shutdown.AwaitingWrite?
    ensures Waits(p, Step(p, WriteSettlementSeen))
    ensures Step(p, WriteSettlementSeen).shutdown.WriteDone? <==>
              match ReplyOutcome(p.dest.writes, p.shutdown.write)
              case Pending => false
              case Rejected(_) => true
              case Fulfilled => p.shutdown.write == p.currentWrite
  {
    PipedInv(p);
    WaitsFromInv(p);
  }

  // --------------------------------------------------------------------- the action

  /** What an action does when it starts: each stream is aborted, closed or cancelled as its own
      steps say, and the promise the pipe goes on to wait for is the one that call returned. */
  ghost predicate Starts<T>(p: Pipe<T>, q: Pipe<T>, action: Action, returned: W.Reply) {
    match action
    case NoAction => false
    case AbortDest(reason) =>
      q.source == p.source && WS.AbortReplied(p.dest, reason, q.dest, returned)
      && WS.Follows(p.dest, W.AbortCall(reason), q.dest)
    case CancelSource => q.dest == p.dest && returned.Resolved? && RS.Follows(p.source, R.CancelCall, q.source)
    case CloseDest =>
      && q.source == p.source
      && (if W.CloseQueuedOrInFlight(p.dest) || p.dest.state.Closed? then q.dest == p.dest && returned.Resolved?
          else if p.dest.state.Errored? then q.dest == p.dest && returned == W.RejectedWith(p.dest.storedError)
          else WS.CloseReplied(p.dest, q.dest, returned) && WS.Follows(p.dest, W.CloseCall, q.dest))
    case AbortBoth(reason) =>
      && returned.Resolved?
      && (if p.options.preventAbort || !p.dest.state.Writable? then q.dest == p.dest
          else WS.Follows(p.dest, W.AbortCall(reason), q.dest))
      && (if p.options.preventCancel then q.source == p.source
          else RS.Follows(p.source, R.CancelCall, q.source))
  }

  lemma SourceInv<T>(p: Pipe<T>)
    requires Inv(p) && !p.shutdown.Finalized?
    ensures RP.Inv(p.source) && WP.Inv(p.dest)
    ensures !p.loop.Reading? || (p.loop.id < |p.source.answers| && p.source.answers[p.loop.id].Waiting?)
  {
    S.SoundMeans(p.source);
    D.SoundMeans(p.dest);
  }

  /** What polling the pending read does after a cancel: nothing was read. */
  lemma CancelPolls<T>(p: Pipe<T>, q: Pipe<T>)
    requires RP.Inv(p.source) && q.source == R.Cancel(p.source) && q.loop == p.loop
    requires p.loop.Reading? ==> p.loop.id < |p.source.answers| && p.source.answers[p.loop.id].Waiting?
    ensures Poll(q, Size(0)) == q.(loop := Poll(q, Size(0)).loop)
    ensures RS.Follows(p.source, R.CancelCall, q.source)
  {
    RS.CancelFollows(p.source);
    hide R.Cancel, RP.Inv;
  }

  lemma AbortStarts<T>(p: Pipe<T>, reason: Reason, error: Option<Reason>)
    requires WP.Inv(p.dest)
    ensures var q := Act(p, AbortDest(reason), error);
            q.shutdown.Acting? && Starts(p, q, AbortDest(reason), q.shutdown.returned)
  {
    WS.AbortReplies(p.dest, reason);
    WS.AbortFollows(p.dest, reason);
    hide W.Abort, WS.AbortReplied, WS.Follows, WP.Inv;
  }

  lemma CloseStarts<T>(p: Pipe<T>, error: Option<Reason>)
    requires WP.Inv(p.dest)
    ensures var q := Act(p, CloseDest, error);
            q.shutdown.Acting? && Starts(p, q, CloseDest, q.shutdown.returned)
  {
    WS.CloseReplies(p.dest);
    WS.CloseFollows(p.dest);
    hide W.Close, WS.CloseReplied, WS.Follows, WP.Inv;
  }

  lemma CancelStarts<T>(p: Pipe<T>, error: Option<Reason>)
    requires RP.Inv(p.source)
    requires p.loop.Reading? ==> p.loop.id < |p.source.answers| && p.source.answers[p.loop.id].Waiting?
    ensures var q := Act(p, CancelSource, error);
            q.shutdown.Acting? && Starts(p, q, CancelSource, q.shutdown.returned)
  {
    CancelPolls(p, p.(source := R.Cancel(p.source), shutdown := Acting(CancelSource, error, W.Resolved)));
    hide R.Cancel, RS.Follows, RP.Inv, Poll;
  }

  lemma AbortBothStarts<T>(p: Pipe<T>, reason: Reason, error: Option<Reason>)
    requires RP.Inv(p.source) && WP.Inv(p.dest)
    requires p.loop.Reading? ==> p.loop.id < |p.source.answers| && p.source.answers[p.loop.id].Waiting?
    ensures var q := Act(p, AbortBoth(reason), error);
            q.shutdown.Acting? && Starts(p, q, AbortBoth(reason), q.shutdown.returned)
  {
    hide R.Cancel, W.Abort, RS.Follows, WS.Follows, RP.Inv, WP.Inv, Poll, AbortWritable;
    AbortIfAllowed(p, reason);
    var u := AbortWritable(p, reason);
    var q := CancelIfAllowed(u).(shutdown := Acting(AbortBoth(reason), error, W.Resolved));
    if p.options.preventCancel {
      WaitingPolls(q);
    } else {
      CancelPolls(u, q);
    }
  }

  /** The abort, where it is allowed, and nothing else but that `ready` may settle. */
  lemma AbortIfAllowed<T>(p: Pipe<T>, reason: Reason)
    requires WP.Inv(p.dest)
    ensures var u := AbortWritable(p, reason);
            && u == p.(dest := u.dest, loop := u.loop) && (p.loop.Reading? || u.loop.Reading? ==> u.loop == p.loop)
            && (if p.options.preventAbort || !p.dest.state.Writable? then u.dest == p.dest
                else WS.Follows(p.dest, W.AbortCall(reason), u.dest))
  {
    hide W.Abort, WS.Follows, WP.Inv;
    WS.AbortFollows(p.dest, reason);
  }

  lemma WaitingPolls<T>(p: Pipe<T>)
    requires p.loop.Reading? ==> p.loop.id < |p.source.answers| && p.source.answers[p.loop.id].Waiting?
    ensures Poll(p, Size(0)) == p
  {}

  lemma ActStarts<T>(p: Pipe<T>, action: Action, error: Option<Reason>)
    requires Inv(p) && !p.shutdown.Finalized? && !action.NoAction?
    ensures var q := Act(p, action, error);
            q.shutdown.Acting? && Starts(p, q, action, q.shutdown.returned)
  {
    hide Inv, Act, Starts, RP.Inv, WP.Inv;
    SourceInv(p);
    match action {
      case AbortDest(reason) => AbortStarts(p, reason, error);
      case CancelSource => CancelStarts(p, error);
      case CloseDest => CloseStarts(p, error);
      case AbortBoth(reason) => AbortBothStarts(p, reason, error);
    }
  }

  // ------------------------------------------------------------------- a running pipe

  /** What ends a pipe: the action it calls for, and what its promise is then to hold. */
  datatype Ending = GoesOn | Shuts(action: Action, error: Option<Reason>)

  function Demands<T>(p: Pipe<T>, e: Event<T>): Ending {
    if e.SourceErrorSeen? && p.source.state.Errored? then
      Shuts(if p.options.preventAbort then NoAction else AbortDest(p.source.error), Some(p.source.error))
    else if e.DestErrorSeen? && p.dest.state.Errored? then
      Shuts(if p.options.preventCancel then NoAction else CancelSource, Some(p.dest.storedError))
    else if e.SourceCloseSeen? && p.source.state.Closed? then
      Shuts(if p.options.preventClose then NoAction else CloseDest, None)
    else if e.SignalAborts? then Shuts(AbortBoth(e.reason), Some(e.reason))
    else GoesOn
  }

  /** A shutdown begins: after the last write if the destination accepts writes, else at once. */
  ghost predicate ShutsDown<T>(p: Pipe<T>, ending: Ending, q: Pipe<T>)
    requires ending.Shuts?
  {
    if Accepting(p.dest) then q == p.(shutdown := AwaitingWrite(ending.action, ending.error, p.currentWrite))
    else if ending.action.NoAction? then q.shutdown == Finalized(ending.error) && Frees(q)
    else
      && q.shutdown.Acting? && q.shutdown.action == ending.action && q.shutdown.error == ending.error
      && Starts(p, q, ending.action, q.shutdown.returned)
  }

  lemma BeginsShutdown<T>(p: Pipe<T>, ending: Ending)
    requires Inv(p) && p.shutdown.Running? && ending.Shuts?
    ensures var q := BeginShutdown(p, ending.action, ending.error);
            ShutsDown(p, ending, q) && !q.shutdown.Running?
  {
    if !ending.action.NoAction? {
      ActStarts(p, ending.action, ending.error);
      ActKeeps(p, ending.action, ending.error);
    }
    hide Inv, Starts, W.Write, W.Abort, W.Step, R.Step, R.Cancel, R.Read, CloseWithErrorPropagation;
  }

  lemma ActKeeps<T>(p: Pipe<T>, action: Action, error: Option<Reason>)
    requires !action.NoAction? && !p.shutdown.Finalized?
    ensures var q := Act(p, action, error);
            q.shutdown.Acting? ==> q.shutdown.action == action && q.shutdown.error == error
  {
    hide W.Write, W.Abort, R.Cancel, CloseWithErrorPropagation;
  }

  /** The first end that is seen shuts the pipe down; nothing else stops it, and nothing starts
      another shutdown. */
  ghost predicate ShutsOnce<T>(p: Pipe<T>, e: Event<T>, q: Pipe<T>) {
    if Demands(p, e).GoesOn? then q.shutdown.Running? else ShutsDown(p, Demands(p, e), q)
  }

  lemma RunningShuts<T(!new)>(p: Pipe<T>, e: Event<T>)
    requires Piped(p) && p.shutdown.Running?
    ensures ShutsOnce(p, e, Step(p, e))
  {
    PipedInv(p);
    ShutsFromInv(p, e);
  }

  lemma ShutsFromInv<T>(p: Pipe<T>, e: Event<T>)
    requires Inv(p) && p.shutdown.Running?
    ensures ShutsOnce(p, e, Step(p, e))
  {
    var ending := Demands(p, e);
    if ending.Shuts? {
      BeginsShutdown(p, ending);
      hide ShutsDown, BeginShutdown;
    }
    hide Inv, ShutsDown, W.Write, W.Abort, W.Step, R.Step, R.Cancel, R.Read;
  }

  // ------------------------------------------------------------------ the start

  /** The end a pipe finds as it starts: a failed side comes before a closed one, and the source
      before the destination. */
  function FindsEnd<T>(p: Pipe<T>): Ending {
    if p.source.state.Errored? then
      Shuts(if p.options.preventAbort then NoAction else AbortDest(p.source.error), Some(p.source.error))
    else if p.dest.state.Errored? then
      Shuts(if p.options.preventCancel then NoAction else CancelSource, Some(p.dest.storedError))
    else if p.source.state.Closed? then Shuts(if p.options.preventClose then NoAction else CloseDest, None)
    else if W.CloseQueuedOrInFlight(p.dest) || p.dest.state.Closed? then
      Shuts(if p.options.preventCancel then NoAction else CancelSource, Some(InvalidState))
    else GoesOn
  }

  /** A signal that has fired, or the first end there is, shuts the pipe down as it starts. */
  lemma LaunchShuts<T>(source: R.Stream<T>, dest: W.Stream<T>, options: Options, signal: Option<Reason>)
    requires Joins(source, dest)
    ensures var p := Join(source, dest, options, RP.Chunks(source.answers));
            var start := p.(loop := if signal.Some? then Ended else AtReady(Ready(p.dest)));
            var ending := if signal.Some? then Shuts(AbortBoth(signal.value), signal) else FindsEnd(start);
            if ending.GoesOn? then Launch(p, signal) == start else ShutsDown(start, ending, Launch(p, signal))
  {
    var p := Join(source, dest, options, RP.Chunks(source.answers));
    JoinInv(source, dest, options);
    hide ShutsDown, BeginShutdown, Inv, Ready;
    var start := p.(loop := if signal.Some? then Ended else AtReady(Ready(p.dest)));
    StartsWell(p, start);
    var ending := if signal.Some? then Shuts(AbortBoth(signal.value), signal) else FindsEnd(start);
    if ending.Shuts? {
      BeginsShutdown(start, ending);
      EndedStays(BeginShutdown(start, ending.action, ending.error));
    }
  }

  lemma StartsWell<T>(p: Pipe<T>, start: Pipe<T>)
    requires Inv(p) && p.loop.Next? && p.shutdown.Running?
    requires start == p.(loop := Ended) || start == p.(loop := AtReady(Ready(p.dest)))
    ensures Inv(start)
  {
    if !start.loop.Ended? {
      TurnKeepsInv(p, Size(0));
    }
  }

  /** No second shutdown begins. */
  lemma EndedStays<T>(p: Pipe<T>)
    requires !p.shutdown.Running?
    ensures SourceErrored(p) == DestErrored(p) == SourceClosed(p) == DestClosed(p) == p
  {}

  /** Once the writes are done the action runs, if none of them failed. */
  lemma ActsAfterTheWrites<T(!new)>(p: Pipe<T>, r: Settlement)
    requires Piped(p) && p.shutdown.WriteDone? && p.shutdown.failed.None? && !p.shutdown.action.NoAction?
    ensures var q := Step(p, WaitOver(r));
            && q.shutdown.Acting? && q.shutdown.action == p.shutdown.action && q.shutdown.error == p.shutdown.error
            && Starts(p, q, p.shutdown.action, q.shutdown.returned)
  {
    PipedInv(p);
    ConcludesWith(p, r);
  }

  lemma ConcludesWith<T>(p: Pipe<T>, r: Settlement)
    requires Inv(p) && p.shutdown.WriteDone? && p.shutdown.failed.None? && !p.shutdown.action.NoAction?
    ensures var q := Step(p, WaitOver(r));
            && q.shutdown.Acting? && q.shutdown.action == p.shutdown.action && q.shutdown.error == p.shutdown.error
            && Starts(p, q, p.shutdown.action, q.shutdown.returned)
  {
    hide Inv, Starts, Act;
    assert Step(p, WaitOver(r)) == Act(p, p.shutdown.action, p.shutdown.error);
    ActStarts(p, p.shutdown.action, p.shutdown.error);
    ActKeeps(p, p.shutdown.action, p.shutdown.error);
  }

  // ---------------------------------------------------------------------- the loop

  /** The loop stops only when the pipe shuts down or a stream has ended; until then it awaits
      `ready`, and each time that is fulfilled it reads once. */
  ghost predicate LoopFollows<T>(p: Pipe<T>, e: Event<T>, q: Pipe<T>) {
    && (q.loop.Ended? ==>
          p.loop.Ended? || !p.shutdown.Running? || !q.shutdown.Running? || !q.source.state.Readable?
          || !q.dest.state.Writable?)
    && (e.LoopTurn? && p.shutdown.Running? && p.loop.Next? ==> q.loop.AtReady?)
    && (e.LoopTurn? && p.loop == AtReady(Fulfilled) ==> RS.Follows(p.source, R.ReadCall, q.source))
  }

  lemma LoopTurns<T(!new)>(p: Pipe<T>, e: Event<T>)
    requires Piped(p) && !p.shutdown.Finalized?
    ensures LoopFollows(p, e, Step(p, e))
  {
    PipedInv(p);
    LoopFromInv(p, e);
  }

  lemma LoopFromInv<T>(p: Pipe<T>, e: Event<T>)
    requires Inv(p) && !p.shutdown.Finalized?
    ensures LoopFollows(p, e, Step(p, e))
  {
    SourceInv(p);
    hide Taking, Given, Replies, RP.Inv, WP.Inv, W.Write, W.Abort, W.Step, R.Step, R.Cancel, R.Read,
         CloseWithErrorPropagation, Turn, Poll;
    match e {
      case LoopTurn(size) => TurnFollows(p, size);
      case SourceEvent(f, size) =>
        if R.SourceSide(f) {
          PollFollows(p, f, size);
        }
      case _ => EndingFollows(p, e);
    }
  }

  lemma EndingFollows<T>(p: Pipe<T>, e: Event<T>)
    requires !p.shutdown.Finalized? && !e.LoopTurn? && !e.SourceEvent?
    ensures LoopFollows(p, e, Step(p, e))
  {
    hide W.Write, W.Abort, W.Step, R.Step, R.Cancel, R.Read, CloseWithErrorPropagation;
  }

  lemma PollFollows<T>(p: Pipe<T>, e: R.Event<T>, size: SizeResult)
    requires RP.Inv(p.source) && R.SourceSide(e)
    requires p.loop.Reading? ==> p.loop.id < |p.source.answers| && p.source.answers[p.loop.id].Waiting?
    requires !p.shutdown.Finalized?
    ensures LoopFollows(p, SourceEvent(e, size), Poll(p.(source := R.Step(p.source, e)), size))
  {
    RS.StepFollows(p.source, e);
    assert p.loop.Reading? ==> p.source.state.Readable?;
    hide RP.Inv, R.Step, W.Write;
  }

  lemma TurnFollows<T>(p: Pipe<T>, size: SizeResult)
    requires RP.Inv(p.source) && p.source.locked && !p.shutdown.Finalized?
    requires p.loop.AtReady? && p.loop.ready.Rejected? ==> !p.dest.state.Writable?
    ensures LoopFollows(p, LoopTurn(size), Turn(p, size))
  {
    RS.ReadFollows(p.source);
    hide RP.Inv, R.Read, W.Write;
  }
}
