/** pipeTo(): a loop that, whenever the destination says it is `ready`, reads one chunk and hands
    it over without awaiting the write, and the shutdown that an error, a close or an abort
    signal on either side starts.  The state is the two streams
    and the pipe's own variables. */
module PipeSpec {
  import opened Base
  import R = ReadableSpec
  import W = WritableSpec

  /** Where the loop is: about to start a step, at `await ready` on the promise it picked up,
      at a pending read, or finished. */
  datatype Loop = Next | AtReady(ready: Outcome) | Reading(id: nat) | Ended

  datatype Action = NoAction | AbortDest(reason: Reason) | CancelSource | CloseDest | AbortBoth(reason: Reason)

  /** A shutdown waits for the current write (and for a later one that took its place), then
      runs its action unless the write failed, waits for what the action returned, and
      finalizes.  `error` is what the pipe's promise is to be rejected with, None if it is to
      be fulfilled. */
  datatype Shutdown =
    | Running
    | AwaitingWrite(action: Action, error: Option<Reason>, write: W.Reply)
    | WriteDone(action: Action, error: Option<Reason>, failed: Option<Reason>)
    | Acting(action: Action, error: Option<Reason>, returned: W.Reply)
    | Finalized(error: Option<Reason>)

  /** A chunk handed to the destination, whether that was accepting writes then, and the room
      it had. */
  datatype HandOff<+T> = HandOff(chunk: T, accepting: bool, room: int)

  datatype Options = Options(preventClose: bool, preventAbort: bool, preventCancel: bool)

  datatype Pipe<T> = Pipe(
    source: R.Stream<T>,
    dest: W.Stream<T>,
    options: Options,
    loop: Loop,
    shutdown: Shutdown,
    currentWrite: W.Reply,
    // history: the hand-offs and the finalizations; what the source's readers had got and the
    // destination had accepted before the pipe, and whether it then still accepted writes
    handed: seq<HandOff<T>>,
    finalizations: nat,
    readBefore: seq<T>,
    acceptedBefore: seq<T>,
    openAtStart: bool)

  predicate Accepting<T>(d: W.Stream<T>) {
    d.state.Writable? && !W.CloseQueuedOrInFlight(d)
  }

  // ------------------------------------------------------------------ the loop

  /** The promise the loop awaits is the writer's `ready` of the time it started to: it settles
      as that does, and then stays. */
  function Track<T>(p: Pipe<T>): Pipe<T> {
    if p.loop.AtReady? && p.loop.ready.Pending? then p.(loop := AtReady(Ready(p.dest))) else p
  }

  function Ready<T>(d: W.Stream<T>): Outcome {
    if d.writer.Writer? then d.writer.ready else Rejected(Released)
  }

  /** After finalization the writer is no longer attached, and handing over throws. */
  function Hand<T>(p: Pipe<T>, chunk: T, size: SizeResult): Pipe<T> {
    if p.shutdown.Finalized? then p.(loop := Ended)
    else
      var (d, reply) := W.Write(p.dest, chunk, size);
      p.(dest := d, currentWrite := reply, loop := Next,
         handed := p.handed + [HandOff(chunk, Accepting(p.dest), W.DesiredSize(p.dest))])
  }

  /** The pending read's callbacks run as soon as it is answered; `size` is what the
      destination's strategy makes of the chunk. */
  function Poll<T>(p: Pipe<T>, size: SizeResult): Pipe<T> {
    if !p.loop.Reading? || p.loop.id >= |p.source.answers| then p
    else match p.source.answers[p.loop.id]
      case Waiting => p
      case Got(chunk) => Hand(p, chunk, size)
      case Done => p.(loop := Ended)
      case ReadFailed(_) => p.(loop := Ended)
  }

  function StartRead<T>(p: Pipe<T>): Pipe<T> {
    p.(source := R.Read(p.source), loop := Reading(|p.source.answers|))
  }

  /** The loop's next turn.  A read follows a fulfilled `ready` even if the pipe began to shut
      down while it waited. */
  function Turn<T>(p: Pipe<T>, size: SizeResult): Pipe<T> {
    match p.loop
    case Next => if p.shutdown.Running? then p.(loop := AtReady(Ready(p.dest))) else p.(loop := Ended)
    case AtReady(ready) =>
      (match ready
       case Pending => p
       case Fulfilled => Poll(StartRead(p), size)
       case Rejected(_) => p.(loop := Ended))
    case Reading(_) => p
    case Ended => p
  }

  // -------------------------------------------------------------- the shutdown

  function WithDest<T>(p: Pipe<T>, d: W.Stream<T>): Pipe<T> {
    Track(p.(dest := d))
  }

  function Finalize<T>(p: Pipe<T>, error: Option<Reason>): Pipe<T> {
    WithDest(p, W.ReleaseWriter(p.dest))
    .(source := p.source.(locked := false), shutdown := Finalized(error), finalizations := p.finalizations + 1)
  }

  function CloseWithErrorPropagation<T>(d: W.Stream<T>): (W.Stream<T>, W.Reply) {
    if W.CloseQueuedOrInFlight(d) || d.state.Closed? then (d, W.Resolved)
    else if d.state.Errored? then (d, W.RejectedWith(d.storedError))
    else W.Close(d)
  }

  function AbortWritable<T>(p: Pipe<T>, reason: Reason): Pipe<T> {
    if p.options.preventAbort || !p.dest.state.Writable? then p else WithDest(p, W.Abort(p.dest, reason).0)
  }

  function CancelIfAllowed<T>(p: Pipe<T>): Pipe<T> {
    if p.options.preventCancel then p else p.(source := R.Cancel(p.source))
  }

  /** The action runs; a pending read it answers has nothing to hand over. */
  function Act<T>(p: Pipe<T>, action: Action, error: Option<Reason>): Pipe<T> {
    match action
    case NoAction => Finalize(p, error)
    case AbortDest(reason) =>
      var (d, reply) := W.Abort(p.dest, reason);
      WithDest(p, d).(shutdown := Acting(action, error, reply))
    case CancelSource =>
      Poll(p.(source := R.Cancel(p.source), shutdown := Acting(action, error, W.Resolved)), Size(0))
    case CloseDest =>
      var (d, reply) := CloseWithErrorPropagation(p.dest);
      WithDest(p, d).(shutdown := Acting(action, error, reply))
    case AbortBoth(reason) =>
      Poll(CancelIfAllowed(AbortWritable(p, reason)).(shutdown := Acting(action, error, W.Resolved)), Size(0))
  }

  function BeginShutdown<T>(p: Pipe<T>, action: Action, error: Option<Reason>): Pipe<T> {
    if !p.shutdown.Running? then p
    else if Accepting(p.dest) then p.(shutdown := AwaitingWrite(action, error, p.currentWrite))
    else Act(p, action, error)
  }

  /** What a promise the destination returned holds. */
  function ReplyOutcome(promises: seq<Outcome>, reply: W.Reply): Outcome {
    match reply
    case Resolved => Fulfilled
    case RejectedWith(reason) => Rejected(reason)
    case Request(id) => if id < |promises| then promises[id] else Pending
  }

  /** The wait for the current write goes on with the write that took its place. */
  function CheckWrite<T>(p: Pipe<T>): Pipe<T> {
    if !p.shutdown.AwaitingWrite? then p
    else
      var (action, error) := (p.shutdown.action, p.shutdown.error);
      match ReplyOutcome(p.dest.writes, p.shutdown.write)
      case Pending => p
      case Rejected(reason) => p.(shutdown := WriteDone(action, error, Some(reason)))
      case Fulfilled =>
        if p.shutdown.write == p.currentWrite then p.(shutdown := WriteDone(action, error, None))
        else p.(shutdown := AwaitingWrite(action, error, p.currentWrite))
  }

  /** What the action returned can have settled so: a close or an abort of the destination as
      its promise did; how a cancel of the source ends is up to the source. */
  predicate CanEnd<T>(p: Pipe<T>, r: Settlement)
    requires p.shutdown.Acting?
  {
    var outcome := if r.Ok? then Fulfilled else Rejected(r.error);
    match p.shutdown.action
    case CloseDest => ReplyOutcome(p.dest.closes, p.shutdown.returned) == outcome
    case AbortDest(_) => ReplyOutcome(p.dest.aborts, p.shutdown.returned) == outcome
    case NoAction => true
    case CancelSource => true
    case AbortBoth(_) => true
  }

  /** The wait for the write is over, or that for the action, which ended with `r`. */
  function Conclude<T>(p: Pipe<T>, r: Settlement): Pipe<T> {
    match p.shutdown
    case WriteDone(action, error, failed) => if failed.None? then Act(p, action, error) else Finalize(p, failed)
    case Acting(_, error, _) => if CanEnd(p, r) then Finalize(p, if r.Ok? then error else Some(r.error)) else p
    case Running => p
    case AwaitingWrite(_, _, _) => p
    case Finalized(_) => p
  }

  function SourceErrored<T>(p: Pipe<T>): Pipe<T> {
    if !p.source.state.Errored? then p
    else BeginShutdown(p, if p.options.preventAbort then NoAction else AbortDest(p.source.error), Some(p.source.error))
  }

  function DestErrored<T>(p: Pipe<T>): Pipe<T> {
    if !p.dest.state.Errored? then p
    else BeginShutdown(p, if p.options.preventCancel then NoAction else CancelSource, Some(p.dest.storedError))
  }

  function SourceClosed<T>(p: Pipe<T>): Pipe<T> {
    if !p.source.state.Closed? then p
    else BeginShutdown(p, if p.options.preventClose then NoAction else CloseDest, None)
  }

  function DestClosed<T>(p: Pipe<T>): Pipe<T> {
    if !(W.CloseQueuedOrInFlight(p.dest) || p.dest.state.Closed?) then p
    else BeginShutdown(p, if p.options.preventCancel then NoAction else CancelSource, Some(InvalidState))
  }

  // ---------------------------------------------------------------------- runs

  function Join<T>(source: R.Stream<T>, dest: W.Stream<T>, options: Options, readBefore: seq<T>): Pipe<T> {
    Pipe(R.Acquire(source), W.GetWriter(dest), options, Next, Running, W.Resolved,
         [], 0, readBefore, dest.accepted, Accepting(dest))
  }

  /** The synchronous part: an aborted signal starts the shutdown and no loop. */
  function Launch<T>(p: Pipe<T>, signal: Option<Reason>): Pipe<T> {
    match signal
    case Some(reason) => BeginShutdown(p.(loop := Ended), AbortBoth(reason), Some(reason))
    case None => DestClosed(SourceClosed(DestErrored(SourceErrored(Turn(p, Size(0))))))
  }

  datatype Event<T> =
    | SourceEvent(e: R.Event<T>, size: SizeResult)
    | DestEvent(d: W.Event<T>)
    | LoopTurn(size: SizeResult)
    | SourceErrorSeen
    | DestErrorSeen
    | SourceCloseSeen
    | SignalAborts(reason: Reason)
    | WriteSettlementSeen
    | WaitOver(r: Settlement)

  /** What can happen to a destination the pipe has locked. */
  predicate DestSide<T>(e: W.Event<T>) {
    e.SinkErrorCall? || e.StartSettles? || e.WriteSettles? || e.CloseSettles? || e.AbortSettles?
  }

  function Step<T>(p: Pipe<T>, e: Event<T>): Pipe<T> {
    match e
    case SourceEvent(e, size) => if R.SourceSide(e) then Poll(p.(source := R.Step(p.source, e)), size) else p
    case DestEvent(d) => if DestSide(d) then WithDest(p, W.Step(p.dest, d)) else p
    case LoopTurn(size) => Turn(p, size)
    case SourceErrorSeen => SourceErrored(p)
    case DestErrorSeen => DestErrored(p)
    case SourceCloseSeen => SourceClosed(p)
    case SignalAborts(reason) => BeginShutdown(p, AbortBoth(reason), Some(reason))
    case WriteSettlementSeen => CheckWrite(p)
    case WaitOver(r) => Conclude(p, r)
  }

  function Run<T>(p: Pipe<T>, events: seq<Event<T>>): Pipe<T>
    decreases |events|
  {
    if events == [] then p
    else Step(Run(p, events[..|events| - 1]), events[|events| - 1])
  }
}
