/** A readable stream with a default controller, as a state machine on values: one
    function per engine function of js/streams.js, one event per user call or promise
    settlement.  The synchronous part of a source's pull() counts as events that
    follow the step that called it. */
module ReadableSpec {
  import opened Base
  import opened Fifo

  datatype State = Readable | Closed | Errored

  /** What a read() promise holds. */
  datatype Result<+T> = Waiting | Got(value: T) | Done | ReadFailed(reason: Reason)

  datatype Stream<T> = Stream(
    state: State,
    error: Reason,
    queue: seq<Entry<T>>,
    highWaterMark: nat,
    locked: bool,
    waiters: seq<nat>,
    started: bool,
    pulling: bool,
    pullAgain: bool,
    closeRequested: bool,
    // callbacks waiting on start() and pull()
    startOut: bool,
    pullsOut: nat,
    // every read's promise, by the number it was given
    answers: seq<Result<T>>,
    // history: the chunks the controller accepted, whether the stream was cancelled, and
    // how many reads had been issued when pull() was last called
    enqueued: seq<T>,
    cancelled: bool,
    pulledAt: nat)

  function Init<T>(highWaterMark: nat): Stream<T> {
    Stream(Readable, Undefined, [], highWaterMark, false, [], false, false, false, false, true, 0, [],
           [], false, 0)
  }

  predicate CanCloseOrEnqueue<T>(s: Stream<T>) {
    s.state.Readable? && !s.closeRequested
  }

  predicate ShouldCallPull<T>(s: Stream<T>) {
    && CanCloseOrEnqueue(s) && s.started
    && ((s.locked && s.waiters != []) || s.highWaterMark - Total(s.queue) > 0)
  }

  function CallPullIfNeeded<T>(s: Stream<T>): Stream<T> {
    if !ShouldCallPull(s) then s
    else if s.pulling then s.(pullAgain := true)
    else s.(pulling := true, pullsOut := s.pullsOut + 1, pulledAt := |s.answers|)
  }

  function Answer<T>(s: Stream<T>, id: nat, r: Result<T>): Stream<T> {
    if id < |s.answers| then s.(answers := s.answers[id := r]) else s
  }

  /** Every waiting read gets the same answer. */
  function AnswerAll<T>(s: Stream<T>, r: Result<T>): Stream<T>
    decreases |s.waiters|
  {
    if s.waiters == [] then s
    else AnswerAll(Answer(s.(waiters := s.waiters[1..]), s.waiters[0], r), r)
  }

  function CloseStream<T>(s: Stream<T>): Stream<T> {
    AnswerAll(s.(state := Closed), Done)
  }

  function ErrorStream<T>(s: Stream<T>, reason: Reason): Stream<T> {
    if !s.state.Readable? then s
    else AnswerAll(s.(state := Errored, error := reason, queue := []), ReadFailed(reason))
  }

  function Cancel<T>(s: Stream<T>): Stream<T> {
    if !s.state.Readable? then s
    else CloseStream(s).(queue := [], cancelled := true)
  }

  // ---------------------------------------------------------- the controller

  function Enqueue<T>(s: Stream<T>, chunk: T, size: SizeResult): Stream<T> {
    if !CanCloseOrEnqueue(s) then s
    else if s.waiters != [] then
      CallPullIfNeeded(Answer(s.(waiters := s.waiters[1..], enqueued := s.enqueued + [chunk]),
                              s.waiters[0], Got(chunk)))
    else if !size.Size? then ErrorStream(s, size.error)
    else CallPullIfNeeded(s.(queue := s.queue + [Entry(chunk, size.size)], enqueued := s.enqueued + [chunk]))
  }

  function ControllerClose<T>(s: Stream<T>): Stream<T> {
    if !CanCloseOrEnqueue(s) then s
    else if s.queue != [] then s.(closeRequested := true)
    else CloseStream(s)
  }

  // --------------------------------------------------------------- the reader

  function Read<T>(s: Stream<T>): Stream<T> {
    match s.state
    case Closed => s.(answers := s.answers + [Done])
    case Errored => s.(answers := s.answers + [ReadFailed(s.error)])
    case Readable =>
      if s.queue != [] then TakeChunk(s)
      else CallPullIfNeeded(s.(answers := s.answers + [Waiting], waiters := s.waiters + [|s.answers|]))
  }

  /** The engine answers the read last; nothing it does in between looks at the answer. */
  function TakeChunk<T>(s: Stream<T>): Stream<T>
    requires s.queue != []
  {
    var t := s.(queue := s.queue[1..], answers := s.answers + [Got(s.queue[0].item)]);
    if t.closeRequested && t.queue == [] then CloseStream(t) else CallPullIfNeeded(t)
  }

  function Acquire<T>(s: Stream<T>): Stream<T> {
    s.(locked := true)
  }

  function Release<T>(s: Stream<T>): Stream<T> {
    AnswerAll(s.(locked := false), ReadFailed(Released))
  }

  // --------------------------------------------------------------- settlements

  function OnStart<T>(s: Stream<T>, r: Settlement): Stream<T> {
    var t := s.(startOut := false);
    match r
    case Ok => CallPullIfNeeded(t.(started := true))
    case Failed(e) => ErrorStream(t, e)
  }

  function OnPull<T>(s: Stream<T>, r: Settlement): Stream<T>
    requires s.pullsOut > 0
  {
    var t := s.(pullsOut := s.pullsOut - 1);
    match r
    case Ok =>
      var u := t.(pulling := false);
      if u.pullAgain then CallPullIfNeeded(u.(pullAgain := false)) else u
    case Failed(e) => ErrorStream(t, e)
  }

  // ---------------------------------------------------------------------- runs

  datatype Event<T> =
    | AcquireCall
    | ReleaseCall
    | ReadCall
    | CancelCall
    | EnqueueCall(chunk: T, size: SizeResult)
    | CloseCall
    | ErrorCall(reason: Reason)
    | StartSettles(r: Settlement)
    | PullSettles(r: Settlement)

  /** What can happen to a stream somebody else has locked. */
  predicate SourceSide<T>(e: Event<T>) {
    e.EnqueueCall? || e.CloseCall? || e.ErrorCall? || e.StartSettles? || e.PullSettles?
  }

  /** One step; a call on a reader that is not attached changes nothing. */
  function Step<T>(s: Stream<T>, e: Event<T>): Stream<T> {
    match e
    case AcquireCall => if s.locked then s else Acquire(s)
    case ReleaseCall => if s.locked then Release(s) else s
    case ReadCall => if s.locked then Read(s) else s
    case CancelCall => Cancel(s)
    case EnqueueCall(chunk, size) => Enqueue(s, chunk, size)
    case CloseCall => ControllerClose(s)
    case ErrorCall(reason) => ErrorStream(s, reason)
    case StartSettles(r) => if s.startOut then OnStart(s, r) else s
    case PullSettles(r) => if s.pullsOut > 0 then OnPull(s, r) else s
  }

  function Run<T>(s: Stream<T>, events: seq<Event<T>>): Stream<T>
    decreases |events|
  {
    if events == [] then s
    else Step(Run(s, events[..|events| - 1]), events[|events| - 1])
  }
}
