/** The writable side of js/streams.js as a state machine on values: one function
    per engine function, one event per user call or promise settlement.  The class
    in WritableStream.dfy is proved against these functions. */
module WritableSpec {
  import opened Base
  import opened Fifo

  datatype State = Writable | Erroring | Errored | Closed

  /** An element of the controller's queue. */
  datatype Item<+T> = Chunk(value: T) | CloseSentinel

  /** The attached writer's two promises. */
  datatype Writer = NoWriter | Writer(ready: Outcome, closed: Outcome)

  datatype AbortRequest = NoAbort | AbortRequest(id: nat, reason: Reason, wasAlreadyErroring: bool)

  /** A call made on the underlying sink. */
  datatype SinkCall<+T> = SinkWrite(chunk: T) | SinkClose | SinkAbort(reason: Reason)

  /** What a call returns: the promise of a request, or a settled one. */
  datatype Reply = Request(id: nat) | Resolved | RejectedWith(reason: Reason)

  datatype Stream<T> = Stream(
    state: State,
    storedError: Reason,
    writer: Writer,
    writeRequests: seq<nat>,
    inFlightWrite: Option<nat>,
    closeRequest: Option<nat>,
    inFlightClose: Option<nat>,
    pendingAbort: AbortRequest,
    backpressure: bool,
    // the controller
    queue: seq<Entry<Item<T>>>,
    highWaterMark: nat,
    started: bool,
    cleared: bool,
    // callbacks waiting on user promises: start(), write(), close(), abort()
    startOut: bool,
    writesOut: nat,
    closesOut: nat,
    abortsOut: seq<nat>,
    // the promise of every write, close and abort request, by the number it was given
    writes: seq<Outcome>,
    closes: seq<Outcome>,
    aborts: seq<Outcome>,
    // history: the chunks of the write requests; the calls on the sink, how many of
    // them are writes, and how those writes settled
    accepted: seq<T>,
    calls: seq<SinkCall<T>>,
    begun: nat,
    results: seq<bool>,
    // calling a cleared algorithm, settling a missing or already settled request
    faults: nat)

  function Init<T>(highWaterMark: nat): Stream<T> {
    Stream(Writable, Undefined, NoWriter, [], None, None, None, NoAbort, highWaterMark == 0,
           [], highWaterMark, false, false, true, 0, 0, [], [], [], [], [], [], 0, [], 0)
  }

  predicate CloseQueuedOrInFlight<T>(s: Stream<T>) {
    s.closeRequest.Some? || s.inFlightClose.Some?
  }

  predicate HasOperationInFlight<T>(s: Stream<T>) {
    s.inFlightWrite.Some? || s.inFlightClose.Some?
  }

  function DesiredSize<T>(s: Stream<T>): int {
    s.highWaterMark - Total(s.queue)
  }

  predicate GetBackpressure<T>(s: Stream<T>) {
    DesiredSize(s) <= 0
  }

  // ---------------------------------------------------------------- requests

  predicate IsPending(promises: seq<Outcome>, id: nat) {
    id < |promises| && promises[id].Pending?
  }

  /** An outcome overwrites whatever the promise holds. */
  function Put(promises: seq<Outcome>, id: Option<nat>, outcome: Outcome): seq<Outcome> {
    if id.Some? && id.value < |promises| then promises[id.value := outcome] else promises
  }

  /** Settling a promise that is missing or not pending is a fault. */
  function Misses(promises: seq<Outcome>, id: Option<nat>): nat {
    if id.Some? && IsPending(promises, id.value) then 0 else 1
  }

  function SettleWrite<T>(s: Stream<T>, id: Option<nat>, outcome: Outcome): Stream<T> {
    s.(writes := Put(s.writes, id, outcome), faults := s.faults + Misses(s.writes, id))
  }

  function SettleClose<T>(s: Stream<T>, id: Option<nat>, outcome: Outcome): Stream<T> {
    s.(closes := Put(s.closes, id, outcome), faults := s.faults + Misses(s.closes, id))
  }

  function SettleAbort<T>(s: Stream<T>, id: nat, outcome: Outcome): Stream<T> {
    s.(aborts := Put(s.aborts, Some(id), outcome), faults := s.faults + Misses(s.aborts, Some(id)))
  }

  // ------------------------------------------------------------ backpressure

  function UpdateBackpressure<T>(s: Stream<T>, backpressure: bool): Stream<T> {
    var writer :=
      if s.writer.Writer? && s.backpressure != backpressure then
        s.writer.(ready := if backpressure then Pending else s.writer.ready.Resolve())
      else s.writer;
    s.(writer := writer, backpressure := backpressure)
  }

  function EnsureReadyRejected(w: Writer, reason: Reason): Writer {
    if w.Writer? then w.(ready := Rejected(reason)) else w
  }

  // ------------------------------------------------------------------ errors

  function StartErroring<T>(s: Stream<T>, reason: Reason): Stream<T> {
    var t := s.(state := Erroring, storedError := reason,
                writer := EnsureReadyRejected(s.writer, reason));
    if !HasOperationInFlight(t) && t.started then FinishErroring(t) else t
  }

  function RejectCloseAndClosed<T>(s: Stream<T>): Stream<T> {
    var t := RejectClose(s);
    if t.writer.Writer? then
      t.(writer := t.writer.(closed := t.writer.closed.Reject(t.storedError)))
    else t
  }

  function RejectClose<T>(s: Stream<T>): Stream<T> {
    if s.closeRequest.Some? then
      SettleClose(s, s.closeRequest, Rejected(s.storedError)).(closeRequest := None)
    else s
  }

  function RejectWrites<T>(s: Stream<T>): Stream<T>
    decreases |s.writeRequests|
  {
    if s.writeRequests == [] then s
    else
      RejectWrites(SettleWrite(s.(writeRequests := s.writeRequests[1..]), Some(s.writeRequests[0]),
                               Rejected(s.storedError)))
  }

  function InvokeSink<T>(s: Stream<T>, call: SinkCall<T>): Stream<T> {
    s.(calls := if s.cleared then s.calls else s.calls + [call],
       faults := s.faults + if s.cleared then 1 else 0)
  }

  function FinishErroring<T>(s: Stream<T>): Stream<T> {
    AnswerAbort(RejectWrites(s.(state := Errored, queue := [])))
  }

  function AnswerAbort<T>(s: Stream<T>): Stream<T> {
    if s.pendingAbort.NoAbort? then
      RejectCloseAndClosed(s)
    else
      var request := s.pendingAbort;
      var t := s.(pendingAbort := NoAbort);
      if request.wasAlreadyErroring then
        RejectCloseAndClosed(SettleAbort(t, request.id, Rejected(t.storedError)))
      else
        InvokeSink(t, SinkAbort(request.reason))
        .(cleared := true, abortsOut := t.abortsOut + [request.id])
  }

  function DealWithRejection<T>(s: Stream<T>, reason: Reason): Stream<T> {
    if s.state.Writable? then StartErroring(s, reason) else FinishErroring(s)
  }

  function ControllerError<T>(s: Stream<T>, reason: Reason): Stream<T> {
    StartErroring(s.(cleared := true), reason)
  }

  function ControllerErrorIfNeeded<T>(s: Stream<T>, reason: Reason): Stream<T> {
    if s.state.Writable? then ControllerError(s, reason) else s
  }

  // --------------------------------------------------------------- the queue

  function Dequeue<T>(s: Stream<T>): Stream<T> {
    if s.queue == [] then s else s.(queue := s.queue[1..])
  }

  function ProcessClose<T>(s: Stream<T>): Stream<T> {
    var t := Dequeue(s.(inFlightClose := s.closeRequest, closeRequest := None));
    InvokeSink(t, SinkClose).(cleared := true, closesOut := t.closesOut + 1)
  }

  function ProcessWrite<T>(s: Stream<T>, chunk: T): Stream<T> {
    var t := s.(inFlightWrite := if s.writeRequests == [] then None else Some(s.writeRequests[0]),
                writeRequests := if s.writeRequests == [] then [] else s.writeRequests[1..]);
    InvokeSink(t, SinkWrite(chunk)).(begun := t.begun + 1, writesOut := t.writesOut + 1)
  }

  function AdvanceQueueIfNeeded<T>(s: Stream<T>): Stream<T> {
    if !s.started || s.inFlightWrite.Some? then s
    else if s.state.Erroring? then FinishErroring(s)
    else if s.queue == [] then s
    else match s.queue[0].item
      case CloseSentinel => ProcessClose(s)
      case Chunk(value) => ProcessWrite(s, value)
  }

  // ------------------------------------------------------------- user's calls

  function Abort<T>(s: Stream<T>, reason: Reason): (Stream<T>, Reply) {
    if s.state.Closed? || s.state.Errored? then (s, Resolved)
    else if s.pendingAbort.AbortRequest? then (s, Request(s.pendingAbort.id))
    else
      var id := |s.aborts|;
      var was := s.state.Erroring?;
      var because := if was then Undefined else reason;
      var t := s.(aborts := s.aborts + [Pending], pendingAbort := AbortRequest(id, because, was));
      (if was then t else StartErroring(t, because), Request(id))
  }

  /** close() on a writer or on an unlocked stream: refused while a close is queued. */
  function Close<T>(s: Stream<T>): (Stream<T>, Reply) {
    if CloseQueuedOrInFlight(s) || s.state.Closed? || s.state.Errored? then
      (s, RejectedWith(InvalidState))
    else
      var id := |s.closes|;
      (AdvanceQueueIfNeeded(QueueClose(s)), Request(id))
  }

  function QueueClose<T>(s: Stream<T>): Stream<T> {
    var t := s.(closes := s.closes + [Pending], closeRequest := Some(|s.closes|));
    var u := if t.writer.Writer? && t.backpressure && t.state.Writable? then
               t.(writer := t.writer.(ready := t.writer.ready.Resolve()))
             else t;
    u.(queue := u.queue + [Entry(CloseSentinel, 0)])
  }

  function GetChunkSize<T>(s: Stream<T>, size: SizeResult): (Stream<T>, SizeResult) {
    if s.cleared then (s, Size(1))
    else if size.Threw? then (ControllerErrorIfNeeded(s, size.error), Size(1))
    else (s, size)
  }

  function ControllerWrite<T>(s: Stream<T>, chunk: T, size: SizeResult): Stream<T> {
    if !size.Size? then ControllerErrorIfNeeded(s, size.error)
    else
      AdvanceQueueIfNeeded(RefreshBackpressure(s.(queue := s.queue + [Entry(Chunk(chunk), size.size)])))
  }

  /** write() on the attached writer. */
  function Write<T>(s: Stream<T>, chunk: T, size: SizeResult): (Stream<T>, Reply) {
    var (t, chunkSize) := GetChunkSize(s, size);
    if t.state.Errored? then (t, RejectedWith(t.storedError))
    else if CloseQueuedOrInFlight(t) || t.state.Closed? then (t, RejectedWith(InvalidState))
    else if t.state.Erroring? then (t, RejectedWith(t.storedError))
    else
      var id := |t.writes|;
      var u := t.(writes := t.writes + [Pending], writeRequests := t.writeRequests + [id],
                  accepted := t.accepted + [chunk]);
      (ControllerWrite(u, chunk, chunkSize), Request(id))
  }

  function GetWriter<T>(s: Stream<T>): Stream<T> {
    if s.writer.Writer? then s
    else
      s.(writer := match s.state
         case Writable =>
           Writer(if !CloseQueuedOrInFlight(s) && s.backpressure then Pending else Fulfilled, Pending)
         case Erroring => Writer(Rejected(s.storedError), Pending)
         case Closed => Writer(Fulfilled, Fulfilled)
         case Errored => Writer(Rejected(s.storedError), Rejected(s.storedError)))
  }

  function ReleaseWriter<T>(s: Stream<T>): Stream<T> {
    s.(writer := NoWriter)
  }

  function SinkError<T>(s: Stream<T>, reason: Reason): Stream<T> {
    ControllerErrorIfNeeded(s, reason)
  }

  // --------------------------------------------------------------- settlements

  function OnStart<T>(s: Stream<T>, r: Settlement): Stream<T> {
    var t := s.(startOut := false, started := true);
    match r
    case Ok => AdvanceQueueIfNeeded(t)
    case Failed(e) => DealWithRejection(t, e)
  }

  function FinishInFlightWrite<T>(s: Stream<T>, outcome: Outcome): Stream<T> {
    SettleWrite(s, s.inFlightWrite, outcome).(inFlightWrite := None)
  }

  function RefreshBackpressure<T>(s: Stream<T>): Stream<T> {
    if !CloseQueuedOrInFlight(s) && s.state.Writable? then UpdateBackpressure(s, GetBackpressure(s)) else s
  }

  function OnWrite<T>(s: Stream<T>, r: Settlement): Stream<T>
    requires s.writesOut > 0
  {
    var t := s.(writesOut := s.writesOut - 1, results := s.results + [r.Ok?]);
    match r
    case Ok =>
      AdvanceQueueIfNeeded(RefreshBackpressure(Dequeue(FinishInFlightWrite(t, Fulfilled))))
    case Failed(e) =>
      var u := if t.state.Writable? then t.(cleared := true) else t;
      DealWithRejection(FinishInFlightWrite(u, Rejected(e)), e)
  }

  function FinishInFlightClose<T>(s: Stream<T>, outcome: Outcome): Stream<T> {
    SettleClose(s, s.inFlightClose, outcome).(inFlightClose := None)
  }

  function SettlePendingAbort<T>(s: Stream<T>, outcome: Outcome): Stream<T> {
    if s.pendingAbort.AbortRequest? then
      SettleAbort(s, s.pendingAbort.id, outcome).(pendingAbort := NoAbort)
    else s
  }

  function MarkClosed<T>(s: Stream<T>): Stream<T> {
    var t := s.(state := Closed);
    if t.writer.Writer? then t.(writer := t.writer.(closed := t.writer.closed.Resolve())) else t
  }

  function OnClose<T>(s: Stream<T>, r: Settlement): Stream<T>
    requires s.closesOut > 0
  {
    var t := s.(closesOut := s.closesOut - 1);
    match r
    case Ok =>
      var u := FinishInFlightClose(t, Fulfilled);
      MarkClosed(if u.state.Erroring? then SettlePendingAbort(u, Fulfilled).(storedError := Undefined) else u)
    case Failed(e) =>
      DealWithRejection(SettlePendingAbort(FinishInFlightClose(t, Rejected(e)), Rejected(e)), e)
  }

  function OnAbort<T>(s: Stream<T>, r: Settlement): Stream<T>
    requires s.abortsOut != []
  {
    var t := s.(abortsOut := s.abortsOut[1..]);
    RejectCloseAndClosed(
      SettleAbort(t, s.abortsOut[0], if r.Ok? then Fulfilled else Rejected(r.error)))
  }

  // ---------------------------------------------------------------------- runs

  datatype Event<T> =
    | GetWriterCall
    | ReleaseCall
    | WriteCall(chunk: T, size: SizeResult)
    | CloseCall
    | AbortCall(reason: Reason)
    | SinkErrorCall(reason: Reason)
    | StartSettles(r: Settlement)
    | WriteSettles(r: Settlement)
    | CloseSettles(r: Settlement)
    | AbortSettles(r: Settlement)

  /** One step; a settlement of a promise nobody waits on changes nothing. */
  function Step<T>(s: Stream<T>, e: Event<T>): Stream<T> {
    match e
    case GetWriterCall => GetWriter(s)
    case ReleaseCall => ReleaseWriter(s)
    case WriteCall(chunk, size) => if s.writer.Writer? then Write(s, chunk, size).0 else s
    case CloseCall => Close(s).0
    case AbortCall(reason) => Abort(s, reason).0
    case SinkErrorCall(reason) => SinkError(s, reason)
    case StartSettles(r) => if s.startOut then OnStart(s, r) else s
    case WriteSettles(r) => if s.writesOut > 0 then OnWrite(s, r) else s
    case CloseSettles(r) => if s.closesOut > 0 then OnClose(s, r) else s
    case AbortSettles(r) => if s.abortsOut != [] then OnAbort(s, r) else s
  }

  function Run<T>(s: Stream<T>, events: seq<Event<T>>): Stream<T>
    decreases |events|
  {
    if events == [] then s
    else Step(Run(s, events[..|events| - 1]), events[|events| - 1])
  }
}
