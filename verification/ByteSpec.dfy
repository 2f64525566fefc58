/** A readable byte stream of js/streams.js, as a state machine on values: its queue of
    byte chunks, its default reads, and its BYOB reads with the pull-into descriptors
    behind them. */
module ByteSpec {
  import opened Base
  import opened Fifo

  newtype Byte = x: int | 0 <= x < 256
  type Bytes = seq<Byte>

  /** A view's element size, the BYTES_PER_ELEMENT of its constructor (1 for a DataView). */
  type ElementSize = n: int | n > 0 witness 1

  datatype State = Readable | Closed | Errored

  datatype Reader = NoReader | DefaultReader | ByobReader

  /** A pull-into descriptor: the bytes its buffer holds so far, the room it has, and how
      many bytes complete it.  A released one is the standard's type "none". */
  datatype PullInto = PullInto(
    filled: Bytes,
    byteLength: nat,
    minimumFill: nat,
    elementSize: ElementSize,
    released: bool)

  /** What a read's promise holds: nothing yet, a chunk, a view, or the end. */
  datatype Answer = Waiting | Chunk(bytes: Bytes) | View(bytes: Bytes, done: bool) | Done | ReadFailed(reason: Reason)

  datatype Stream = Stream(
    state: State,
    error: Reason,
    queue: seq<Entry<Bytes>>,
    highWaterMark: nat,
    reader: Reader,
    waiters: seq<nat>,
    pullIntos: seq<PullInto>,
    readIntos: seq<nat>,
    started: bool,
    pulling: bool,
    pullAgain: bool,
    closeRequested: bool,
    // callbacks waiting on start() and pull(), and how often pull() was called
    startOut: bool,
    pullsOut: nat,
    pulls: nat,
    // every read's promise, by the number it was given, and the view a BYOB read asked for
    answers: seq<Answer>,
    asked: seq<Option<PullInto>>,
    // history: the bytes the source supplied, the reads that were handed bytes, in the order
    // they were, and those bytes
    supplied: Bytes,
    order: seq<nat>,
    delivered: Bytes,
    // peeking at an empty queue, answering a read that is not waiting, a process loop
    // that does not advance
    faults: nat)

  function Init(highWaterMark: nat): Stream {
    Stream(Readable, Undefined, [], highWaterMark, NoReader, [], [], [], false, false, false, false,
           true, 0, 0, [], [], [], [], [], 0)
  }

  // ------------------------------------------------------------------- pulling

  predicate CanCloseOrEnqueue(s: Stream) {
    s.state.Readable? && !s.closeRequested
  }

  predicate ShouldCallPull(s: Stream) {
    && CanCloseOrEnqueue(s) && s.started
    && ((!s.reader.NoReader? && (s.waiters != [] || s.readIntos != []))
        || s.highWaterMark - Total(s.queue) > 0)
  }

  function CallPullIfNeeded(s: Stream): Stream {
    if !ShouldCallPull(s) then s
    else if s.pulling then s.(pullAgain := true)
    else s.(pulling := true, pullsOut := s.pullsOut + 1, pulls := s.pulls + 1)
  }

  // ----------------------------------------------------------------- answering

  predicate Carries(a: Answer) {
    a.Chunk? || a.View?
  }

  function Note(s: Stream, id: nat, a: Answer): Stream {
    if Carries(a) then s.(order := s.order + [id], delivered := s.delivered + a.bytes) else s
  }

  /** The answer overwrites whatever the read's promise holds; that the read is missing or does
      not wait any more is a fault. */
  function Settle(s: Stream, id: nat, a: Answer): Stream {
    Note(s.(answers := if id < |s.answers| then s.answers[id := a] else s.answers,
            faults := s.faults + if id < |s.answers| && s.answers[id].Waiting? then 0 else 1),
         id, a)
  }

  /** A new read, with its answer if that is known at once. */
  function NewRead(s: Stream, a: Answer): Stream {
    Note(s.(answers := s.answers + [a], asked := s.asked + [None]), |s.answers|, a)
  }

  function NewReadInto(s: Stream, a: Answer, d: PullInto): Stream {
    Note(s.(answers := s.answers + [a], asked := s.asked + [Some(d)]), |s.answers|, a)
  }

  function SettleWaiters(s: Stream, a: Answer): Stream
    decreases |s.waiters|
  {
    if s.waiters == [] then s
    else SettleWaiters(Settle(s.(waiters := s.waiters[1..]), s.waiters[0], a), a)
  }

  function SettleReadIntos(s: Stream, a: Answer): Stream
    decreases |s.readIntos|
  {
    if s.readIntos == [] then s
    else SettleReadIntos(Settle(s.(readIntos := s.readIntos[1..]), s.readIntos[0], a), a)
  }

  function CloseStream(s: Stream): Stream {
    SettleWaiters(s.(state := Closed), Done)
  }

  function ErrorStream(s: Stream, reason: Reason): Stream {
    if !s.state.Readable? then s
    else
      SettleReadIntos(
        SettleWaiters(s.(state := Errored, error := reason, queue := [], pullIntos := []), ReadFailed(reason)),
        ReadFailed(reason))
  }

  function Cancel(s: Stream): Stream {
    if !s.state.Readable? then s
    else SettleReadIntos(CloseStream(s), Done).(pullIntos := [], queue := [])
  }

  // ----------------------------------------------------- filling from the queue

  datatype Taken = Taken(bytes: Bytes, rest: seq<Entry<Bytes>>, missing: nat)

  /** Takes `count` bytes off the queue, across chunks; the rest of a chunk stays at the head. */
  function Take(q: seq<Entry<Bytes>>, count: nat): Taken {
    if count == 0 then Taken([], q, 0)
    else if q == [] then Taken([], [], count)
    else
      var head := q[0].item;
      if |head| <= count then
        var t := Take(q[1..], count - |head|);
        Taken(head + t.bytes, t.rest, t.missing)
      else
        Taken(head[..count], [Entry(head[count..], FloorAtZero(q[0].size - count))] + q[1..], 0)
  }

  datatype Fill = Fill(queue: seq<Entry<Bytes>>, desc: PullInto, ready: bool, missing: nat)

  function Min(a: int, b: int): int {
    if a < b then a else b
  }

  /** Moves queued bytes into a descriptor: whole elements only, once that reaches its
      minimum; otherwise everything there is. */
  function FillPullInto(q: seq<Entry<Bytes>>, d: PullInto): Fill
  {
    var held := |d.filled|;
    var maxBytesToCopy := Min(Total(q), d.byteLength - held);
    var maxBytesFilled := held + maxBytesToCopy;
    var maxAlignedBytes := maxBytesFilled - maxBytesFilled % d.elementSize;
    var ready := maxAlignedBytes >= d.minimumFill;
    var t := Take(q, FloorAtZero(if ready then maxAlignedBytes - held else maxBytesToCopy));
    Fill(t.rest, d.(filled := d.filled + t.bytes), ready, t.missing)
  }

  datatype Processed = Processed(queue: seq<Entry<Bytes>>, pullIntos: seq<PullInto>, filled: seq<PullInto>, faults: nat)

  /** Fills the pending descriptors in turn until the queue holds no bytes. */
  function Process(q: seq<Entry<Bytes>>, ds: seq<PullInto>): Processed
    decreases |ds|, Total(q)
  {
    if ds == [] || Total(q) == 0 then Processed(q, ds, [], 0)
    else
      var f := FillPullInto(q, ds[0]);
      var fault := if f.missing > 0 then 1 else 0;
      if f.ready then
        var p := Process(f.queue, ds[1..]);
        Processed(p.queue, p.pullIntos, [f.desc] + p.filled, p.faults + fault)
      else if Total(f.queue) < Total(q) then
        var p := Process(f.queue, [f.desc] + ds[1..]);
        p.(faults := p.faults + fault)
      else
        Processed(f.queue, [f.desc] + ds[1..], [], fault + 1)
  }

  /** Hands a completed descriptor to the read that waits for it. */
  function Commit(s: Stream, d: PullInto): Stream {
    if s.readIntos == [] || |d.filled| > d.byteLength then s.(faults := s.faults + 1)
    else
      Settle(s.(readIntos := s.readIntos[1..]), s.readIntos[0], View(d.filled, s.state.Closed?))
  }

  function CommitAll(s: Stream, ds: seq<PullInto>): Stream
    decreases |ds|
  {
    if ds == [] then s else CommitAll(Commit(s, ds[0]), ds[1..])
  }

  function ProcessPullIntos(s: Stream): (Stream, seq<PullInto>)
  {
    var p := Process(s.queue, s.pullIntos);
    (s.(queue := p.queue, pullIntos := p.pullIntos, faults := s.faults + p.faults), p.filled)
  }

  function ProcessAndCommit(s: Stream): Stream
  {
    var (t, filled) := ProcessPullIntos(s);
    CommitAll(t, filled)
  }

  function Push(s: Stream, chunk: Bytes): Stream {
    s.(queue := s.queue + [Entry(chunk, |chunk|)])
  }

  /** A released descriptor's bytes go to the queue. */
  function DetachFirst(s: Stream): Stream
    requires s.pullIntos != []
  {
    var held := s.pullIntos[0].filled;
    (if held != [] then Push(s, held) else s).(pullIntos := s.pullIntos[1..])
  }

  // ------------------------------------------------------- the source's answers

  function GiveToWaiter(s: Stream, bytes: Bytes): Stream
    requires s.waiters != []
  {
    Settle(s.(waiters := s.waiters[1..]), s.waiters[0], Chunk(bytes))
  }

  /** What a released read left queued goes to the waiting reads first. */
  function DrainToWaiters(s: Stream): Stream
    decreases |s.queue|
  {
    if s.waiters == [] || s.queue == [] then s
    else
      var t := GiveToWaiter(s.(queue := s.queue[1..]), s.queue[0].item);
      DrainToWaiters(t)
  }

  /** enqueue() past the controller's checks. */
  function Enqueue(s: Stream, chunk: Bytes): Stream {
    var t := (if s.pullIntos != [] && s.pullIntos[0].released then DetachFirst(s) else s)
             .(supplied := s.supplied + chunk);
    if s.reader.ByobReader? then
      CallPullIfNeeded(ProcessAndCommit(Push(t, chunk)))
    else
      var u := DrainToWaiters(t);
      CallPullIfNeeded(if u.waiters != [] then GiveToWaiter(u, chunk) else Push(u, chunk))
  }

  function ControllerEnqueue(s: Stream, chunk: Bytes): Stream
  {
    if CanCloseOrEnqueue(s) then Enqueue(s, chunk) else s
  }

  function ControllerClose(s: Stream): Stream {
    if !CanCloseOrEnqueue(s) then s
    else if s.queue != [] then s.(closeRequested := true)
    else if s.pullIntos != [] && |s.pullIntos[0].filled| % s.pullIntos[0].elementSize != 0 then
      ErrorStream(s, InvalidState)
    else CloseStream(s)
  }

  /** respond() on the first descriptor, `data` being what the source wrote into its view. */
  function Respond(s: Stream, data: Bytes): Stream
  {
    if s.pullIntos == [] then s
    else if s.state.Closed? then
      if data != [] then s else RespondInClosedState(s)
    else if data == [] || |s.pullIntos[0].filled| + |data| > s.pullIntos[0].byteLength then s
    else CallPullIfNeeded(RespondInReadableState(s, data))
  }

  /** respondWithNewView(): the view must continue where the descriptor's bytes end. */
  function RespondWithNewView(s: Stream, at: nat, data: Bytes): Stream
  {
    if s.pullIntos == [] || |s.pullIntos[0].filled| != at then s else Respond(s, data)
  }

  function RespondInClosedState(s: Stream): Stream
    requires s.pullIntos != []
  {
    var t := if s.pullIntos[0].released then s.(pullIntos := s.pullIntos[1..]) else s;
    if s.reader.ByobReader? then CommitPending(t) else t
  }

  /** Hands over as many descriptors as there are reads waiting for one. */
  function CommitPending(s: Stream): Stream {
    if |s.readIntos| <= |s.pullIntos| then
      CommitAll(s.(pullIntos := s.pullIntos[|s.readIntos|..]), s.pullIntos[..|s.readIntos|])
    else s.(faults := s.faults + 1)
  }

  function RespondInReadableState(s: Stream, data: Bytes): Stream
    requires s.pullIntos != []
  {
    var d := s.pullIntos[0].(filled := s.pullIntos[0].filled + data);
    var t := s.(supplied := s.supplied + data, pullIntos := [d] + s.pullIntos[1..]);
    if d.released then ProcessAndCommit(DetachFirst(t))
    else if |d.filled| < d.minimumFill then t
    else CompleteFirst(t)
  }

  /** Takes the first descriptor off the line with its whole elements; the bytes of a last,
      partial one are queued again. */
  function TakeFirst(s: Stream): (Stream, PullInto)
    requires s.pullIntos != []
  {
    var d := s.pullIntos[0];
    var whole := |d.filled| - |d.filled| % d.elementSize;
    var t := s.(pullIntos := s.pullIntos[1..]);
    (if whole < |d.filled| then Push(t, d.filled[whole..]) else t, d.(filled := d.filled[..whole]))
  }

  /** The first descriptor is complete: later ones are filled from what it did not keep, and
      all are handed over in order. */
  function CompleteFirst(s: Stream): Stream
    requires s.pullIntos != []
  {
    var (t, first) := TakeFirst(s);
    var (u, filled) := ProcessPullIntos(t);
    CommitAll(u, [first] + filled)
  }

  // -------------------------------------------------------------- the readers

  function Read(s: Stream): Stream {
    match s.state
    case Closed => NewRead(s, Done)
    case Errored => NewRead(s, ReadFailed(s.error))
    case Readable =>
      if s.queue != [] then TakeChunk(s)
      else CallPullIfNeeded(NewRead(s, Waiting).(waiters := s.waiters + [|s.answers|]))
  }

  /** The engine answers the read last; nothing it does in between looks at the answer. */
  function TakeChunk(s: Stream): Stream
    requires s.queue != []
  {
    var t := NewRead(s.(queue := s.queue[1..]), Chunk(s.queue[0].item));
    if t.closeRequested && t.queue == [] then CloseStream(t) else CallPullIfNeeded(t)
  }

  function HandleQueueDrain(s: Stream): Stream {
    if Total(s.queue) == 0 && s.closeRequested then CloseStream(s.(queue := []))
    else CallPullIfNeeded(s)
  }

  /** read(view, { min }) with a view of `length` elements. */
  function ReadInto(s: Stream, length: nat, elementSize: ElementSize, min: nat): Stream
  {
    if length == 0 || min == 0 || min > length then NewRead(s, ReadFailed(InvalidState))
    else if s.state.Errored? then NewRead(s, ReadFailed(s.error))
    else AddPullInto(s, PullInto([], length * elementSize, min * elementSize, elementSize, false))
  }

  function AddPullInto(s: Stream, d: PullInto): Stream
  {
    if s.pullIntos != [] then Enlist(s, d, d)
    else if s.state.Closed? then NewReadInto(s, View([], true), d)
    else if Total(s.queue) == 0 then CallPullIfNeeded(Enlist(s, d, d))
    else AnswerFill(s, d, FillPullInto(s.queue, d))
  }

  function AfterFill(s: Stream, f: Fill): Stream {
    s.(queue := f.queue, faults := s.faults + if f.missing > 0 then 1 else 0)
  }

  /** The queue gave the read that asked for `d` what is in `f`: that may do, or be all there
      will ever be, or the read waits for more. */
  function AnswerFill(s: Stream, d: PullInto, f: Fill): Stream {
    var t := AfterFill(s, f);
    if f.ready then
      HandleQueueDrain(NewReadInto(t, View(f.desc.filled, false), d))
    else if s.closeRequested then NewRead(ErrorStream(t, InvalidState), ReadFailed(InvalidState))
    else CallPullIfNeeded(Enlist(t, d, f.desc))
  }

  /** The read that asked for `d` waits, with what its descriptor holds already. */
  function Enlist(s: Stream, d: PullInto, filled: PullInto): Stream {
    NewReadInto(s, Waiting, d).(pullIntos := s.pullIntos + [filled], readIntos := s.readIntos + [|s.answers|])
  }

  function Acquire(s: Stream, r: Reader): Stream {
    s.(reader := r)
  }

  /** A pending BYOB read stays behind as a released descriptor; any after it go. */
  function Release(s: Stream): Stream {
    var t := s.(reader := NoReader,
                pullIntos := if s.pullIntos == [] then [] else [s.pullIntos[0].(released := true)]);
    if s.reader.ByobReader? then SettleReadIntos(t, ReadFailed(Released))
    else SettleWaiters(t, ReadFailed(Released))
  }

  // --------------------------------------------------------------- settlements

  function OnStart(s: Stream, r: Settlement): Stream {
    var t := s.(startOut := false);
    match r
    case Ok => CallPullIfNeeded(t.(started := true))
    case Failed(e) => ErrorStream(t, e)
  }

  function OnPull(s: Stream, r: Settlement): Stream
    requires s.pullsOut > 0
  {
    var t := s.(pullsOut := s.pullsOut - 1);
    match r
    case Ok =>
      var u := t.(pulling := false);
      if u.pullAgain then CallPullIfNeeded(u.(pullAgain := false)) else u
    case Failed(e) => ErrorStream(t, e)
  }

  // ---------------------------------------------------------------------- runs

  datatype Event =
    | AcquireCall(byob: bool)
    | ReleaseCall
    | ReadCall
    | ReadIntoCall(length: nat, elementSize: ElementSize, min: nat)
    | CancelCall
    | EnqueueCall(chunk: Bytes)
    | RespondCall(data: Bytes)
    | NewViewCall(at: nat, data: Bytes)
    | CloseCall
    | ErrorCall(reason: Reason)
    | StartSettles(r: Settlement)
    | PullSettles(r: Settlement)

  /** One step; a call on a reader of the other kind, or none, changes nothing. */
  function Step(s: Stream, e: Event): Stream
  {
    match e
    case AcquireCall(byob) =>
      if s.reader.NoReader? then Acquire(s, if byob then ByobReader else DefaultReader) else s
    case ReleaseCall => if s.reader.NoReader? then s else Release(s)
    case ReadCall => if s.reader.DefaultReader? then Read(s) else s
    case ReadIntoCall(length, elementSize, min) =>
      if s.reader.ByobReader? then ReadInto(s, length, elementSize, min) else s
    case CancelCall => Cancel(s)
    case EnqueueCall(chunk) => ControllerEnqueue(s, chunk)
    case RespondCall(data) => Respond(s, data)
    case NewViewCall(at, data) => RespondWithNewView(s, at, data)
    case CloseCall => ControllerClose(s)
    case ErrorCall(reason) => ErrorStream(s, reason)
    case StartSettles(r) => if s.startOut then OnStart(s, r) else s
    case PullSettles(r) => if s.pullsOut > 0 then OnPull(s, r) else s
  }

  function Run(s: Stream, events: seq<Event>): Stream
    decreases |events|
  {
    if events == [] then s
    else Step(Run(s, events[..|events| - 1]), events[|events| - 1])
  }
}
