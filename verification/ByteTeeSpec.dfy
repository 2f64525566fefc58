/** Teeing a byte stream.  When one of the two branches wants bytes the tee takes some from its
    source: a chunk, or, if a view is pending on that branch, bytes put straight into it.  The
    other branch is given a copy.  The state is the three streams and the variables the tee's
    closures share. */
module ByteTeeSpec {
  import opened Base
  import opened Fifo
  import opened ByteSpec

  /** How a source read was made: through a default reader, or into the first pending view of
      a branch, whose bytes then ended `at`. */
  datatype Kind = ViaDefault | ViaByob(second: bool, at: nat)

  /** A source read is outstanding, or its chunk waits for the microtask that forwards it. */
  datatype Phase = Idle | Outstanding(kind: Kind, id: nat) | Scheduled(kind: Kind, chunk: Bytes)

  datatype Tee = Tee(
    source: Stream,
    branch1: Stream,
    branch2: Stream,
    phase: Phase,
    reading: bool,
    again1: bool,
    again2: bool,
    canceled1: bool,
    canceled2: bool,
    // what the source had delivered before it was teed
    before: Bytes)

  function Branch(t: Tee, second: bool): Stream {
    if second then t.branch2 else t.branch1
  }

  function SetBranch(t: Tee, second: bool, b: Stream): Tee {
    if second then t.(branch2 := b) else t.(branch1 := b)
  }

  predicate Canceled(t: Tee, second: bool) {
    if second then t.canceled2 else t.canceled1
  }

  function Start(source: Stream): Tee {
    Tee(Acquire(source, DefaultReader), Init(0), Init(0), Idle, false, false, false, false, false, source.delivered)
  }

  // ---------------------------------------------------------- the source is done

  function CloseBranch(t: Tee, second: bool): Tee {
    if Canceled(t, second) then t else SetBranch(t, second, ControllerClose(Branch(t, second)))
  }

  /** Closing a branch whose first view holds part of an element errors the branch and throws. */
  predicate CloseThrows(t: Tee, second: bool) {
    var b := Branch(t, second);
    && !Canceled(t, second) && CanCloseOrEnqueue(b) && b.queue == []
    && b.pullIntos != [] && |b.pullIntos[0].filled| % b.pullIntos[0].elementSize != 0
  }

  /** The branches in turn; a throw leaves the rest of the callback undone. */
  function CloseBoth(t: Tee, first: bool): Tee {
    var u := CloseBranch(t, first);
    if CloseThrows(t, first) then u else CloseBranch(u, !first)
  }

  predicate CloseBothThrows(t: Tee, first: bool) {
    CloseThrows(t, first) || CloseThrows(CloseBranch(t, first), !first)
  }

  /** respond(0) throws on a branch that could not close yet. */
  predicate EndThrows(b: Stream) {
    b.pullIntos != [] && !b.state.Closed?
  }

  function EndBranch(t: Tee, second: bool): Tee {
    SetBranch(t, second, Respond(Branch(t, second), []))
  }

  function EndDefault(t: Tee): Tee {
    var u := CloseBoth(t, false);
    if CloseBothThrows(t, false) || EndThrows(u.branch1) then u else EndBranch(EndBranch(u, false), true)
  }

  function EndByob(t: Tee, second: bool, at: nat, view: Option<Bytes>): Tee {
    var u := CloseBoth(t, second);
    if CloseBothThrows(t, second) || view.None? then u
    else
      var v := if Canceled(u, second) then u
               else SetBranch(u, second, RespondWithNewView(Branch(u, second), at, view.value));
      if !Canceled(u, second) && NewViewThrows(Branch(u, second), at, view.value) then u
      else if Canceled(v, !second) then v
      else EndBranch(v, !second)
  }

  /** respondWithNewView() throws unless the view continues the first descriptor and its
      length suits the stream's state. */
  predicate NewViewThrows(b: Stream, at: nat, data: Bytes) {
    || b.pullIntos == []
    || |b.pullIntos[0].filled| != at
    || at + |data| > b.pullIntos[0].byteLength
    || (if b.state.Closed? then data != [] else data == [])
  }

  // -------------------------------------------------------- reading the source

  function Resolve(t: Tee, kind: Kind, a: Answer): Tee {
    match a
    case Waiting => t
    case Chunk(bytes) => t.(phase := Scheduled(kind, bytes))
    case View(bytes, done) =>
      if !done then t.(phase := Scheduled(kind, bytes))
      else if kind.ViaByob? then EndByob(Finish(t), kind.second, kind.at, Some(bytes))
      else EndDefault(Finish(t))
    case Done =>
      if kind.ViaByob? then EndByob(Finish(t), kind.second, kind.at, None) else EndDefault(Finish(t))
    case ReadFailed(_) => Finish(t)
  }

  function Finish(t: Tee): Tee {
    t.(phase := Idle, reading := false)
  }

  /** The outstanding read's callbacks run as soon as it is answered. */
  function Poll(t: Tee): Tee {
    if t.phase.Outstanding? && t.phase.id < |t.source.answers| then
      Resolve(t, t.phase.kind, t.source.answers[t.phase.id])
    else t
  }

  function SwapTo(s: Stream, r: Reader): Stream {
    if s.reader == r then s else Acquire(Release(s), r)
  }

  function PullWithDefaultReader(t: Tee): Tee {
    var s := SwapTo(t.source, DefaultReader);
    Poll(t.(source := Read(s), phase := Outstanding(ViaDefault, |s.answers|)))
  }

  /** The view over the room left in a descriptor. */
  function Room(d: PullInto): PullInto {
    PullInto([], FloorAtZero(d.byteLength - |d.filled|), 1, 1, false)
  }

  function PullWithByobReader(t: Tee, second: bool, d: PullInto): Tee {
    var s := SwapTo(t.source, ByobReader);
    if s.state.Errored? then t.(source := s, reading := false)
    else
      Poll(t.(source := AddPullInto(s, Room(d)),
              phase := Outstanding(ViaByob(second, |d.filled|), |s.answers|)))
  }

  function Pull(t: Tee, second: bool): Tee {
    if t.reading then
      if second then t.(again2 := true) else t.(again1 := true)
    else
      var b := Branch(t, second);
      if b.pullIntos == [] then PullWithDefaultReader(t.(reading := true))
      else PullWithByobReader(t.(reading := true), second, b.pullIntos[0])
  }

  /** A branch that called its pull algorithm since it had called it `before` times. */
  function AfterBranch(t: Tee, second: bool, before: nat): Tee {
    if Branch(t, second).pulls > before then Pull(t, second) else t
  }

  // ------------------------------------------------------------- the microtask

  function Feed(t: Tee, second: bool, chunk: Bytes): Tee {
    if Canceled(t, second) then t
    else
      var b := Branch(t, second);
      AfterBranch(SetBranch(t, second, ControllerEnqueue(b, chunk)), second, b.pulls)
  }

  function AnswerView(t: Tee, second: bool, at: nat, chunk: Bytes): Tee {
    if Canceled(t, second) then t
    else
      var b := Branch(t, second);
      AfterBranch(SetBranch(t, second, RespondWithNewView(b, at, chunk)), second, b.pulls)
  }

  function ReadAgain(t: Tee): Tee {
    if t.again1 then Pull(t, false) else if t.again2 then Pull(t, true) else t
  }

  function Forward(t: Tee): Tee
    requires t.phase.Scheduled?
  {
    var chunk := t.phase.chunk;
    var u := t.(again1 := false, again2 := false);
    match t.phase.kind
    case ViaDefault => ReadAgain(Finish(Feed(Feed(u, false, chunk), true, chunk)))
    case ViaByob(second, at) =>
      if !Canceled(u, second) && NewViewThrows(Branch(u, second), at, chunk) then u.(phase := Idle)
      else ReadAgain(Finish(Feed(AnswerView(u, second, at, chunk), !second, chunk)))
  }

  // ---------------------------------------------------------------------- runs

  /** What a branch's user can do, and the settling of its start and pull promises. */
  predicate UserEvent(e: Event) {
    match e
    case AcquireCall(_) => true
    case ReleaseCall => true
    case ReadCall => true
    case ReadIntoCall(_, _, _) => true
    case StartSettles(r) => r.Ok?
    case PullSettles(r) => r.Ok?
    case _ => false
  }

  /** What the source's controller can do, and the settling of its promises. */
  predicate SourceEvent(e: Event) {
    match e
    case EnqueueCall(_) => true
    case RespondCall(_) => true
    case NewViewCall(_, _) => true
    case CloseCall => true
    case ErrorCall(_) => true
    case StartSettles(_) => true
    case PullSettles(_) => true
    case _ => false
  }

  datatype TeeEvent =
    | BranchEvent(second: bool, e: Event)
    | BranchCancel(second: bool)
    | SourceStep(e: Event)
    | Microtask
    | ForwardError

  function CancelBranch(t: Tee, second: bool): Tee {
    var b := Branch(t, second);
    if !b.state.Readable? then t
    else
      var u := SetBranch(t, second, Cancel(b));
      var v := if second then u.(canceled2 := true) else u.(canceled1 := true);
      if v.canceled1 && v.canceled2 then Poll(v.(source := Cancel(v.source))) else v
  }

  function TeeStep(t: Tee, e: TeeEvent): Tee {
    match e
    case BranchEvent(second, e) =>
      if !UserEvent(e) then t
      else
        var b := Branch(t, second);
        AfterBranch(SetBranch(t, second, Step(b, e)), second, b.pulls)
    case BranchCancel(second) => CancelBranch(t, second)
    case SourceStep(e) => if SourceEvent(e) then Poll(t.(source := Step(t.source, e))) else t
    case Microtask => if t.phase.Scheduled? then Forward(t) else t
    case ForwardError =>
      if t.source.state.Errored? then
        t.(branch1 := ErrorStream(t.branch1, t.source.error), branch2 := ErrorStream(t.branch2, t.source.error))
      else t
  }

  function TeeRun(t: Tee, events: seq<TeeEvent>): Tee
    decreases |events|
  {
    if events == [] then t
    else TeeStep(TeeRun(t, events[..|events| - 1]), events[|events| - 1])
  }
}
