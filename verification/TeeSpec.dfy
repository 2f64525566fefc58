/** tee() of a default stream: two branches, each with a private queue, whose pull() takes
    from its queue or awaits one shared read of the source. */
module TeeSpec {
  import opened Base
  import R = ReadableSpec

  datatype Item<+T> = Value(value: T) | End

  /** How far a branch's pull() has come: not called; called, its first part still to run; at
      `await pulling`; woken; or done, its promise to settle with `r`. */
  datatype Pull = NoPull | Called | Awaiting | Woken | Returned(r: Settlement)

  datatype Branch<T> = Branch(
    stream: R.Stream<T>,
    queue: seq<Item<T>>,
    pull: Pull,
    // history: the items taken from the queue, and the shifts that found it empty
    consumed: seq<Item<T>>,
    faults: nat)

  datatype Tee<T> = Tee(
    source: R.Stream<T>,
    pulling: Option<nat>,
    branches: seq<Branch<T>>,
    // history: what the source's readers had got before, and what the shared reads brought
    readBefore: seq<T>,
    log: seq<Item<T>>)

  function NewBranch<T>(): Branch<T> {
    Branch(R.Init(1), [], NoPull, [], 0)
  }

  function Start<T>(source: R.Stream<T>, readBefore: seq<T>): Tee<T> {
    Tee(R.Acquire(source), None, [NewBranch(), NewBranch()], readBefore, [])
  }

  /** The branch's stream takes a step; a pull() it begins is a new call. */
  function BranchStep<T>(b: Branch<T>, s: R.Stream<T>): Branch<T> {
    b.(stream := s, pull := if b.pull.NoPull? && s.pullsOut > 0 then Called else b.pull)
  }

  /** Take the next item and give it to the branch; a stream that is closed refuses it. */
  function Deliver<T>(b: Branch<T>): Branch<T> {
    if b.queue == [] then b.(faults := b.faults + 1, pull := Returned(Failed(InvalidState)))
    else
      var item := b.queue[0];
      var taken := b.(queue := b.queue[1..], consumed := b.consumed + [item]);
      if !R.CanCloseOrEnqueue(b.stream) then taken.(pull := Returned(Failed(InvalidState)))
      else
        taken.(pull := Returned(Ok),
               stream := match item
                         case Value(value) => R.Enqueue(b.stream, value, Size(1))
                         case End => R.ControllerClose(b.stream))
  }

  function WithBranch<T>(t: Tee<T>, i: nat, b: Branch<T>): Tee<T>
    requires i < |t.branches|
  {
    t.(branches := t.branches[i := b])
  }

  /** The first part of pull(): up to its return or its await. */
  function RunPull<T>(t: Tee<T>, i: nat): Tee<T>
    requires i < |t.branches|
  {
    var b := t.branches[i];
    if b.queue != [] then WithBranch(t, i, Deliver(b))
    else
      var u := WithBranch(t, i, b.(pull := Awaiting));
      if t.pulling.Some? then u
      else u.(source := R.Read(t.source), pulling := Some(|t.source.answers|))
  }

  /** The shared read brought an item: it goes to every queue, and whoever waits is woken. */
  function Receive<T>(b: Branch<T>, item: Item<T>): Branch<T> {
    b.(queue := b.queue + [item], pull := if b.pull.Awaiting? then Woken else b.pull)
  }

  /** The shared read failed: so does every pull() that awaits it. */
  function Lose<T>(b: Branch<T>, reason: Reason): Branch<T> {
    b.(pull := if b.pull.Awaiting? then Returned(Failed(reason)) else b.pull)
  }

  function ReceiveAll<T>(branches: seq<Branch<T>>, item: Item<T>): (r: seq<Branch<T>>)
    ensures |r| == |branches|
  {
    seq(|branches|, i requires 0 <= i < |branches| => Receive(branches[i], item))
  }

  function LoseAll<T>(branches: seq<Branch<T>>, reason: Reason): (r: seq<Branch<T>>)
    ensures |r| == |branches|
  {
    seq(|branches|, i requires 0 <= i < |branches| => Lose(branches[i], reason))
  }

  function Bring<T>(t: Tee<T>, item: Item<T>): Tee<T> {
    t.(pulling := None, log := t.log + [item], branches := ReceiveAll(t.branches, item))
  }

  /** The callbacks of the shared read. */
  function ReadSettles<T>(t: Tee<T>): Tee<T> {
    if t.pulling.None? || t.pulling.value >= |t.source.answers| then t
    else match t.source.answers[t.pulling.value]
      case Waiting => t
      case Got(value) => Bring(t, Value(value))
      case Done => Bring(t, End)
      case ReadFailed(reason) => t.(pulling := None, branches := LoseAll(t.branches, reason))
  }

  // ---------------------------------------------------------------------- runs

  datatype Event<T> =
    | SourceEvent(e: R.Event<T>)
    | BranchEvent(branch: nat, e: R.Event<T>)
    | PullRuns(branch: nat)
    | PullWakes(branch: nat)
    | PullSettles(branch: nat)
    | ReadSettlementSeen

  /** What a branch's user can do; its start() always fulfils. */
  predicate UserSide<T>(e: R.Event<T>) {
    e.AcquireCall? || e.ReleaseCall? || e.ReadCall? || e.CancelCall? || (e.StartSettles? && e.r.Ok?)
  }

  function SettlePull<T>(b: Branch<T>): Branch<T>
    requires b.pull.Returned?
  {
    BranchStep(b.(pull := NoPull), R.Step(b.stream, R.PullSettles(b.pull.r)))
  }

  function Step<T>(t: Tee<T>, e: Event<T>): Tee<T> {
    match e
    case SourceEvent(e) => if R.SourceSide(e) then t.(source := R.Step(t.source, e)) else t
    case BranchEvent(i, e) =>
      if i < |t.branches| && UserSide(e) then
        WithBranch(t, i, BranchStep(t.branches[i], R.Step(t.branches[i].stream, e)))
      else t
    case PullRuns(i) => if i < |t.branches| && t.branches[i].pull.Called? then RunPull(t, i) else t
    case PullWakes(i) =>
      if i < |t.branches| && t.branches[i].pull.Woken? then WithBranch(t, i, Deliver(t.branches[i])) else t
    case PullSettles(i) =>
      if i < |t.branches| && t.branches[i].pull.Returned? then WithBranch(t, i, SettlePull(t.branches[i])) else t
    case ReadSettlementSeen => ReadSettles(t)
  }

  function Run<T>(t: Tee<T>, events: seq<Event<T>>): Tee<T>
    decreases |events|
  {
    if events == [] then t
    else Step(Run(t, events[..|events| - 1]), events[|events| - 1])
  }
}
