/** What every run of a default tee keeps, and what follows for its two branches. */
module TeeProofs {
  import opened Base
  import opened Fifo
  import opened TeeSpec
  import R = ReadableSpec
  import P = ReadableProofs
  import S = LockedSource

  /** The chunks among some items. */
  function Values<T>(items: seq<Item<T>>): seq<T> {
    if items == [] then []
    else
      Values(items[..|items| - 1])
      + if items[|items| - 1].Value? then [items[|items| - 1].value] else []
  }

  lemma ValuesAppend<T>(items: seq<Item<T>>, item: Item<T>)
    ensures Values(items + [item]) == Values(items) + if item.Value? then [item.value] else []
  {
    assert (items + [item])[..|items|] == items;
  }

  // ------------------------------------------------------- a branch's stream

  /** What the branch was given stays, and it accepts no longer than before. */
  ghost predicate Keeps<T>(s: R.Stream<T>, t: R.Stream<T>) {
    && t.enqueued == s.enqueued
    && (s.cancelled ==> t.cancelled)
    && (s.state.Errored? ==> t.state.Errored?)
    && (R.CanCloseOrEnqueue(t) ==> R.CanCloseOrEnqueue(s))
    && (R.CanCloseOrEnqueue(s) ==> R.CanCloseOrEnqueue(t) || t.cancelled || t.state.Errored?)
  }

  ghost predicate OnlyAnswers<T>(s: R.Stream<T>, t: R.Stream<T>) {
    && t.state == s.state && t.enqueued == s.enqueued && t.cancelled == s.cancelled
    && t.closeRequested == s.closeRequested && t.pullsOut == s.pullsOut
  }

  lemma AnswerKeeps<T>(s: R.Stream<T>, id: nat, r: R.Result<T>)
    ensures OnlyAnswers(s, R.Answer(s, id, r)) && R.Answer(s, id, r).waiters == s.waiters
  {}

  lemma {:induction false} AnswerAllKeeps<T>(s: R.Stream<T>, r: R.Result<T>)
    ensures OnlyAnswers(s, R.AnswerAll(s, r))
    decreases |s.waiters|
  {
    if s.waiters != [] {
      var u := R.Answer(s.(waiters := s.waiters[1..]), s.waiters[0], r);
      AnswerKeeps(s.(waiters := s.waiters[1..]), s.waiters[0], r);
      AnswerAllKeeps(u, r);
      assert R.AnswerAll(s, r) == R.AnswerAll(u, r);
    }
  }

  lemma ReadKeeps<T>(s: R.Stream<T>)
    requires P.Inv(s)
    ensures var t := R.Read(s);
            && Keeps(s, t) && t.cancelled == s.cancelled && t.state.Errored? == s.state.Errored?
            && s.pullsOut <= t.pullsOut
            && (s.pullsOut < t.pullsOut ==> R.CanCloseOrEnqueue(t))
  {
    if s.state.Readable? && s.queue != [] {
      var u := s.(queue := s.queue[1..], answers := s.answers + [R.Got(s.queue[0].item)]);
      AnswerAllKeeps(u.(state := R.Closed), R.Done);
    }
  }

  lemma UserStepKeeps<T>(s: R.Stream<T>, e: R.Event<T>)
    requires P.Inv(s) && UserSide(e)
    ensures var t := R.Step(s, e);
            && Keeps(s, t)
            && s.pullsOut <= t.pullsOut
            && (s.pullsOut < t.pullsOut ==> R.CanCloseOrEnqueue(t))
            && (t.state.Errored? ==> s.state.Errored?)
  {
    match e {
      case ReleaseCall => AnswerAllKeeps(s.(locked := false), R.ReadFailed(Released));
      case CancelCall => AnswerAllKeeps(s.(state := R.Closed), R.Done);
      case ReadCall => ReadKeeps(s);
      case _ =>
    }
  }

  /** A user's step can begin a pull() only while the branch accepts. */
  lemma UserStep<T>(s: R.Stream<T>, e: R.Event<T>)
    requires S.Sound(s) && UserSide(e)
    ensures var t := R.Step(s, e);
            && S.Sound(t) && Keeps(s, t)
            && s.pullsOut <= t.pullsOut <= 1
            && (s.pullsOut < t.pullsOut ==> R.CanCloseOrEnqueue(t))
            && (t.state.Errored? ==> s.state.Errored?)
  {
    S.SoundMeans(s);
    S.SoundMeans(R.Step(s, e));
    P.StepKeepsInv(s, e);
    UserStepKeeps(s, e);
  }

  lemma EnqueueStep<T>(s: R.Stream<T>, chunk: T)
    requires S.Sound(s) && R.CanCloseOrEnqueue(s) && s.pullsOut == 1
    ensures var t := R.Enqueue(s, chunk, Size(1));
            && S.Sound(t) && R.CanCloseOrEnqueue(t) && t.enqueued == s.enqueued + [chunk]
            && t.pullsOut == 1 && t.cancelled == s.cancelled
  {
    var t := R.Enqueue(s, chunk, Size(1));
    S.SoundMeans(s);
    S.SoundMeans(t);
    P.StepKeepsInv(s, R.EnqueueCall(chunk, Size(1)));
    assert R.Step(s, R.EnqueueCall(chunk, Size(1))) == t;
  }

  lemma CloseStep<T>(s: R.Stream<T>)
    requires S.Sound(s) && R.CanCloseOrEnqueue(s) && s.pullsOut == 1
    ensures var t := R.ControllerClose(s);
            && S.Sound(t) && !R.CanCloseOrEnqueue(t) && t.enqueued == s.enqueued
            && t.pullsOut == 1 && t.cancelled == s.cancelled && !t.state.Errored?
  {
    var t := R.ControllerClose(s);
    S.SoundMeans(s);
    S.SoundMeans(t);
    P.StepKeepsInv(s, R.CloseCall);
    assert R.Step(s, R.CloseCall) == t;
    AnswerAllKeeps(s.(state := R.Closed), R.Done);
  }

  lemma OnPullKeeps<T>(s: R.Stream<T>, r: Settlement)
    requires P.Inv(s) && s.pullsOut == 1
    ensures var t := R.OnPull(s, r);
            && Keeps(s, t) && t.cancelled == s.cancelled
            && (t.pullsOut == 1 ==> R.CanCloseOrEnqueue(t))
  {
    if r.Failed? {
      AnswerAllKeeps(s.(pullsOut := 0, state := R.Errored, error := r.error, queue := []), R.ReadFailed(r.error));
    }
  }

  lemma PullStep<T>(s: R.Stream<T>, r: Settlement)
    requires S.Sound(s) && s.pullsOut == 1
    ensures var t := R.Step(s, R.PullSettles(r));
            && S.Sound(t) && Keeps(s, t) && t.cancelled == s.cancelled
            && t.pullsOut <= 1
            && (t.pullsOut == 1 ==> R.CanCloseOrEnqueue(t))
  {
    S.SoundMeans(s);
    S.SoundMeans(R.Step(s, R.PullSettles(r)));
    P.StepKeepsInv(s, R.PullSettles(r));
    OnPullKeeps(s, r);
  }

  // ------------------------------------------------------------ the invariant

  ghost predicate Undisturbed<T>(s: R.Stream<T>) {
    !s.cancelled && !s.state.Errored?
  }

  /** What the branch accepted is what it took, up to the end mark, which closes it. */
  ghost predicate Content<T>(b: Branch<T>) {
    Undisturbed(b.stream) ==>
      && b.stream.enqueued == Values(b.consumed)
      && (End in b.consumed <==> !R.CanCloseOrEnqueue(b.stream))
      && (b.pull.Called? || b.pull.Awaiting? || b.pull.Woken? ==> R.CanCloseOrEnqueue(b.stream))
  }

  /** One pull() at a time; it awaits with an empty queue, and wakes to a filled one. */
  ghost predicate Pulls<T>(b: Branch<T>, pulling: bool) {
    && b.faults == 0
    && S.Sound(b.stream) && b.stream.pullsOut == (if b.pull.NoPull? then 0 else 1)
    && (b.pull.Awaiting? ==> pulling && b.queue == [])
    && (b.pull.Woken? ==> b.queue != [])
  }

  ghost predicate BranchInv<T>(b: Branch<T>, pulling: bool, log: seq<Item<T>>) {
    Pulls(b, pulling) && Content(b) && b.consumed + b.queue == log
  }

  /** The read that waits, if the shared read does. */
  function WaitingRead<T>(t: Tee<T>): Option<nat> {
    if t.pulling.Some? && t.pulling.value < |t.source.answers| && t.source.answers[t.pulling.value].Waiting? then
      t.pulling
    else None
  }

  /** What the shared read brought and nobody has seen yet. */
  function Unseen<T>(t: Tee<T>): seq<T> {
    if t.pulling.Some? && t.pulling.value < |t.source.answers| then S.Taken(t.source.answers[t.pulling.value]) else []
  }

  ghost predicate SourceInv<T>(t: Tee<T>) {
    && t.source.locked && S.WaitsFor(t.source, WaitingRead(t))
    && (t.pulling.Some? ==> t.pulling.value + 1 == |t.source.answers|)
    && P.Chunks(t.source.answers) == t.readBefore + Values(t.log) + Unseen(t)
  }

  ghost predicate Inv<T>(t: Tee<T>) {
    SourceInv(t) && forall i :: 0 <= i < |t.branches| ==> BranchInv(t.branches[i], t.pulling.Some?, t.log)
  }

  // --------------------------------------------------------------- branch steps

  lemma BranchEventKeeps<T>(b: Branch<T>, e: R.Event<T>, pulling: bool, log: seq<Item<T>>)
    requires BranchInv(b, pulling, log) && UserSide(e)
    ensures BranchInv(BranchStep(b, R.Step(b.stream, e)), pulling, log)
  {
    UserStep(b.stream, e);
  }

  lemma DeliverKeeps<T>(b: Branch<T>, pulling: bool, log: seq<Item<T>>)
    requires BranchInv(b, pulling, log) && b.queue != [] && (b.pull.Called? || b.pull.Woken?)
    ensures BranchInv(Deliver(b), pulling, log)
  {
    var item := b.queue[0];
    ValuesAppend(b.consumed, item);
    assert b.consumed + [item] + b.queue[1..] == b.consumed + b.queue;
    if R.CanCloseOrEnqueue(b.stream) {
      match item
      case Value(value) => EnqueueStep(b.stream, value);
      case End => CloseStep(b.stream);
    }
  }

  lemma SettlePullKeeps<T>(b: Branch<T>, pulling: bool, log: seq<Item<T>>)
    requires BranchInv(b, pulling, log) && b.pull.Returned?
    ensures BranchInv(SettlePull(b), pulling, log)
  {
    PullStep(b.stream, b.pull.r);
  }

  // ---------------------------------------------------------------- shared steps

  lemma WithBranchKeeps<T>(t: Tee<T>, i: nat, b: Branch<T>)
    requires Inv(t) && i < |t.branches| && BranchInv(b, t.pulling.Some?, t.log)
    ensures Inv(WithBranch(t, i, b))
  {}

  lemma SourceEventKeeps<T>(t: Tee<T>, e: R.Event<T>)
    requires Inv(t) && R.SourceSide(e)
    ensures Inv(t.(source := R.Step(t.source, e)))
  {
    S.SourceStep(t.source, e, WaitingRead(t));
    var u := t.(source := R.Step(t.source, e));
    assert t.readBefore + Values(t.log) + [] == t.readBefore + Values(t.log);
    if WaitingRead(t).None? && t.pulling.Some? {
      SettledAnswerStays(t.source, e, t.pulling.value);
    }
  }

  /** A read already answered keeps its answer. */
  lemma SettledAnswerStays<T>(s: R.Stream<T>, e: R.Event<T>, id: nat)
    requires S.WaitsFor(s, None) && R.SourceSide(e) && id < |s.answers|
    ensures R.Step(s, e).answers == s.answers
  {
    S.SoundMeans(s);
    S.SourceStepAnswers(s, e);
  }

  lemma RunPullKeeps<T>(t: Tee<T>, i: nat)
    requires Inv(t) && i < |t.branches| && t.branches[i].pull.Called?
    ensures Inv(RunPull(t, i))
  {
    var b := t.branches[i];
    assert BranchInv(b, t.pulling.Some?, t.log);
    hide SourceInv, Content;
    if b.queue != [] {
      DeliverKeeps(b, t.pulling.Some?, t.log);
      WithBranchKeeps(t, i, Deliver(b));
    } else if t.pulling.Some? {
      WithBranchKeeps(t, i, b.(pull := Awaiting));
    } else {
      StartReadKeeps(t, i);
    }
  }

  lemma SharedReadKeeps<T>(t: Tee<T>, u: Tee<T>)
    requires SourceInv(t) && t.pulling.None?
    requires u.source == R.Read(t.source) && u.pulling == Some(|t.source.answers|)
    requires u.readBefore == t.readBefore && u.log == t.log
    ensures SourceInv(u)
  {
    S.ReadAnswers(t.source);
    hide R.Read;
    assert t.readBefore + Values(t.log) + [] == t.readBefore + Values(t.log);
  }

  lemma StartReadKeeps<T>(t: Tee<T>, i: nat)
    requires Inv(t) && i < |t.branches| && t.branches[i].pull.Called?
    requires t.branches[i].queue == [] && t.pulling.None?
    ensures Inv(RunPull(t, i))
  {
    var u := RunPull(t, i);
    SharedReadKeeps(t, u);
    hide SourceInv, R.Read, Content;
    forall j | 0 <= j < |t.branches|
      ensures BranchInv(u.branches[j], true, u.log)
    {
      assert BranchInv(t.branches[j], false, t.log);
    }
  }

  lemma BringKeeps<T>(t: Tee<T>, item: Item<T>)
    requires Inv(t) && t.pulling.Some?
    requires WaitingRead(t).None? && Unseen(t) == if item.Value? then [item.value] else []
    ensures Inv(Bring(t, item))
  {
    ValuesAppend(t.log, item);
    var u := Bring(t, item);
    assert t.readBefore + Values(t.log) + Unseen(t) == t.readBefore + Values(u.log) + [];
    forall i | 0 <= i < |t.branches|
      ensures BranchInv(u.branches[i], false, u.log)
    {
      var b := t.branches[i];
      assert BranchInv(b, true, t.log);
      assert b.consumed + (b.queue + [item]) == (b.consumed + b.queue) + [item];
    }
  }

  lemma ReadSettlesKeeps<T>(t: Tee<T>)
    requires Inv(t)
    ensures Inv(ReadSettles(t))
  {
    if t.pulling.Some? {
      match t.source.answers[t.pulling.value]
      case Waiting =>
      case Got(value) => BringKeeps(t, Value(value));
      case Done => BringKeeps(t, End);
      case ReadFailed(reason) =>
        var u := ReadSettles(t);
        forall i | 0 <= i < |t.branches|
          ensures BranchInv(u.branches[i], false, u.log)
        {
          assert BranchInv(t.branches[i], true, t.log);
        }
    }
  }

  lemma StepKeepsInv<T>(t: Tee<T>, e: Event<T>)
    requires Inv(t)
    ensures Inv(Step(t, e))
  {
    match e
    case SourceEvent(e) => if R.SourceSide(e) { SourceEventKeeps(t, e); }
    case BranchEvent(i, e) =>
      if i < |t.branches| && UserSide(e) {
        BranchEventKeeps(t.branches[i], e, t.pulling.Some?, t.log);
        WithBranchKeeps(t, i, BranchStep(t.branches[i], R.Step(t.branches[i].stream, e)));
      }
    case PullRuns(i) => if i < |t.branches| && t.branches[i].pull.Called? { RunPullKeeps(t, i); }
    case PullWakes(i) =>
      if i < |t.branches| && t.branches[i].pull.Woken? {
        DeliverKeeps(t.branches[i], t.pulling.Some?, t.log);
        WithBranchKeeps(t, i, Deliver(t.branches[i]));
      }
    case PullSettles(i) =>
      if i < |t.branches| && t.branches[i].pull.Returned? {
        SettlePullKeeps(t.branches[i], t.pulling.Some?, t.log);
        WithBranchKeeps(t, i, SettlePull(t.branches[i]));
      }
    case ReadSettlementSeen => ReadSettlesKeeps(t);
  }

  lemma StartInv<T>(source: R.Stream<T>)
    requires P.Inv(source) && !source.locked
    ensures Inv(Start(source, P.Chunks(source.answers)))
  {
    P.StepKeepsInv(source, R.AcquireCall);
    var t := Start(source, P.Chunks(source.answers));
    S.SoundMeans(t.source);
    P.RunKeepsInv<T>(1, []);
    S.SoundMeans(NewBranch<T>().stream);
  }

  lemma {:induction false} RunKeepsInv<T>(t: Tee<T>, events: seq<Event<T>>)
    requires Inv(t)
    ensures Inv(Run(t, events))
    decreases |events|
  {
    if events != [] {
      RunKeepsInv(t, events[..|events| - 1]);
      StepKeepsInv(Run(t, events[..|events| - 1]), events[|events| - 1]);
    }
  }

  // ------------------------------------------------------------------- theorems

  /** The states a tee of an unlocked stream can reach. */
  ghost predicate Teed<T(!new)>(t: Tee<T>) {
    exists source: R.Stream<T>, events: seq<Event<T>> ::
      && P.Inv(source) && !source.locked
      && t == Run(Start(source, P.Chunks(source.answers)), events)
  }

  lemma TeedInv<T(!new)>(t: Tee<T>)
    requires Teed(t)
    ensures Inv(t)
  {
    var source: R.Stream<T>, events: seq<Event<T>> :|
      && P.Inv(source) && !source.locked
      && t == Run(Start(source, P.Chunks(source.answers)), events);
    StartInv(source);
    RunKeepsInv(Start(source, P.Chunks(source.answers)), events);
  }

  /** Each branch has taken, then queues, every item the tee read, the end mark included; the
      chunks among those are the source's, in order, and no shift found an empty queue. */
  lemma TeeConserves<T(!new)>(t: Tee<T>, i: nat)
    requires Teed(t) && i < |t.branches|
    ensures t.branches[i].consumed + t.branches[i].queue == t.log
    ensures t.branches[i].faults == 0
    ensures t.pulling.None? ==> P.Chunks(t.source.answers) == t.readBefore + Values(t.log)
    ensures t.readBefore + Values(t.log) <= P.Chunks(t.source.answers)
  {
    TeedInv(t);
  }

  /** At most one read of the source is outstanding: the shared one. */
  lemma OneSharedRead<T(!new)>(t: Tee<T>)
    requires Teed(t)
    ensures |t.source.waiters| <= 1
    ensures t.pulling.None? ==> t.source.waiters == []
    ensures forall i :: 0 <= i < |t.branches| && t.branches[i].pull.Awaiting? ==> t.pulling.Some?
  {
    TeedInv(t);
  }

  lemma {:induction false} ValuesSplit<T>(a: seq<Item<T>>, b: seq<Item<T>>)
    ensures Values(a + b) == Values(a) + Values(b)
    decreases |b|
  {
    if b == [] {
      assert a + b == a;
    } else {
      var n := |b| - 1;
      ValuesSplit(a, b[..n]);
      assert a + b == (a + b[..n]) + [b[n]];
      assert b == b[..n] + [b[n]];
      ValuesAppend(a + b[..n], b[n]);
      ValuesAppend(b[..n], b[n]);
    }
  }

  /** What a branch's reads got, its stream's queue and its private queue: the chunks the tee
      has taken from the source, in order and each once, while nobody cancels the branch and
      the source does not fail.  It is closed once it takes the end mark, not before. */
  ghost predicate SeesTheSource<T>(t: Tee<T>, b: Branch<T>) {
    && P.Chunks(b.stream.answers) + Items(b.stream.queue) + Values(b.queue) == Values(t.log)
    && (R.CanCloseOrEnqueue(b.stream) <==> End !in b.consumed)
  }

  lemma SeesFromInv<T>(t: Tee<T>, i: nat)
    requires Inv(t) && i < |t.branches| && Undisturbed(t.branches[i].stream)
    ensures SeesTheSource(t, t.branches[i])
  {
    S.SoundMeans(t.branches[i].stream);
    ValuesSplit(t.branches[i].consumed, t.branches[i].queue);
  }

  lemma BranchesSeeTheSource<T(!new)>(t: Tee<T>, i: nat)
    requires Teed(t) && i < |t.branches| && Undisturbed(t.branches[i].stream)
    ensures SeesTheSource(t, t.branches[i])
  {
    TeedInv(t);
    SeesFromInv(t, i);
  }
}
