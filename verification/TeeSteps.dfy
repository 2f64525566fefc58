/** How the failure of its source reaches the branches of a default tee, and that nothing else
    fails them. */
module TeeSteps {
  import opened Base
  import opened TeeSpec
  import opened TeeProofs
  import R = ReadableSpec
  import P = ReadableProofs
  import RS = ReadableSteps
  import S = LockedSource

  ghost predicate FailedWith<T>(s: R.Stream<T>, reason: Reason) {
    s.state.Errored? && s.error == reason
  }

  /** A branch has failed only as the source did; a pull() that throws something else does so
      on a branch that has ended, which does not notice. */
  ghost predicate FailsAs<T>(b: Branch<T>, source: R.Stream<T>) {
    && (b.stream.state.Errored? ==> FailedWith(source, b.stream.error))
    && (b.pull.Returned? && b.pull.r.Failed? && b.stream.state.Readable? ==> FailedWith(source, b.pull.r.error))
  }

  /** The shared read has failed only with the source. */
  ghost predicate ReadFailsAs<T>(s: R.Stream<T>, pulling: Option<nat>) {
    pulling.Some? && pulling.value < |s.answers| && s.answers[pulling.value].ReadFailed? ==>
      FailedWith(s, s.answers[pulling.value].reason)
  }

  ghost predicate Faithful<T>(t: Tee<T>) {
    ReadFailsAs(t.source, t.pulling) && forall i :: 0 <= i < |t.branches| ==> FailsAs(t.branches[i], t.source)
  }

  // ------------------------------------------------------------------ the branches

  lemma StreamStep<T>(s: R.Stream<T>, e: R.Event<T>)
    requires S.Sound(s)
    ensures var t := R.Step(s, e);
            && RS.StateFollows(s, e, t) && RS.AnswersFollow(s, e, t)
            && (s.cancelled ==> !s.state.Readable?)
            && (!s.state.Readable? ==> forall i :: 0 <= i < |s.answers| ==> !s.answers[i].Waiting?)
  {
    S.SoundMeans(s);
    RS.StepFollows(s, e);
    hide R.Step;
  }

  lemma BranchEventFails<T>(b: Branch<T>, e: R.Event<T>, source: R.Stream<T>)
    requires S.Sound(b.stream) && FailsAs(b, source) && UserSide(e)
    ensures FailsAs(BranchStep(b, R.Step(b.stream, e)), source)
  {
    StreamStep(b.stream, e);
    hide R.Step;
  }

  lemma SettlePullFails<T>(b: Branch<T>, source: R.Stream<T>)
    requires S.Sound(b.stream) && FailsAs(b, source) && b.pull.Returned?
    ensures FailsAs(SettlePull(b), source)
  {
    StreamStep(b.stream, R.PullSettles(b.pull.r));
    hide R.Step;
  }

  lemma DeliverFails<T>(b: Branch<T>, pulling: bool, log: seq<Item<T>>, source: R.Stream<T>)
    requires BranchInv(b, pulling, log) && b.queue != [] && (b.pull.Called? || b.pull.Woken?)
    requires FailsAs(b, source)
    ensures FailsAs(Deliver(b), source)
  {
    var s := b.stream;
    if R.CanCloseOrEnqueue(s) {
      match b.queue[0]
      case Value(value) => EnqueueStep(s, value);
      case End => CloseStep(s);
    } else {
      StreamStep(s, R.CloseCall);
    }
    hide R.Enqueue, R.ControllerClose;
  }

  // -------------------------------------------------------------------- the source

  lemma SourceEventFails<T>(t: Tee<T>, e: R.Event<T>)
    requires S.Sound(t.source) && R.SourceSide(e) && Faithful(t)
    ensures Faithful(t.(source := R.Step(t.source, e)))
  {
    StreamStep(t.source, e);
    hide R.Step;
  }

  lemma SharedReadFails<T>(s: R.Stream<T>)
    requires S.Sound(s) && s.locked
    ensures var t := R.Read(s);
            && ReadFailsAs(t, Some(|s.answers|))
            && (s.state.Errored? ==> t.state.Errored? && t.error == s.error)
  {
    assert R.Step(s, R.ReadCall) == R.Read(s);
    StreamStep(s, R.ReadCall);
    hide R.Read, R.Step;
  }

  lemma RunPullFails<T>(t: Tee<T>, i: nat)
    requires Inv(t) && Faithful(t) && i < |t.branches| && t.branches[i].pull.Called?
    ensures Faithful(RunPull(t, i))
  {
    var b := t.branches[i];
    assert BranchInv(b, t.pulling.Some?, t.log);
    if b.queue != [] {
      DeliverFails(b, t.pulling.Some?, t.log, t.source);
      hide Deliver;
    } else if t.pulling.None? {
      SharedReadFails(t.source);
      hide R.Read;
    }
  }

  // --------------------------------------------------------------------------- runs

  lemma StepFaithful<T>(t: Tee<T>, e: Event<T>)
    requires Inv(t) && Faithful(t)
    ensures Faithful(Step(t, e))
  {
    hide R.Step, Deliver;
    match e
    case SourceEvent(e) => if R.SourceSide(e) { SourceEventFails(t, e); }
    case BranchEvent(i, e) =>
      if i < |t.branches| && UserSide(e) {
        assert BranchInv(t.branches[i], t.pulling.Some?, t.log);
        BranchEventFails(t.branches[i], e, t.source);
      }
    case PullRuns(i) => if i < |t.branches| && t.branches[i].pull.Called? { RunPullFails(t, i); }
    case PullWakes(i) =>
      if i < |t.branches| && t.branches[i].pull.Woken? {
        assert BranchInv(t.branches[i], t.pulling.Some?, t.log);
        DeliverFails(t.branches[i], t.pulling.Some?, t.log, t.source);
      }
    case PullSettles(i) =>
      if i < |t.branches| && t.branches[i].pull.Returned? {
        assert BranchInv(t.branches[i], t.pulling.Some?, t.log);
        SettlePullFails(t.branches[i], t.source);
      }
    case ReadSettlementSeen =>
  }

  lemma {:induction false} RunFaithful<T>(source: R.Stream<T>, events: seq<Event<T>>)
    requires P.Inv(source) && !source.locked
    ensures var t := Run(Start(source, P.Chunks(source.answers)), events); Inv(t) && Faithful(t)
    decreases |events|
  {
    var t := Start(source, P.Chunks(source.answers));
    StartInv(source);
    RunKeepsInv(t, events);
    if events != [] {
      RunFaithful(source, events[..|events| - 1]);
      StepFaithful(Run(t, events[..|events| - 1]), events[|events| - 1]);
    }
  }

  lemma TeedFaithful<T(!new)>(t: Tee<T>)
    requires Teed(t)
    ensures Faithful(t)
  {
    var source: R.Stream<T>, events: seq<Event<T>> :|
      && P.Inv(source) && !source.locked
      && t == Run(Start(source, P.Chunks(source.answers)), events);
    RunFaithful(source, events);
  }

  /** A branch fails only if the source does, and with the same error. */
  lemma BranchFailsWithTheSource<T(!new)>(t: Tee<T>, i: nat)
    requires Teed(t) && i < |t.branches| && t.branches[i].stream.state.Errored?
    ensures t.source.state.Errored? && t.branches[i].stream.error == t.source.error
  {
    TeedFaithful(t);
  }

  /** A shared read that fails rejects the pull() of every branch that awaits it with the error
      of the source, and the branch fails with that if it is still readable. */
  lemma FailureReachesBranches<T(!new)>(t: Tee<T>, i: nat)
    requires Teed(t) && i < |t.branches| && t.branches[i].pull.Awaiting?
    requires t.pulling.Some? && t.pulling.value < |t.source.answers|
    requires t.source.answers[t.pulling.value].ReadFailed?
    ensures var u := Step(t, ReadSettlementSeen);
            && u.pulling.None? && u.branches[i].pull == Returned(Failed(t.source.error))
            && var b := Step(u, PullSettles(i)).branches[i];
               t.branches[i].stream.state.Readable? ==> FailedWith(b.stream, t.source.error)
  {
    TeedFaithful(t);
    TeedInv(t);
    var b := t.branches[i];
    assert BranchInv(b, true, t.log);
    StreamStep(b.stream, R.PullSettles(Failed(t.source.error)));
    hide R.Step, Inv, Faithful;
  }
}
