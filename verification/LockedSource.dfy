/** What a pipe or a tee relies on in the source it has locked: reads are answered at once or wait alone, and no
    other step of the source changes an answer given. */
module LockedSource {
  import opened Base
  import opened ReadableSpec
  import R = ReadableSpec
  import P = ReadableProofs

  /** The invariant of the readable, folded away. */
  ghost predicate Sealed<T>(s: R.Stream<T>, n: nat) {
    if n == 0 then P.Inv(s) else Sealed(s, n - 1)
  }

  ghost predicate Sound<T>(s: R.Stream<T>) {
    Sealed(s, |s.answers| + 5)
  }

  lemma {:induction false} SealedMeans<T>(s: R.Stream<T>, n: nat)
    ensures Sealed(s, n) == P.Inv(s)
  {
    if n > 0 {
      SealedMeans(s, n - 1);
    }
  }

  lemma SoundMeans<T>(s: R.Stream<T>)
    ensures Sound(s) == P.Inv(s)
  {
    SealedMeans(s, |s.answers| + 5);
  }

  function Taken<T>(r: R.Result<T>): seq<T> {
    if r.Got? then [r.value] else []
  }

  /** What ended stays ended, and for the same reason. */
  ghost predicate Ends<T>(s: R.Stream<T>, t: R.Stream<T>) {
    && (s.state.Closed? ==> t.state.Closed?)
    && (s.state.Errored? ==> t.state.Errored? && t.error == s.error)
  }

  /** A step from `s` to `t` that issues no read and answers the waiting one or none. */
  ghost predicate Answers<T>(s: R.Stream<T>, t: R.Stream<T>) {
    && t.locked == s.locked
    && Ends(s, t)
    && ((t.waiters == s.waiters && t.answers == s.answers)
        || (&& |s.waiters| == 1 && t.waiters == [] && s.waiters[0] < |s.answers| == |t.answers|
            && !t.answers[s.waiters[0]].Waiting?
            && t.answers == s.answers[s.waiters[0] := t.answers[s.waiters[0]]]))
  }

  lemma AnswerAllAnswers<T>(s: R.Stream<T>, r: R.Result<T>)
    requires |s.waiters| <= 1 && !r.Waiting? && (s.waiters != [] ==> s.waiters[0] < |s.answers|)
    ensures Answers(s, AnswerAll(s, r))
    ensures AnswerAll(s, r) ==
              if s.waiters == [] then s else s.(waiters := [], answers := s.answers[s.waiters[0] := r])
  {}

  lemma ErrorAnswers<T>(s: R.Stream<T>, reason: Reason)
    requires |s.waiters| <= 1 && (s.waiters != [] ==> s.waiters[0] < |s.answers|)
    ensures Answers(s, ErrorStream(s, reason))
  {
    AnswerAllAnswers(s.(state := Errored, error := reason, queue := []), ReadFailed(reason));
  }

  lemma CloseAnswers<T>(s: R.Stream<T>)
    requires |s.waiters| <= 1 && (s.waiters != [] ==> s.waiters[0] < |s.answers|) && !s.state.Errored?
    ensures Answers(s, CloseStream(s)) && CloseStream(s).waiters == [] && CloseStream(s).state.Closed?
    ensures s.waiters != [] ==> CloseStream(s).answers == s.answers[s.waiters[0] := Done]
  {
    AnswerAllAnswers(s.(state := Closed), Done);
  }

  lemma EnqueueAnswers<T>(s: R.Stream<T>, chunk: T, size: SizeResult)
    requires |s.waiters| <= 1 && (s.waiters != [] ==> s.waiters[0] < |s.answers|)
    ensures Answers(s, R.Enqueue(s, chunk, size))
  {
    if !size.Size? {
      ErrorAnswers(s, size.error);
    }
  }

  lemma OnStartAnswers<T>(s: R.Stream<T>, r: Settlement)
    requires |s.waiters| <= 1 && (s.waiters != [] ==> s.waiters[0] < |s.answers|)
    ensures Answers(s, R.OnStart(s, r))
  {
    if r.Failed? {
      ErrorAnswers(s.(startOut := false), r.error);
    }
  }

  lemma OnPullAnswers<T>(s: R.Stream<T>, r: Settlement)
    requires |s.waiters| <= 1 && (s.waiters != [] ==> s.waiters[0] < |s.answers|) && s.pullsOut > 0
    ensures Answers(s, R.OnPull(s, r))
  {
    if r.Failed? {
      ErrorAnswers(s.(pullsOut := s.pullsOut - 1), r.error);
    }
  }

  lemma SourceStepAnswers<T>(s: R.Stream<T>, e: R.Event<T>)
    requires P.Inv(s) && SourceSide(e) && |s.waiters| <= 1
    ensures Answers(s, R.Step(s, e))
  {
    WaiterIsARead(s);
    match e {
      case EnqueueCall(chunk, size) => EnqueueAnswers(s, chunk, size);
      case CloseCall =>
        if s.state.Readable? {
          CloseAnswers(s);
        }
      case ErrorCall(reason) => ErrorAnswers(s, reason);
      case StartSettles(r) => OnStartAnswers(s, r);
      case PullSettles(r) =>
        if s.pullsOut > 0 {
          OnPullAnswers(s, r);
        }
      case _ =>
    }
  }

  lemma WaiterIsARead<T>(s: R.Stream<T>)
    requires P.Inv(s)
    ensures s.waiters != [] ==> s.waiters[0] < |s.answers|
  {}

  /** An answer to the only waiting read adds its chunk to those read. */
  lemma AnswerAddsChunk<T>(s: R.Stream<T>, t: R.Stream<T>)
    requires P.Inv(s) && Answers(s, t) && |s.waiters| == 1 && t.waiters == []
    ensures s.waiters == [|s.answers| - 1]
    ensures P.Chunks(t.answers) == P.Chunks(s.answers) + Taken(t.answers[|t.answers| - 1])
  {
    P.AnswerFirst(s.answers, s.waiters[0], t.answers[s.waiters[0]]);
  }

  // --------------------------------------------------------- what its reader uses

  /** A read waits exactly when `id` says which: the last. */
  ghost predicate WaitsFor<T>(s: R.Stream<T>, id: Option<nat>) {
    && Sound(s)
    && s.waiters == OptionSeq(id)
    && (id.Some? ==> id.value + 1 == |s.answers| && s.answers[id.value].Waiting? && s.state.Readable?)
  }

  /** The source after a step of its own: the waiting read may have been answered. */
  lemma SourceStep<T>(s: R.Stream<T>, e: R.Event<T>, id: Option<nat>)
    requires WaitsFor(s, id) && SourceSide(e)
    ensures var t := R.Step(s, e);
            && |t.answers| == |s.answers| && t.locked == s.locked && Ends(s, t)
            && (WaitsFor(t, id) ==> P.Chunks(t.answers) == P.Chunks(s.answers))
            && (!WaitsFor(t, id) ==> && WaitsFor(t, None) && id.Some? && !t.answers[id.value].Waiting?
                                     && P.Chunks(t.answers) == P.Chunks(s.answers) + Taken(t.answers[id.value]))
  {
    var t := R.Step(s, e);
    SoundMeans(s);
    SoundMeans(t);
    P.StepKeepsInv(s, e);
    SourceStepAnswers(s, e);
    if t.waiters != s.waiters {
      AnswerAddsChunk(s, t);
    }
  }

  lemma CancelAnswers<T>(s: R.Stream<T>, id: Option<nat>)
    requires WaitsFor(s, id)
    ensures var t := R.Cancel(s);
            && |t.answers| == |s.answers| && t.locked == s.locked
            && WaitsFor(t, None)
            && P.Chunks(t.answers) == P.Chunks(s.answers)
            && Ends(s, t)
            && (id.Some? ==> t.answers[id.value].Done?)
            && !t.state.Readable?
  {
    var t := R.Cancel(s);
    SoundMeans(s);
    SoundMeans(t);
    P.CancelKeepsInv(s);
    if s.state.Readable? {
      CloseAnswers(s);
      if t.waiters != s.waiters {
        AnswerAddsChunk(s, t);
      }
    }
  }

  /** The answer a read gets there and then. */
  function FirstAnswer<T>(s: R.Stream<T>): R.Result<T> {
    match s.state
    case Closed => Done
    case Errored => ReadFailed(s.error)
    case Readable => if s.queue == [] then Waiting else Got(s.queue[0].item)
  }

  lemma ReadEffect<T>(s: R.Stream<T>)
    requires s.waiters == []
    ensures var t := R.Read(s);
            && t.answers == s.answers + [FirstAnswer(s)] && t.locked == s.locked && Ends(s, t)
            && t.waiters == (if FirstAnswer(s).Waiting? then [|s.answers|] else [])
            && (FirstAnswer(s).Waiting? ==> t.state.Readable?)
  {
    if s.state.Readable? && s.queue != [] {
      CloseAnswers(s.(queue := s.queue[1..], answers := s.answers + [Got(s.queue[0].item)]));
    }
  }

  /** A read of the locked source is answered at once, or is the one that waits. */
  lemma ReadAnswers<T>(s: R.Stream<T>)
    requires WaitsFor(s, None) && s.locked
    ensures var t := R.Read(s);
            && |t.answers| == |s.answers| + 1 && t.locked && Ends(s, t)
            && P.Chunks(t.answers) == P.Chunks(s.answers) + Taken(t.answers[|s.answers|])
            && (t.answers[|s.answers|].Waiting? ==> WaitsFor(t, Some(|s.answers|)))
            && (!t.answers[|s.answers|].Waiting? ==> WaitsFor(t, None))
            && (t.answers[|s.answers|].Got? ==> s.state.Readable?)
  {
    ReadStaysSound(s);
    ReadEffect(s);
    P.AddRead(s.answers, FirstAnswer(s));
  }

  lemma ReadStaysSound<T>(s: R.Stream<T>)
    requires Sound(s) && s.locked
    ensures Sound(R.Read(s))
  {
    SoundMeans(s);
    SoundMeans(R.Read(s));
    P.StepKeepsInv(s, R.ReadCall);
    assert R.Step(s, R.ReadCall) == R.Read(s);
  }
}
