/** All that is proved of a byte stream, step by step, and what its users have of it. */
module BytePromises {
  import opened ByteSpec
  import opened ByteProofs
  import opened ByteRequests
  import opened ByteWhole
  import opened ByteAnswers
  import Steps = ByteSteps

  /** Everything that is proved of a byte stream. */
  ghost predicate Proved(s: Stream) {
    Inv(s) && Whole(s) && Matched(s) && Logged(s) && Steps.Truthful(s)
  }

  /** The same, behind a count that the verifier does not unfold to the end: lemmas that only
      hand the fact on stay small.  `Seal` and `Unseal` go between the two. */
  ghost predicate Sealed(s: Stream, n: nat) {
    if n == 0 then Proved(s) else Sealed(s, n - 1)
  }

  ghost predicate Good(s: Stream) {
    Sealed(s, |s.answers| + 5)
  }

  lemma {:induction false} UnsealAt(s: Stream, n: nat)
    requires Sealed(s, n)
    ensures Proved(s)
  {
    if n > 0 {
      UnsealAt(s, n - 1);
    }
  }

  lemma {:induction false} SealAt(s: Stream, n: nat)
    requires Proved(s)
    ensures Sealed(s, n)
  {
    if n > 0 {
      SealAt(s, n - 1);
    }
  }

  lemma Unseal(s: Stream)
    requires Good(s)
    ensures Proved(s)
  {
    UnsealAt(s, |s.answers| + 5);
  }

  lemma Seal(s: Stream)
    requires Proved(s)
    ensures Good(s)
  {
    SealAt(s, |s.answers| + 5);
  }

  lemma StepProved(s: Stream, e: Event)
    requires Proved(s)
    ensures Proved(Step(s, e)) && Follows(s, Step(s, e))
  {
    Steps.StepTruthful(s, e);
    StepKeepsInv(s, e);
    StepMatched(s, e);
    StepWhole(s, e);
    StepFollows(s, e);
  }

  lemma StepGood(s: Stream, e: Event)
    requires Good(s)
    ensures Good(Step(s, e))
  {
    Unseal(s);
    StepProved(s, e);
    Seal(Step(s, e));
  }

  /** The bytes of the reads' answers, in the order they were given, are what was supplied up
      to what is held and queued; a view has whole elements and fits what its read asked for;
      nothing was answered twice; and a read was told the end or an error only if that is so. */
  ghost predicate KeepsPromises(s: Stream) {
    && Handed(s.answers, s.order) <= s.supplied
    && (s.state.Readable? ==> Handed(s.answers, s.order) + Held(s.pullIntos) + Flatten(s.queue) == s.supplied)
    && |s.asked| == |s.answers|
    && (forall i :: 0 <= i < |s.answers| ==> Fits(s.answers[i], s.asked[i]))
    && s.faults == 0 && s.pullsOut <= 1
    && Steps.Truthful(s)
  }

  lemma PromisesFrom(s: Stream)
    requires Proved(s)
    ensures KeepsPromises(s)
  {
    PrefixOfPrefix(s.delivered, Held(s.pullIntos), s.supplied);
  }

  lemma InitGood(highWaterMark: nat)
    ensures Good(Init(highWaterMark))
  {
    assert Run(Init(highWaterMark), []) == Init(highWaterMark);
    RunKeepsInv(highWaterMark, []);
    RunMatched(highWaterMark, []);
    RunLogged(highWaterMark, []);
    Seal(Init(highWaterMark));
  }
}
