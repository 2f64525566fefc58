/** What a byte stream answers before and after its end: while it is readable no read is told
    the end, and once it is not, none gets bytes that are not the last. */
module ByteEnds {
  import opened ByteSpec
  import opened ByteProofs
  import opened ByteWhole
  import opened ByteSettles
  import opened ByteSteps

  /** The answer tells the end of the stream. */
  predicate Ends(a: Answer) {
    a.Done? || (a.View? && a.done)
  }

  /** The answer has bytes, and more may come. */
  predicate Feeds(a: Answer) {
    a.Chunk? || (a.View? && !a.done)
  }

  /** The end is told only by a stream that is not readable, and a stream that is not readable
      feeds nobody and stays so. */
  ghost predicate Timely(s: Stream, t: Stream) {
    && |s.answers| <= |t.answers|
    && (t.state.Readable? ==> forall i :: 0 <= i < |t.answers| ==> !Ends(t.answers[i]))
    && (!s.state.Readable? ==>
          && !t.state.Readable?
          && forall i :: 0 <= i < |t.answers| && Feeds(t.answers[i]) ==> i < |s.answers| && Feeds(s.answers[i]))
  }

  /** Past the end a waiting read is not fed. */
  lemma NotFed(s: Stream, e: Event, after: seq<Answer>, t: Stream, i: nat)
    requires !s.state.Readable? && |after| == |s.answers| && i < |after| && s.answers[i].Waiting?
    requires WaitingFollow(s, e, after, t)
    ensures !Feeds(after[i])
  {
    if HandsOver(s, e) {
      var views := Views(Unreleased(s.pullIntos), true);
      if i in s.readIntos[..|views|] {
        var k :| 0 <= k < |views| && s.readIntos[..|views|][k] == i;
        assert after[s.readIntos[k]] == views[k];
      }
    }
  }

  lemma FollowsTimely(s: Stream, e: Event, t: Stream)
    requires Follows(s, e, t) && Truthful(t)
    ensures Timely(s, t)
  {
    if !s.state.Readable? {
      var after := t.answers[..|s.answers|];
      forall i | 0 <= i < |t.answers| && Feeds(t.answers[i])
        ensures i < |s.answers| && Feeds(s.answers[i])
      {
        if i < |s.answers| {
          assert t.answers[i] == after[i];
          if s.answers[i].Waiting? {
            NotFed(s, e, after, t, i);
          }
        }
      }
    }
  }

  lemma StepTimely(s: Stream, e: Event)
    requires Inv(s) && Truthful(s)
    ensures Timely(s, Step(s, e))
  {
    StepFollows(s, e);
    StepTruthful(s, e);
    hide Step, Follows, Truthful, Inv;
    FollowsTimely(s, e, Step(s, e));
  }
}
