/** What one step of a default readable does to its state, its reads and its pulls, said of the
    states before and after it. */
module ReadableSteps {
  import opened Base
  import opened Fifo
  import opened ReadableSpec
  import opened ReadableProofs

  /** What the step fails a readable stream with, if it does. */
  function Failure<T>(s: Stream<T>, e: Event<T>): Option<Reason> {
    match e
    case ErrorCall(reason) => Some(reason)
    case StartSettles(Failed(reason)) => if s.startOut then Some(reason) else None
    case PullSettles(Failed(reason)) => if s.pullsOut > 0 then Some(reason) else None
    case EnqueueCall(_, size) =>
      if !s.closeRequested && s.waiters == [] && !size.Size? then Some(size.error) else None
    case _ => None
  }

  /** A cancel, a close() with nothing queued, or the read of the last chunk after a close(). */
  predicate Closes<T>(s: Stream<T>, e: Event<T>) {
    || e.CancelCall?
    || (e.CloseCall? && !s.closeRequested && s.queue == [])
    || (e.ReadCall? && s.locked && s.closeRequested && |s.queue| == 1)
  }

  ghost predicate StateFollows<T>(s: Stream<T>, e: Event<T>, t: Stream<T>) {
    if !s.state.Readable? then t.state == s.state && t.error == s.error
    else if Failure(s, e).Some? then t.state.Errored? && t.error == Failure(s, e).value
    else if Closes(s, e) then t.state.Closed?
    else t.state.Readable?
  }

  /** What becomes of a read that waits: all of them fail with the stream or are told its end,
      and fail when their reader is released; a chunk goes to the first. */
  function Becomes<T>(s: Stream<T>, e: Event<T>, first: bool): Result<T> {
    if Failure(s, e).Some? then ReadFailed(Failure(s, e).value)
    else if Closes(s, e) then Done
    else if e.ReleaseCall? then ReadFailed(Released)
    else if e.EnqueueCall? && !s.closeRequested && first then Got(e.chunk)
    else Waiting
  }

  /** What a new read finds. */
  function Finds<T>(s: Stream<T>): Result<T> {
    match s.state
    case Closed => Done
    case Errored => ReadFailed(s.error)
    case Readable => if s.queue == [] then Waiting else Got(s.queue[0].item)
  }

  /** Reads are numbered as they come, and one that was answered keeps its answer. */
  ghost predicate AnswersFollow<T>(s: Stream<T>, e: Event<T>, t: Stream<T>) {
    && |t.answers| == |s.answers| + (if e.ReadCall? && s.locked then 1 else 0)
    && (forall i :: 0 <= i < |s.answers| ==>
          t.answers[i] == if s.answers[i].Waiting? then Becomes(s, e, i == |s.answers| - |s.waiters|) else s.answers[i])
    && (e.ReadCall? && s.locked ==> t.answers[|s.answers|] == Finds(s))
  }

  /** The queue, with what each chunk is charged at. */
  ghost predicate QueueFollows<T>(s: Stream<T>, e: Event<T>, t: Stream<T>) {
    t.queue ==
      if !t.state.Readable? then []
      else if e.EnqueueCall? && !s.closeRequested && s.waiters == [] && e.size.Size? then
        s.queue + [Entry(e.chunk, e.size.size)]
      else if e.ReadCall? && s.locked && s.queue != [] then s.queue[1..]
      else s.queue
  }

  /** Somebody wants a chunk: a read that waits, or room in the queue. */
  predicate Demand<T>(s: Stream<T>) {
    && s.state.Readable? && s.started && !s.closeRequested
    && (s.waiters != [] || Total(s.queue) < s.highWaterMark)
  }

  /** After these the stream looks whether it has to pull. */
  predicate Prompts<T>(s: Stream<T>, e: Event<T>) {
    || (e.ReadCall? && s.locked)
    || e.EnqueueCall?
    || (e.StartSettles? && s.startOut && e.r.Ok?)
    || (e.PullSettles? && s.pullsOut > 0 && e.r.Ok? && s.pullAgain)
  }

  /** The pulls in flight once the step has heard from its own. */
  function Left<T>(s: Stream<T>, e: Event<T>): nat {
    if e.PullSettles? && s.pullsOut > 0 then s.pullsOut - 1 else s.pullsOut
  }

  /** pull() is called only on demand, and a demand is not forgotten: there is a pull in flight
      afterwards, and if that was called before, another will follow it. */
  ghost predicate PullsFollow<T>(s: Stream<T>, e: Event<T>, t: Stream<T>) {
    && (t.pullsOut == Left(s, e) || (t.pullsOut == Left(s, e) + 1 && Demand(t)))
    && (Prompts(s, e) && Demand(t) ==> t.pullsOut == 1 && (Left(s, e) == 1 ==> t.pullAgain))
  }

  ghost predicate Follows<T>(s: Stream<T>, e: Event<T>, t: Stream<T>) {
    && StateFollows(s, e, t) && AnswersFollow(s, e, t) && QueueFollows(s, e, t) && PullsFollow(s, e, t)
    && t.locked == (if e.AcquireCall? then true else if e.ReleaseCall? then false else s.locked)
    && (t.state.Readable? ==>
          t.closeRequested == (s.closeRequested || (e.CloseCall? && s.queue != [])))
  }

  // ------------------------------------------------------------- one step

  /** Answering every waiting read, seen from each read. */
  lemma AllAnswered<T>(s: Stream<T>, u: Stream<T>, r: Result<T>)
    requires Waiters(s) && u.waiters == s.waiters && u.answers == s.answers && !r.Waiting? && !r.Got?
    ensures var t := AnswerAll(u, r);
            && t == u.(waiters := [], answers := t.answers) && |t.answers| == |s.answers|
            && forall i :: 0 <= i < |s.answers| ==> t.answers[i] == if s.answers[i].Waiting? then r else s.answers[i]
  {
    AnswerAllEffect(u, r);
  }

  /** A step that gives every waiting read the same answer. */
  ghost predicate AnswersAll<T>(s: Stream<T>, t: Stream<T>, r: Result<T>) {
    && |t.answers| == |s.answers|
    && forall i :: 0 <= i < |s.answers| ==> t.answers[i] == if s.answers[i].Waiting? then r else s.answers[i]
  }

  lemma AnswersAllFollow<T>(s: Stream<T>, e: Event<T>, t: Stream<T>, r: Result<T>)
    requires AnswersAll(s, t, r) && !e.ReadCall? && r == Becomes(s, e, true) && r == Becomes(s, e, false)
    ensures AnswersFollow(s, e, t)
  {}

  /** A stream that has ended has nothing queued and nobody waiting. */
  ghost predicate Ended<T>(s: Stream<T>) {
    && !s.state.Readable? && s.queue == [] && s.waiters == []
    && forall i :: 0 <= i < |s.answers| ==> !s.answers[i].Waiting?
  }

  lemma IsEnded<T>(s: Stream<T>)
    requires Inv(s) && !s.state.Readable?
    ensures Ended(s)
  {}

  lemma FailedFollows<T>(s: Stream<T>, e: Event<T>, u: Stream<T>, reason: Reason)
    requires Inv(s) && Failure(s, e) == Some(reason)
    requires u == s.(startOut := u.startOut, pullsOut := Left(s, e))
    ensures Follows(s, e, ErrorStream(u, reason))
  {
    if s.state.Readable? {
      FailingFollows(s, e, u, reason);
    } else {
      IsEnded(s);
      hide Inv;
    }
  }

  lemma FailingFollows<T>(s: Stream<T>, e: Event<T>, u: Stream<T>, reason: Reason)
    requires Waiters(s) && s.state.Readable? && Failure(s, e) == Some(reason)
    requires u == s.(startOut := u.startOut, pullsOut := Left(s, e))
    ensures Follows(s, e, ErrorStream(u, reason))
  {
    AllAnswered(s, u.(state := Errored, error := reason, queue := []), ReadFailed(reason));
    AnswersAllFollow(s, e, ErrorStream(u, reason), ReadFailed(reason));
    hide AnswerAll, Waiters, AnswersFollow;
  }

  lemma ClosedFollows<T>(s: Stream<T>, e: Event<T>, t: Stream<T>)
    requires Waiters(s) && s.state.Readable? && (e.CancelCall? || e.CloseCall?) && Closes(s, e)
    requires t == CloseStream(s).(queue := [], cancelled := t.cancelled)
    ensures Follows(s, e, t)
  {
    AllAnswered(s, s.(state := Closed), Done);
    AnswersAllFollow(s, e, t, Done);
    hide AnswerAll, Waiters, AnswersFollow;
  }

  lemma ReleaseFollows<T>(s: Stream<T>)
    requires Waiters(s) && (!s.state.Readable? ==> s.queue == [])
    ensures Follows(s, ReleaseCall, Step(s, ReleaseCall))
  {
    if s.locked {
      AllAnswered(s, s.(locked := false), ReadFailed(Released));
      AnswersAllFollow(s, ReleaseCall, Release(s), ReadFailed(Released));
      hide AnswerAll, Waiters, AnswersFollow;
    }
  }

  lemma TakeChunkFollows<T>(s: Stream<T>)
    requires Inv(s) && s.state.Readable? && s.locked && s.queue != []
    ensures Follows(s, ReadCall, Read(s))
  {
    var t := s.(queue := s.queue[1..], answers := s.answers + [Got(s.queue[0].item)]);
    assert CloseStream(t) == t.(state := Closed);
  }

  lemma WaitFollows<T>(s: Stream<T>)
    requires Inv(s) && s.locked && s.state.Readable? && s.queue == []
    ensures Follows(s, ReadCall, Read(s))
  {}

  lemma EndedReadFollows<T>(s: Stream<T>)
    requires Ended(s) && s.locked
    ensures Follows(s, ReadCall, Read(s))
  {
    hide TakeChunk, CallPullIfNeeded;
  }

  lemma ReadFollows<T>(s: Stream<T>)
    requires Inv(s) && s.locked
    ensures Follows(s, ReadCall, Read(s))
  {
    hide Inv, Follows, Read;
    if !s.state.Readable? {
      IsEnded(s);
      EndedReadFollows(s);
    } else if s.queue != [] {
      TakeChunkFollows(s);
    } else {
      WaitFollows(s);
    }
  }

  lemma EnqueueFollows<T>(s: Stream<T>, chunk: T, size: SizeResult)
    requires Inv(s)
    ensures Follows(s, EnqueueCall(chunk, size), Enqueue(s, chunk, size))
  {
    var e := EnqueueCall(chunk, size);
    if CanCloseOrEnqueue(s) && s.waiters == [] && !size.Size? {
      FailedFollows(s, e, s, size.error);
    }
  }

  lemma CloseFollows<T>(s: Stream<T>)
    requires Inv(s)
    ensures Follows(s, CloseCall, ControllerClose(s))
  {
    if CanCloseOrEnqueue(s) && s.queue == [] {
      AllAnswered(s, s.(state := Closed), Done);
      ClosedFollows(s, CloseCall, CloseStream(s));
    }
  }

  lemma CancelFollows<T>(s: Stream<T>)
    requires Inv(s)
    ensures Follows(s, CancelCall, Cancel(s))
  {
    if s.state.Readable? {
      ClosedFollows(s, CancelCall, Cancel(s));
    }
  }

  lemma StartFollows<T>(s: Stream<T>, r: Settlement)
    requires Inv(s) && s.startOut
    ensures Follows(s, StartSettles(r), OnStart(s, r))
  {
    if r.Failed? {
      FailedFollows(s, StartSettles(r), s.(startOut := false), r.error);
    }
  }

  lemma PullFollows<T>(s: Stream<T>, r: Settlement)
    requires Inv(s) && s.pullsOut > 0
    ensures Follows(s, PullSettles(r), OnPull(s, r))
  {
    if r.Failed? {
      FailedFollows(s, PullSettles(r), s.(pullsOut := s.pullsOut - 1), r.error);
    }
  }

  /** The step does not apply, or only locks the stream. */
  lemma NothingFollows<T>(s: Stream<T>, e: Event<T>)
    requires Inv(s)
    requires match e
             case AcquireCall => true
             case ReadCall => !s.locked
             case StartSettles(_) => !s.startOut
             case PullSettles(_) => s.pullsOut == 0
             case _ => false
    ensures Follows(s, e, Step(s, e))
  {}

  /** Every step, from every state that keeps the invariant. */
  lemma StepFollows<T>(s: Stream<T>, e: Event<T>)
    requires Inv(s)
    ensures Follows(s, e, Step(s, e))
  {
    if e.ReleaseCall? {
      ReleaseFollows(s);
    }
    hide Inv, Follows, Release, Read, Cancel, Enqueue, ControllerClose, ErrorStream, OnStart, OnPull;
    match e
    case AcquireCall => NothingFollows(s, e);
    case ReleaseCall =>
    case ReadCall => if s.locked { ReadFollows(s); } else { NothingFollows(s, e); }
    case CancelCall => CancelFollows(s);
    case EnqueueCall(chunk, size) => EnqueueFollows(s, chunk, size);
    case CloseCall => CloseFollows(s);
    case ErrorCall(reason) => FailedFollows(s, e, s, reason);
    case StartSettles(r) => if s.startOut { StartFollows(s, r); } else { NothingFollows(s, e); }
    case PullSettles(r) => if s.pullsOut > 0 { PullFollows(s, r); } else { NothingFollows(s, e); }
  }

  // ------------------------------------------------------------- every run

  /** A read that was told the end is one of a closed stream; one that failed did so for the
      stream's error, or because its reader was released. */
  ghost predicate Truthful<T>(s: Stream<T>) {
    forall i :: 0 <= i < |s.answers| ==>
      && (s.answers[i].Done? ==> s.state.Closed?)
      && (s.answers[i].ReadFailed? ==>
            s.answers[i].reason == Released || (s.state.Errored? && s.answers[i].reason == s.error))
  }

  lemma StepTruthful<T>(s: Stream<T>, e: Event<T>)
    requires Inv(s) && Truthful(s)
    ensures Truthful(Step(s, e))
  {
    StepFollows(s, e);
    assert forall i :: 0 <= i < |s.answers| && s.answers[i].Waiting? ==> s.state.Readable?;
    FollowsTruthful(s, e, Step(s, e));
  }

  lemma FollowsTruthful<T>(s: Stream<T>, e: Event<T>, t: Stream<T>)
    requires Truthful(s) && StateFollows(s, e, t) && AnswersFollow(s, e, t)
    requires forall i :: 0 <= i < |s.answers| && s.answers[i].Waiting? ==> s.state.Readable?
    ensures Truthful(t)
  {}

  lemma {:induction false} RunTruthful<T>(highWaterMark: nat, events: seq<Event<T>>)
    ensures Truthful(Run(Init(highWaterMark), events))
    decreases |events|
  {
    if events != [] {
      var before := Run(Init(highWaterMark), events[..|events| - 1]);
      RunTruthful(highWaterMark, events[..|events| - 1]);
      RunKeepsInv(highWaterMark, events[..|events| - 1]);
      StepTruthful(before, events[|events| - 1]);
    }
  }

  lemma AnswersAreTrue<T(!new)>(s: Stream<T>)
    requires Reachable(s)
    ensures Truthful(s)
  {
    var highWaterMark: nat, events: seq<Event<T>> :| s == Run(Init(highWaterMark), events);
    RunTruthful(highWaterMark, events);
  }

  /** What a user of the stream relies on. */
  ghost predicate KeepsPromises<T>(s: Stream<T>) {
    && (!s.state.Errored? && !s.cancelled ==> Chunks(s.answers) + Items(s.queue) == s.enqueued)
    && Chunks(s.answers) <= s.enqueued
    && (s.queue == [] || s.waiters == [])
    && (s.state.Readable? && s.closeRequested ==> s.queue != [])
    && (s.state.Closed? && !s.cancelled ==> Chunks(s.answers) == s.enqueued)
    && (!s.state.Readable? ==> forall i :: 0 <= i < |s.answers| ==> !s.answers[i].Waiting?)
    && s.pullsOut <= 1
    && Truthful(s)
  }

  lemma PromisesFromInv<T>(s: Stream<T>)
    requires Inv(s) && Truthful(s)
    ensures KeepsPromises(s)
  {}
}
