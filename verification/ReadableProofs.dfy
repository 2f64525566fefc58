/** What every run of a default readable keeps, and what follows for its users. */
module ReadableProofs {
  import opened Base
  import opened Fifo
  import opened ReadableSpec

  /** The chunks the reads got, in the order the reads were issued. */
  function Chunks<T>(answers: seq<Result<T>>): seq<T> {
    if answers == [] then []
    else
      Chunks(answers[..|answers| - 1])
      + if answers[|answers| - 1].Got? then [answers[|answers| - 1].value] else []
  }

  /** The waiting reads are the last ones issued. */
  ghost predicate Waiters<T>(s: Stream<T>) {
    && |s.waiters| <= |s.answers|
    && s.waiters == Range(|s.answers| - |s.waiters|, |s.answers|)
    && (forall i :: 0 <= i < |s.answers| ==> (s.answers[i].Waiting? <==> |s.answers| - |s.waiters| <= i))
    && (s.waiters != [] ==> s.state.Readable? && s.queue == [] && s.locked)
  }

  /** Chunks read, in read order, then chunks queued: what the controller enqueued. */
  ghost predicate Order<T>(s: Stream<T>) {
    && (s.state.Readable? ==> !s.cancelled)
    && (!s.state.Errored? && !s.cancelled ==> Chunks(s.answers) + Items(s.queue) == s.enqueued)
    && Chunks(s.answers) <= s.enqueued
    && (!s.state.Readable? ==> s.queue == [])
    && (s.state.Readable? && s.closeRequested ==> s.queue != [])
  }

  /** At most one pull at a time, and no waiting read is forgotten by it. */
  ghost predicate Pulls<T>(s: Stream<T>) {
    && s.pullsOut <= 1
    && (s.pullAgain ==> s.pulling)
    && (s.pullsOut == 1 ==> s.pulling)
    && (s.state.Readable? && s.pulling ==> s.pullsOut == 1)
    && s.pulledAt <= |s.answers|
    && (s.started ==> !s.startOut)
    && (!s.started && s.state.Readable? ==> s.startOut && !s.pulling)
    && (s.started && s.state.Readable? && s.waiters != [] ==>
          s.waiters[|s.waiters| - 1] < s.pulledAt || s.pullAgain)
  }

  ghost predicate Inv<T>(s: Stream<T>) {
    Waiters(s) && Order(s) && Pulls(s)
  }

  // -------------------------------------------------------------- read results

  lemma AddRead<T>(answers: seq<Result<T>>, r: Result<T>)
    ensures Chunks(answers + [r]) == Chunks(answers) + if r.Got? then [r.value] else []
  {
    assert (answers + [r])[..|answers|] == answers;
  }

  /** Answering the first waiting read appends to what was read so far. */
  lemma {:induction false} AnswerFirst<T>(answers: seq<Result<T>>, id: nat, r: Result<T>)
    requires id < |answers| && !answers[id].Got?
    requires forall i :: id < i < |answers| ==> !answers[i].Got?
    ensures Chunks(answers[id := r]) == Chunks(answers) + if r.Got? then [r.value] else []
    decreases |answers|
  {
    var n := |answers| - 1;
    if id == n {
      assert answers[id := r][..n] == answers[..n];
    } else {
      AnswerFirst(answers[..n], id, r);
      assert answers[id := r][..n] == answers[..n][id := r];
    }
  }

  /** Answering every waiting read, seen as one step. */
  lemma {:induction false} AnswerAllEffect<T>(s: Stream<T>, r: Result<T>)
    requires |s.waiters| <= |s.answers|
    requires s.waiters == Range(|s.answers| - |s.waiters|, |s.answers|)
    requires forall i :: |s.answers| - |s.waiters| <= i < |s.answers| ==> s.answers[i].Waiting?
    requires !r.Waiting? && !r.Got?
    ensures var t := AnswerAll(s, r);
            && t == s.(waiters := [], answers := t.answers)
            && |t.answers| == |s.answers|
            && (forall i :: 0 <= i < |s.answers| - |s.waiters| ==> t.answers[i] == s.answers[i])
            && (forall i :: |s.answers| - |s.waiters| <= i < |s.answers| ==> t.answers[i] == r)
            && Chunks(t.answers) == Chunks(s.answers)
    decreases |s.waiters|
  {
    if s.waiters != [] {
      var t := Answer(s.(waiters := s.waiters[1..]), s.waiters[0], r);
      AnswerFirst(s.answers, s.waiters[0], r);
      assert t.waiters == Range(|t.answers| - |t.waiters|, |t.answers|);
      AnswerAllEffect(t, r);
    }
  }

  // ------------------------------------------------------------------- closing

  lemma CloseStreamKeepsInv<T>(s: Stream<T>)
    requires Inv(s) && s.state.Readable?
    requires s.queue == []
    ensures Inv(CloseStream(s))
    ensures CloseStream(s).waiters == [] && CloseStream(s).queue == []
    ensures |CloseStream(s).answers| == |s.answers|
  {
    AnswerAllEffect(s.(state := Closed), Done);
  }

  lemma ErrorStreamKeepsInv<T>(s: Stream<T>, reason: Reason)
    requires Inv(s)
    ensures Inv(ErrorStream(s, reason))
  {
    if s.state.Readable? {
      AnswerAllEffect(s.(state := Errored, error := reason, queue := []), ReadFailed(reason));
    }
  }

  lemma CancelKeepsInv<T>(s: Stream<T>)
    requires Inv(s)
    ensures Inv(Cancel(s))
  {
    if s.state.Readable? {
      AnswerAllEffect(s.(state := Closed), Done);
    }
  }

  lemma ControllerCloseKeepsInv<T>(s: Stream<T>)
    requires Inv(s)
    ensures Inv(ControllerClose(s))
  {
    if CanCloseOrEnqueue(s) && s.queue == [] {
      CloseStreamKeepsInv(s);
    }
  }

  lemma ReleaseKeepsInv<T>(s: Stream<T>)
    requires Inv(s)
    ensures Inv(Release(s))
  {
    AnswerAllEffect(s.(locked := false), ReadFailed(Released));
  }

  // ------------------------------------------------------------------- pulling

  /** `Inv`, but a read just issued or a chunk just taken may still have to ask for a pull. */
  ghost predicate MayPull<T>(s: Stream<T>) {
    && Waiters(s) && Order(s)
    && s.pullsOut <= 1
    && (s.pullAgain ==> s.pulling)
    && (s.pullsOut == 1 ==> s.pulling)
    && (s.state.Readable? && s.pulling ==> s.pullsOut == 1)
    && s.pulledAt <= |s.answers|
    && (s.started ==> !s.startOut)
    && (!s.started && s.state.Readable? ==> s.startOut && !s.pulling)
  }

  lemma CallPullKeepsInv<T>(s: Stream<T>)
    requires MayPull(s)
    ensures Inv(CallPullIfNeeded(s))
  {}

  lemma EnqueueToWaiterKeepsInv<T>(s: Stream<T>, chunk: T, size: SizeResult)
    requires Inv(s) && CanCloseOrEnqueue(s) && s.waiters != []
    ensures Inv(Enqueue(s, chunk, size))
  {
    var t := Answer(s.(waiters := s.waiters[1..], enqueued := s.enqueued + [chunk]), s.waiters[0], Got(chunk));
    AnswerFirst(s.answers, s.waiters[0], Got(chunk));
    assert t.waiters == Range(|t.answers| - |t.waiters|, |t.answers|);
    CallPullKeepsInv(t);
  }

  lemma EnqueueToQueueKeepsInv<T>(s: Stream<T>, chunk: T, size: SizeResult)
    requires Inv(s) && CanCloseOrEnqueue(s) && s.waiters == [] && size.Size?
    ensures Inv(Enqueue(s, chunk, size))
  {
    var t := s.(queue := s.queue + [Entry(chunk, size.size)], enqueued := s.enqueued + [chunk]);
    ItemsAppend(s.queue, Entry(chunk, size.size));
    assert Chunks(t.answers) + Items(t.queue) == t.enqueued;
    CallPullKeepsInv(t);
  }

  lemma EnqueueKeepsInv<T>(s: Stream<T>, chunk: T, size: SizeResult)
    requires Inv(s)
    ensures Inv(Enqueue(s, chunk, size))
  {
    if CanCloseOrEnqueue(s) {
      if s.waiters != [] {
        EnqueueToWaiterKeepsInv(s, chunk, size);
      } else if size.Size? {
        EnqueueToQueueKeepsInv(s, chunk, size);
      } else {
        ErrorStreamKeepsInv(s, size.error);
      }
    }
  }

  lemma TakeChunkKeepsInv<T>(s: Stream<T>)
    requires Inv(s) && s.state.Readable? && s.queue != []
    ensures Inv(TakeChunk(s))
  {
    var t := s.(queue := s.queue[1..], answers := s.answers + [Got(s.queue[0].item)]);
    ItemsTail(s.queue);
    AddRead(s.answers, Got(s.queue[0].item));
    assert Chunks(t.answers) + Items(t.queue) == s.enqueued;
    if t.closeRequested && t.queue == [] {
      assert CloseStream(t) == t.(state := Closed);
    } else {
      CallPullKeepsInv(t);
    }
  }

  lemma WaitersGrow<T>(s: Stream<T>)
    requires Waiters(s) && s.locked && s.state.Readable? && s.queue == []
    ensures Waiters(s.(answers := s.answers + [Waiting], waiters := s.waiters + [|s.answers|]))
  {
    var t := s.(answers := s.answers + [Waiting], waiters := s.waiters + [|s.answers|]);
    assert t.waiters == Range(|t.answers| - |t.waiters|, |t.answers|);
  }

  lemma AddWaiterKeepsInv<T>(s: Stream<T>)
    requires Inv(s) && s.locked && s.state.Readable? && s.queue == []
    ensures Inv(Read(s))
  {
    AddRead(s.answers, Waiting);
    WaitersGrow(s);
    hide Waiters;
    CallPullKeepsInv(s.(answers := s.answers + [Waiting], waiters := s.waiters + [|s.answers|]));
  }

  lemma AddSettledKeepsInv<T>(s: Stream<T>, r: Result<T>)
    requires Inv(s) && !s.state.Readable? && !r.Got? && !r.Waiting?
    ensures Inv(s.(answers := s.answers + [r]))
  {
    AddRead(s.answers, r);
    assert Range(|s.answers| + 1, |s.answers| + 1) == [];
  }

  lemma ReadKeepsInv<T>(s: Stream<T>)
    requires Inv(s) && s.locked
    ensures Inv(Read(s))
  {
    match s.state
    case Closed => AddSettledKeepsInv(s, Done);
    case Errored => AddSettledKeepsInv(s, ReadFailed(s.error));
    case Readable =>
      if s.queue != [] {
        TakeChunkKeepsInv(s);
      } else {
        AddWaiterKeepsInv(s);
      }
  }

  lemma OnStartKeepsInv<T>(s: Stream<T>, r: Settlement)
    requires Inv(s) && s.startOut
    ensures Inv(OnStart(s, r))
  {
    var t := s.(startOut := false);
    match r
    case Ok => CallPullKeepsInv(t.(started := true));
    case Failed(e) =>
      if s.state.Readable? {
        AnswerAllEffect(t.(state := Errored, error := e, queue := []), ReadFailed(e));
      }
  }

  lemma OnPullKeepsInv<T>(s: Stream<T>, r: Settlement)
    requires Inv(s) && s.pullsOut > 0
    ensures Inv(OnPull(s, r))
  {
    match r
    case Ok => PullDoneKeepsInv(s);
    case Failed(e) => PullFailedKeepsInv(s, e);
  }

  lemma PullDoneKeepsInv<T>(s: Stream<T>)
    requires Inv(s) && s.pullsOut > 0
    ensures Inv(OnPull(s, Ok))
  {
    var u := s.(pullsOut := s.pullsOut - 1, pulling := false);
    assert Waiters(u) && Order(u);
    hide Waiters, Order, CallPullIfNeeded;
    if s.pullAgain {
      assert Waiters(u.(pullAgain := false)) && Order(u.(pullAgain := false)) by {
        SameReads(u, u.(pullAgain := false));
      }
      CallPullKeepsInv(u.(pullAgain := false));
    }
  }

  /** These parts of the invariant do not look at the pulling state. */
  lemma SameReads<T>(s: Stream<T>, t: Stream<T>)
    requires Waiters(s) && Order(s) && t == s.(pullAgain := t.pullAgain)
    ensures Waiters(t) && Order(t)
  {}

  lemma PullFailedKeepsInv<T>(s: Stream<T>, reason: Reason)
    requires Inv(s) && s.pullsOut > 0
    ensures Inv(OnPull(s, Failed(reason)))
  {
    if s.state.Readable? {
      AnswerAllEffect(s.(pullsOut := s.pullsOut - 1, state := Errored, error := reason, queue := []),
                      ReadFailed(reason));
      hide AnswerAll;
    }
  }

  lemma StepKeepsInv<T>(s: Stream<T>, e: Event<T>)
    requires Inv(s)
    ensures Inv(Step(s, e))
  {
    match e
    case AcquireCall =>
    case ReleaseCall => ReleaseKeepsInv(s);
    case ReadCall => if s.locked { ReadKeepsInv(s); }
    case CancelCall => CancelKeepsInv(s);
    case EnqueueCall(chunk, size) => EnqueueKeepsInv(s, chunk, size);
    case CloseCall => ControllerCloseKeepsInv(s);
    case ErrorCall(reason) => ErrorStreamKeepsInv(s, reason);
    case StartSettles(r) => if s.startOut { OnStartKeepsInv(s, r); }
    case PullSettles(r) => if s.pullsOut > 0 { OnPullKeepsInv(s, r); }
  }

  lemma {:induction false} RunKeepsInv<T>(highWaterMark: nat, events: seq<Event<T>>)
    ensures Inv(Run(Init(highWaterMark), events))
    decreases |events|
  {
    if events != [] {
      RunKeepsInv(highWaterMark, events[..|events| - 1]);
      StepKeepsInv(Run(Init(highWaterMark), events[..|events| - 1]), events[|events| - 1]);
    }
  }

  // ---------------------------------------------------------- what users may rely on

  ghost predicate Reachable<T(!new)>(s: Stream<T>) {
    exists highWaterMark: nat, events: seq<Event<T>> :: s == Run(Init(highWaterMark), events)
  }

  lemma ReachableInv<T(!new)>(s: Stream<T>)
    requires Reachable(s)
    ensures Inv(s)
  {
    var highWaterMark: nat, events: seq<Event<T>> :| s == Run(Init(highWaterMark), events);
    RunKeepsInv(highWaterMark, events);
  }

  /** Chunks come out in the order they went in, each once: what the reads got, taken in the
      order the reads were issued, then the queue, is what was enqueued.  An error or a
      cancel can only cut that short. */
  lemma FifoDelivery<T(!new)>(s: Stream<T>)
    requires Reachable(s)
    ensures !s.state.Errored? && !s.cancelled ==> Chunks(s.answers) + Items(s.queue) == s.enqueued
    ensures Chunks(s.answers) <= s.enqueued
    ensures s.queue == [] || s.waiters == []
  {
    ReachableInv(s);
  }

  /** A close waits for the queue: while it is pending there is a chunk to read, and a stream
      its controller closed has delivered everything. */
  lemma DeferredClose<T(!new)>(s: Stream<T>)
    requires Reachable(s)
    ensures s.state.Readable? && s.closeRequested ==> s.queue != []
    ensures s.state.Closed? && !s.cancelled ==> Chunks(s.answers) == s.enqueued
    ensures !s.state.Readable? ==> forall i :: 0 <= i < |s.answers| ==> !s.answers[i].Waiting?
  {
    ReachableInv(s);
  }

  /** No read is stranded: one that waits on a started stream was issued before the last pull
      began, or that pull is still in flight with another already asked for. */
  lemma NoStrandedRead<T(!new)>(s: Stream<T>, i: nat)
    requires Reachable(s)
    requires s.started && s.state.Readable? && i < |s.answers| && s.answers[i].Waiting?
    ensures i < s.pulledAt || (s.pullsOut == 1 && s.pulling && s.pullAgain)
  {
    ReachableInv(s);
    assert s.waiters[|s.waiters| - 1] == |s.answers| - 1;
  }

  lemma OnePullAtATime<T(!new)>(s: Stream<T>)
    requires Reachable(s)
    ensures s.pullsOut <= 1
    ensures s.pullAgain ==> s.pulling
    ensures s.state.Readable? ==> (s.pulling <==> s.pullsOut == 1)
  {
    ReachableInv(s);
  }
}
