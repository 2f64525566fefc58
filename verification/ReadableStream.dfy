/** The default readable as an object whose fields its methods update in place, each
    method proved to follow the function of ReadableSpec.  The methods a user or a settled
    promise enters by keep the invariant as well. */
module ReadableObject {
  import opened Base
  import opened Fifo
  import opened ReadableSpec
  import opened ReadableProofs
  import opened ReadableSteps
  import Spec = ReadableSpec

  class ReadableStream<T> {
    var state: State
    var error: Reason
    const queue: Queue<T>
    const highWaterMark: nat
    var locked: bool
    const waiters: Queue<nat>
    var started: bool
    var pulling: bool
    var pullAgain: bool
    var closeRequested: bool
    var startOut: bool
    var pullsOut: nat
    var answers: seq<Result<T>>
    ghost var enqueued: seq<T>
    ghost var cancelled: bool
    ghost var pulledAt: nat

    ghost predicate Shaped()
      reads this, queue, waiters
    {
      && queue.Valid() && waiters.Valid()
      && queue as object != waiters as object
    }

    ghost function View(): Stream<T>
      requires Shaped()
      reads this, queue, waiters
    {
      Stream(state, error, queue.Contents(), highWaterMark, locked, Items(waiters.Contents()), started, pulling,
             pullAgain, closeRequested, startOut, pullsOut, answers, enqueued, cancelled, pulledAt)
    }

    ghost predicate Valid()
      reads this, queue, waiters
    {
      Shaped() && Inv(View()) && Truthful(View())
    }

    constructor (highWaterMark: nat)
      ensures Valid() && fresh(queue) && fresh(waiters)
      ensures View() == Spec.Init(highWaterMark)
    {
      state, error, locked := Readable, Undefined, false;
      this.highWaterMark := highWaterMark;
      started, pulling, pullAgain, closeRequested := false, false, false, false;
      startOut, pullsOut, answers := true, 0, [];
      enqueued, cancelled, pulledAt := [], false, 0;
      var q := new Queue<T>();
      var w := new Queue<nat>();
      queue, waiters := q, w;
    }

    method CallPullIfNeeded()
      requires Shaped()
      modifies this`pulling, this`pullAgain, this`pullsOut, this`pulledAt
      ensures Shaped() && View() == Spec.CallPullIfNeeded(old(View()))
    {
      if !state.Readable? || closeRequested || !started {
        return;
      }
      if !(locked && waiters.Length() > 0) && highWaterMark - queue.totalSize <= 0 {
        return;
      }
      if pulling {
        pullAgain := true;
        return;
      }
      pulling, pullsOut, pulledAt := true, pullsOut + 1, |answers|;
    }

    method Answer(id: nat, r: Result<T>)
      requires Shaped()
      modifies this`answers
      ensures Shaped() && View() == Spec.Answer(old(View()), id, r)
    {
      if id < |answers| {
        answers := answers[id := r];
      }
    }

    method ShiftWaiter() returns (id: nat)
      requires Shaped() && View().waiters != []
      modifies waiters
      ensures Shaped() && id == old(View()).waiters[0]
      ensures View() == old(View()).(waiters := old(View()).waiters[1..])
    {
      ItemsTail(waiters.Contents());
      var r := waiters.Shift();
      id := r.value;
    }

    /** The loop that drains the pending reads when the stream closes, errors or is released. */
    method AnswerAll(r: Result<T>)
      requires Shaped()
      modifies this`answers, waiters
      ensures Shaped() && View() == Spec.AnswerAll(old(View()), r)
    {
      while waiters.Length() > 0
        invariant Shaped()
        invariant Spec.AnswerAll(View(), r) == Spec.AnswerAll(old(View()), r)
        decreases waiters.Length()
      {
        var id := ShiftWaiter();
        Answer(id, r);
      }
    }

    method CloseStream()
      requires Shaped()
      modifies this, waiters
      ensures Shaped() && View() == Spec.CloseStream(old(View()))
    {
      state := Closed;
      AnswerAll(Done);
    }

    method ErrorStream(reason: Reason)
      requires Shaped()
      modifies this, queue, waiters
      ensures Shaped() && View() == Spec.ErrorStream(old(View()), reason)
    {
      if state.Readable? {
        queue.Clear();
        state, error := Errored, reason;
        AnswerAll(ReadFailed(reason));
      }
    }

    method StreamCancel()
      requires Shaped()
      modifies this, queue, waiters
      ensures Shaped() && View() == Spec.Cancel(old(View()))
    {
      if state.Readable? {
        CloseStream();
        queue.Clear();
        cancelled := true;
      }
    }

    method ControllerEnqueue(chunk: T, size: SizeResult)
      requires Shaped()
      modifies this, queue, waiters
      ensures Shaped() && View() == Spec.Enqueue(old(View()), chunk, size)
    {
      if !state.Readable? || closeRequested {
        return;
      }
      if waiters.Length() > 0 {
        var id := ShiftWaiter();
        enqueued := enqueued + [chunk];
        Answer(id, Got(chunk));
      } else if !size.Size? {
        ErrorStream(size.error);
        return;
      } else {
        queue.Push(chunk, size.size);
        enqueued := enqueued + [chunk];
      }
      CallPullIfNeeded();
    }

    method ControllerClose()
      requires Shaped()
      modifies this, queue, waiters
      ensures Shaped() && View() == Spec.ControllerClose(old(View()))
    {
      if !state.Readable? || closeRequested {
        return;
      }
      if queue.Length() > 0 {
        closeRequested := true;
        return;
      }
      CloseStream();
    }

    method ReaderRead()
      requires Shaped()
      modifies this, queue, waiters
      ensures Shaped() && View() == Spec.Read(old(View()))
    {
      match state
      case Closed => answers := answers + [Done];
      case Errored => answers := answers + [ReadFailed(error)];
      case Readable =>
        if queue.Length() > 0 {
          TakeChunk();
        } else {
          AddWaiter();
          CallPullIfNeeded();
        }
    }

    method AddWaiter()
      requires Shaped()
      modifies this`answers, waiters
      ensures Shaped()
      ensures var s := old(View());
              View() == s.(answers := s.answers + [Waiting], waiters := s.waiters + [|s.answers|])
    {
      ItemsAppend(waiters.Contents(), Entry(|answers|, 0));
      waiters.Push(|answers|, 0);
      answers := answers + [Waiting];
    }

    method TakeChunk()
      requires Shaped() && View().queue != []
      modifies this, queue, waiters
      ensures Shaped() && View() == Spec.TakeChunk(old(View()))
    {
      hide Spec.CloseStream, Spec.CallPullIfNeeded;
      var value := queue.Shift();
      answers := answers + [Got(value.value)];
      if closeRequested && queue.Length() == 0 {
        CloseStream();
      } else {
        CallPullIfNeeded();
      }
    }

    method Lock()
      requires Shaped()
      modifies this`locked
      ensures Shaped() && View() == Spec.Acquire(old(View()))
    {
      locked := true;
    }

    method ReaderRelease()
      requires Shaped()
      modifies this, waiters
      ensures Shaped() && View() == Spec.Release(old(View()))
    {
      locked := false;
      AnswerAll(ReadFailed(Released));
    }

    method StartSettled(r: Settlement)
      requires Shaped()
      modifies this, queue, waiters
      ensures Shaped() && View() == Spec.OnStart(old(View()), r)
    {
      startOut := false;
      match r
      case Ok =>
        started := true;
        CallPullIfNeeded();
      case Failed(e) =>
        ErrorStream(e);
    }

    method PullSettled(r: Settlement)
      requires Shaped() && pullsOut > 0
      modifies this, queue, waiters
      ensures Shaped() && View() == Spec.OnPull(old(View()), r)
    {
      hide Spec.CallPullIfNeeded, Spec.ErrorStream;
      pullsOut := pullsOut - 1;
      match r
      case Ok =>
        pulling := false;
        if pullAgain {
          pullAgain := false;
          CallPullIfNeeded();
        }
      case Failed(e) =>
        ErrorStream(e);
    }

    // ------------------------------------------------------------- the way in

    /** What the step to come keeps. */
    lemma Before(e: Event<T>)
      requires Valid()
      ensures Inv(Step(View(), e)) && Truthful(Step(View(), e)) && KeepsPromises(Step(View(), e))
      ensures Follows(View(), e, Step(View(), e))
    {
      StepKeepsInv(View(), e);
      StepTruthful(View(), e);
      PromisesFromInv(Step(View(), e));
      StepFollows(View(), e);
    }

    method Acquire()
      requires Valid()
      modifies this`locked
      ensures Valid() && View() == Step(old(View()), AcquireCall) && KeepsPromises(View())
      ensures Follows(old(View()), AcquireCall, View())
    {
      hide Inv, Truthful, Follows, KeepsPromises;
      Before(AcquireCall);
      Lock();
    }

    method Release()
      requires Valid()
      modifies this, waiters
      ensures Valid() && View() == Step(old(View()), ReleaseCall) && KeepsPromises(View())
      ensures Follows(old(View()), ReleaseCall, View())
    {
      hide Inv, Truthful, Follows, KeepsPromises, Spec.Release;
      Before(ReleaseCall);
      if locked {
        ReaderRelease();
      }
    }

    method Read()
      requires Valid()
      modifies this, queue, waiters
      ensures Valid() && View() == Step(old(View()), ReadCall) && KeepsPromises(View())
      ensures Follows(old(View()), ReadCall, View())
    {
      hide Inv, Truthful, Follows, KeepsPromises, Spec.Read;
      Before(ReadCall);
      if locked {
        ReaderRead();
      }
    }

    method Cancel()
      requires Valid()
      modifies this, queue, waiters
      ensures Valid() && View() == Step(old(View()), CancelCall) && KeepsPromises(View())
      ensures Follows(old(View()), CancelCall, View())
    {
      hide Inv, Truthful, Follows, KeepsPromises, Spec.Cancel;
      Before(CancelCall);
      StreamCancel();
    }

    method Enqueue(chunk: T, size: SizeResult)
      requires Valid()
      modifies this, queue, waiters
      ensures Valid() && View() == Step(old(View()), EnqueueCall(chunk, size)) && KeepsPromises(View())
      ensures Follows(old(View()), EnqueueCall(chunk, size), View())
    {
      hide Inv, Truthful, Follows, KeepsPromises, Spec.Enqueue;
      Before(EnqueueCall(chunk, size));
      ControllerEnqueue(chunk, size);
    }

    method Close()
      requires Valid()
      modifies this, queue, waiters
      ensures Valid() && View() == Step(old(View()), CloseCall) && KeepsPromises(View())
      ensures Follows(old(View()), CloseCall, View())
    {
      hide Inv, Truthful, Follows, KeepsPromises, Spec.ControllerClose;
      Before(CloseCall);
      ControllerClose();
    }

    method Error(reason: Reason)
      requires Valid()
      modifies this, queue, waiters
      ensures Valid() && View() == Step(old(View()), ErrorCall(reason)) && KeepsPromises(View())
      ensures Follows(old(View()), ErrorCall(reason), View())
    {
      hide Inv, Truthful, Follows, KeepsPromises, Spec.ErrorStream;
      Before(ErrorCall(reason));
      ErrorStream(reason);
    }

    method OnStart(r: Settlement)
      requires Valid() && startOut
      modifies this, queue, waiters
      ensures Valid() && View() == Step(old(View()), StartSettles(r)) && KeepsPromises(View())
      ensures Follows(old(View()), StartSettles(r), View())
    {
      hide Inv, Truthful, Follows, KeepsPromises, Spec.OnStart;
      Before(StartSettles(r));
      StartSettled(r);
    }

    method OnPull(r: Settlement)
      requires Valid() && pullsOut > 0
      modifies this, queue, waiters
      ensures Valid() && View() == Step(old(View()), PullSettles(r)) && KeepsPromises(View())
      ensures Follows(old(View()), PullSettles(r), View())
    {
      hide Inv, Truthful, Follows, KeepsPromises, Spec.OnPull;
      Before(PullSettles(r));
      PullSettled(r);
    }
  }
}
