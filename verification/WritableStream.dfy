/** The writable stream as js/streams.js builds it: an object whose fields its
    methods update in place.  Each method is proved to take the object's value
    (`View`) where the function of WritableSpec takes it.  The methods a user or a settled
    promise enters by keep the invariant as well, so what WritableTheorems proves of runs
    holds of the object. */
module WritableObject {
  import opened Base
  import opened Fifo
  import opened WritableSpec
  import opened WritableProofs
  import opened WritableTheorems
  import opened WritableSteps
  import opened WritableReasons
  import Spec = WritableSpec

  class WritableStream<T> {
    var state: State
    var storedError: Reason
    var writer: Writer
    const writeRequests: Queue<nat>
    var inFlightWrite: Option<nat>
    var closeRequest: Option<nat>
    var inFlightClose: Option<nat>
    var pendingAbort: AbortRequest
    var backpressure: bool
    const queue: Queue<Item<T>>
    const highWaterMark: nat
    var started: bool
    var cleared: bool
    var startOut: bool
    var writesOut: nat
    var closesOut: nat
    var abortsOut: seq<nat>
    var writes: seq<Outcome>
    var closes: seq<Outcome>
    var aborts: seq<Outcome>
    ghost var accepted: seq<T>
    ghost var calls: seq<SinkCall<T>>
    ghost var begun: nat
    ghost var results: seq<bool>
    ghost var faults: nat

    ghost predicate Shaped()
      reads this, queue, writeRequests
    {
      && queue.Valid() && writeRequests.Valid()
      && queue as object != writeRequests as object
    }

    ghost function View(): Stream<T>
      requires Shaped()
      reads this, queue, writeRequests
    {
      Stream(state, storedError, writer, Items(writeRequests.Contents()), inFlightWrite, closeRequest,
             inFlightClose, pendingAbort, backpressure, queue.Contents(), highWaterMark, started, cleared,
             startOut, writesOut, closesOut, abortsOut, writes, closes, aborts, accepted, calls, begun,
             results, faults)
    }

    ghost predicate Valid()
      reads this, queue, writeRequests
    {
      Shaped() && Inv(View()) && CloseMeans(View()) && Told(View())
    }

    constructor (highWaterMark: nat)
      ensures Valid() && fresh(queue) && fresh(writeRequests)
      ensures View() == Spec.Init(highWaterMark)
    {
      state, storedError, writer := Writable, Undefined, NoWriter;
      inFlightWrite, closeRequest, inFlightClose, pendingAbort := None, None, None, NoAbort;
      backpressure := highWaterMark <= 0;
      this.highWaterMark := highWaterMark;
      started, cleared, startOut := false, false, true;
      writesOut, closesOut, abortsOut := 0, 0, [];
      writes, closes, aborts := [], [], [];
      accepted, calls, begun, results, faults := [], [], 0, [], 0;
      var q := new Queue<Item<T>>();
      var w := new Queue<nat>();
      queue, writeRequests := q, w;
    }

    method SettleWrite(id: Option<nat>, outcome: Outcome)
      requires Shaped()
      modifies this`writes, this`faults
      ensures Shaped() && View() == Spec.SettleWrite(old(View()), id, outcome)
    {
      writes, faults := Spec.Put(writes, id, outcome), faults + Spec.Misses(writes, id);
    }

    method SettleClose(id: Option<nat>, outcome: Outcome)
      requires Shaped()
      modifies this`closes, this`faults
      ensures Shaped() && View() == Spec.SettleClose(old(View()), id, outcome)
    {
      closes, faults := Spec.Put(closes, id, outcome), faults + Spec.Misses(closes, id);
    }

    method SettleAbort(id: nat, outcome: Outcome)
      requires Shaped()
      modifies this`aborts, this`faults
      ensures Shaped() && View() == Spec.SettleAbort(old(View()), id, outcome)
    {
      aborts, faults := Spec.Put(aborts, Some(id), outcome), faults + Spec.Misses(aborts, Some(id));
    }

    method UpdateBackpressure(next: bool)
      requires Shaped()
      modifies this`writer, this`backpressure
      ensures Shaped() && View() == Spec.UpdateBackpressure(old(View()), next)
    {
      if writer.Writer? && backpressure != next {
        writer := writer.(ready := if next then Pending else writer.ready.Resolve());
      }
      backpressure := next;
    }

    method RefreshBackpressure()
      requires Shaped()
      modifies this`writer, this`backpressure
      ensures Shaped() && View() == Spec.RefreshBackpressure(old(View()))
    {
      if closeRequest.None? && inFlightClose.None? && state.Writable? {
        UpdateBackpressure(highWaterMark - queue.totalSize <= 0);
      }
    }

    method RejectCloseAndClosed()
      requires Shaped()
      modifies this
      ensures Shaped() && View() == Spec.RejectCloseAndClosed(old(View()))
    {
      RejectClose();
      if writer.Writer? {
        writer := writer.(closed := writer.closed.Reject(storedError));
      }
    }

    method RejectClose()
      requires Shaped()
      modifies this`closeRequest, this`closes, this`faults
      ensures Shaped() && View() == Spec.RejectClose(old(View()))
    {
      if closeRequest.Some? {
        SettleClose(closeRequest, Rejected(storedError));
        closeRequest := None;
      }
    }

    method RejectFirstWrite()
      requires Shaped() && View().writeRequests != []
      modifies this`writes, this`faults, writeRequests
      ensures Shaped()
      ensures var s := old(View());
              View() == Spec.SettleWrite(s.(writeRequests := s.writeRequests[1..]), Some(s.writeRequests[0]),
                                         Rejected(s.storedError))
    {
      var id := ShiftWriteRequest();
      SettleWrite(Some(id), Rejected(storedError));
    }

    method ShiftWriteRequest() returns (id: nat)
      requires Shaped() && View().writeRequests != []
      modifies writeRequests
      ensures Shaped() && id == old(View()).writeRequests[0]
      ensures View() == old(View()).(writeRequests := old(View()).writeRequests[1..])
    {
      ItemsTail(writeRequests.Contents());
      var r := writeRequests.Shift();
      id := r.value;
    }

    /** The drain loop of writableFinishErroring. */
    method RejectWrites()
      requires Shaped()
      modifies this`writes, this`faults, writeRequests
      ensures Shaped() && View() == Spec.RejectWrites(old(View()))
    {
      while writeRequests.Length() > 0
        invariant Shaped()
        invariant Spec.RejectWrites(View()) == Spec.RejectWrites(old(View()))
        decreases writeRequests.Length()
      {
        RejectFirstWrite();
      }
    }

    ghost method RecordCall(call: SinkCall<T>)
      requires Shaped()
      modifies this`calls, this`faults
      ensures Shaped() && View() == Spec.InvokeSink(old(View()), call)
    {
      if cleared {
        faults := faults + 1;
      } else {
        calls := calls + [call];
      }
    }

    method FinishErroring()
      requires Shaped()
      modifies this, queue, writeRequests
      ensures Shaped() && View() == Spec.FinishErroring(old(View()))
    {
      state := Errored;
      queue.Clear();
      assert View() == old(View()).(state := Errored, queue := []);
      RejectWrites();
      AnswerAbort();
    }

    method AnswerAbort()
      requires Shaped()
      modifies this
      ensures Shaped() && View() == Spec.AnswerAbort(old(View()))
    {
      hide Spec.RejectCloseAndClosed, Spec.SettleAbort, Spec.InvokeSink;
      if pendingAbort.NoAbort? {
        RejectCloseAndClosed();
        return;
      }
      var request := TakeAbortRequest();
      if request.wasAlreadyErroring {
        SettleAbort(request.id, Rejected(storedError));
        RejectCloseAndClosed();
        return;
      }
      CallAbort(request.id, request.reason);
    }

    method CallAbort(id: nat, reason: Reason)
      requires Shaped()
      modifies this`abortsOut, this`cleared, this`calls, this`faults
      ensures Shaped()
      ensures View() == Spec.InvokeSink(old(View()), SinkAbort(reason))
                        .(abortsOut := old(abortsOut) + [id], cleared := true)
    {
      RecordCall(SinkAbort(reason));
      abortsOut := abortsOut + [id];
      cleared := true;
    }

    method TakeAbortRequest() returns (request: AbortRequest)
      requires Shaped()
      modifies this`pendingAbort
      ensures Shaped() && request == old(pendingAbort)
      ensures View() == old(View()).(pendingAbort := NoAbort)
    {
      request := pendingAbort;
      pendingAbort := NoAbort;
    }

    method RejectReady(reason: Reason)
      requires Shaped()
      modifies this`writer
      ensures Shaped() && View() == old(View()).(writer := Spec.EnsureReadyRejected(old(writer), reason))
    {
      if writer.Writer? {
        writer := writer.(ready := Rejected(reason));
      }
    }

    method MarkErroring(reason: Reason)
      requires Shaped()
      modifies this`state, this`storedError, this`writer
      ensures Shaped()
      ensures View() == old(View()).(state := Erroring, storedError := reason,
                                     writer := Spec.EnsureReadyRejected(old(writer), reason))
    {
      state, storedError := Erroring, reason;
      RejectReady(reason);
    }

    method StartErroring(reason: Reason)
      requires Shaped()
      modifies this, queue, writeRequests
      ensures Shaped() && View() == Spec.StartErroring(old(View()), reason)
    {
      MarkErroring(reason);
      if inFlightWrite.None? && inFlightClose.None? && started {
        FinishErroring();
      }
    }

    method DealWithRejection(reason: Reason)
      requires Shaped()
      modifies this, queue, writeRequests
      ensures Shaped() && View() == Spec.DealWithRejection(old(View()), reason)
    {
      if state.Writable? {
        StartErroring(reason);
      } else {
        FinishErroring();
      }
    }

    method ControllerErrorIfNeeded(reason: Reason)
      requires Shaped()
      modifies this, queue, writeRequests
      ensures Shaped() && View() == Spec.ControllerErrorIfNeeded(old(View()), reason)
    {
      if state.Writable? {
        cleared := true;
        StartErroring(reason);
      }
    }

    method Dequeue()
      requires Shaped()
      modifies queue
      ensures Shaped() && View() == Spec.Dequeue(old(View()))
    {
      var _ := queue.Shift();
    }

    method TakeCloseRequest()
      requires Shaped()
      modifies this`inFlightClose, this`closeRequest
      ensures Shaped()
      ensures View() == old(View()).(inFlightClose := old(closeRequest), closeRequest := None)
    {
      inFlightClose := closeRequest;
      closeRequest := None;
    }

    method TakeWriteRequest()
      requires Shaped()
      modifies this`inFlightWrite, writeRequests
      ensures Shaped()
      ensures var s := old(View());
              View() == if s.writeRequests == [] then s.(inFlightWrite := None)
                        else s.(inFlightWrite := Some(s.writeRequests[0]), writeRequests := s.writeRequests[1..])
    {
      if writeRequests.Length() > 0 {
        ItemsTail(writeRequests.Contents());
      }
      inFlightWrite := writeRequests.Shift();
    }

    method ProcessClose()
      requires Shaped()
      modifies this, queue
      ensures Shaped() && View() == Spec.ProcessClose(old(View()))
    {
      hide Spec.Dequeue, Spec.InvokeSink;
      TakeCloseRequest();
      Dequeue();
      RecordCall(SinkClose);
      closesOut := closesOut + 1;
      cleared := true;
    }

    method ProcessWrite(chunk: T)
      requires Shaped()
      modifies this, writeRequests
      ensures Shaped() && View() == Spec.ProcessWrite(old(View()), chunk)
    {
      hide Spec.InvokeSink;
      TakeWriteRequest();
      RecordCall(SinkWrite(chunk));
      begun := begun + 1;
      writesOut := writesOut + 1;
    }

    method AdvanceQueueIfNeeded()
      requires Shaped()
      modifies this, queue, writeRequests
      ensures Shaped() && View() == Spec.AdvanceQueueIfNeeded(old(View()))
    {
      if !started || inFlightWrite.Some? {
        return;
      }
      if state.Erroring? {
        FinishErroring();
        return;
      }
      var next := queue.Peek();
      if next.None? {
        return;
      }
      match next.value
      case CloseSentinel => ProcessClose();
      case Chunk(value) => ProcessWrite(value);
    }

    method WritableAbort(reason: Reason) returns (reply: Reply)
      requires Shaped()
      modifies this, queue, writeRequests
      ensures Shaped() && (View(), reply) == Spec.Abort(old(View()), reason)
    {
      hide Spec.StartErroring;
      if state.Closed? || state.Errored? {
        return Resolved;
      }
      if pendingAbort.AbortRequest? {
        return Request(pendingAbort.id);
      }
      var was := state.Erroring?;
      var because := if was then Undefined else reason;
      reply := Request(|aborts|);
      pendingAbort := AbortRequest(|aborts|, because, was);
      aborts := aborts + [Pending];
      if !was {
        StartErroring(because);
      }
    }

    method WritableClose() returns (reply: Reply)
      requires Shaped()
      modifies this, queue, writeRequests
      ensures Shaped() && (View(), reply) == Spec.Close(old(View()))
    {
      if closeRequest.Some? || inFlightClose.Some? || state.Closed? || state.Errored? {
        return RejectedWith(InvalidState);
      }
      reply := Request(|closes|);
      QueueClose();
      AdvanceQueueIfNeeded();
    }

    method QueueClose()
      requires Shaped()
      modifies this`closeRequest, this`closes, this`writer, queue
      ensures Shaped() && View() == Spec.QueueClose(old(View()))
    {
      AddCloseRequest();
      if writer.Writer? && backpressure && state.Writable? {
        writer := writer.(ready := writer.ready.Resolve());
      }
      PushItem(CloseSentinel, 0);
    }

    method AddCloseRequest()
      requires Shaped()
      modifies this`closeRequest, this`closes
      ensures Shaped()
      ensures var s := old(View());
              View() == s.(closes := s.closes + [Pending], closeRequest := Some(|s.closes|))
    {
      closeRequest := Some(|closes|);
      closes := closes + [Pending];
    }

    method PushItem(item: Item<T>, size: nat)
      requires Shaped()
      modifies queue
      ensures Shaped() && View() == old(View()).(queue := old(View()).queue + [Entry(item, size)])
    {
      queue.Push(item, size);
    }

    method GetChunkSize(size: SizeResult) returns (r: SizeResult)
      requires Shaped()
      modifies this, queue, writeRequests
      ensures Shaped() && (View(), r) == Spec.GetChunkSize(old(View()), size)
    {
      if cleared {
        return Size(1);
      }
      if size.Threw? {
        ControllerErrorIfNeeded(size.error);
        return Size(1);
      }
      return size;
    }

    method ControllerWrite(chunk: T, size: SizeResult)
      requires Shaped()
      modifies this, queue, writeRequests
      ensures Shaped() && View() == Spec.ControllerWrite(old(View()), chunk, size)
    {
      if !size.Size? {
        ControllerErrorIfNeeded(size.error);
        return;
      }
      PushItem(Chunk(chunk), size.size);
      RefreshBackpressure();
      AdvanceQueueIfNeeded();
    }

    method WriterWrite(chunk: T, size: SizeResult) returns (reply: Reply)
      requires Shaped()
      modifies this, queue, writeRequests
      ensures Shaped() && (View(), reply) == Spec.Write(old(View()), chunk, size)
    {
      var chunkSize := GetChunkSize(size);
      if state.Errored? {
        return RejectedWith(storedError);
      }
      if closeRequest.Some? || inFlightClose.Some? || state.Closed? {
        return RejectedWith(InvalidState);
      }
      if state.Erroring? {
        return RejectedWith(storedError);
      }
      reply := Request(|writes|);
      AddWriteRequest(chunk);
      ControllerWrite(chunk, chunkSize);
    }

    method AddWriteRequest(chunk: T)
      requires Shaped()
      modifies this`writes, this`accepted, writeRequests
      ensures Shaped()
      ensures var s := old(View());
              View() == s.(writes := s.writes + [Pending], writeRequests := s.writeRequests + [|s.writes|],
                           accepted := s.accepted + [chunk])
    {
      ItemsAppend(writeRequests.Contents(), Entry(|writes|, 0));
      writeRequests.Push(|writes|, 0);
      writes := writes + [Pending];
      accepted := accepted + [chunk];
    }

    method AttachWriter()
      requires Shaped()
      modifies this`writer
      ensures Shaped() && View() == Spec.GetWriter(old(View()))
    {
      if writer.NoWriter? {
        match state
        case Writable =>
          var pending := closeRequest.None? && inFlightClose.None? && backpressure;
          writer := Writer(if pending then Pending else Fulfilled, Pending);
        case Erroring =>
          writer := Writer(Rejected(storedError), Pending);
        case Closed =>
          writer := Writer(Fulfilled, Fulfilled);
        case Errored =>
          writer := Writer(Rejected(storedError), Rejected(storedError));
      }
    }

    method DetachWriter()
      requires Shaped()
      modifies this`writer
      ensures Shaped() && View() == Spec.ReleaseWriter(old(View()))
    {
      writer := NoWriter;
    }

    method StartSettled(r: Settlement)
      requires Shaped()
      modifies this, queue, writeRequests
      ensures Shaped() && View() == Spec.OnStart(old(View()), r)
    {
      startOut, started := false, true;
      match r
      case Ok => AdvanceQueueIfNeeded();
      case Failed(e) => DealWithRejection(e);
    }

    method FinishInFlightWrite(outcome: Outcome)
      requires Shaped()
      modifies this`inFlightWrite, this`writes, this`faults
      ensures Shaped() && View() == Spec.FinishInFlightWrite(old(View()), outcome)
    {
      SettleWrite(inFlightWrite, outcome);
      inFlightWrite := None;
    }

    method WriteSettled(r: Settlement)
      requires Shaped() && writesOut > 0
      modifies this, queue, writeRequests
      ensures Shaped() && View() == Spec.OnWrite(old(View()), r)
    {
      NoteWriteSettled(r.Ok?);
      match r
      case Ok =>
        WriteFulfilled();
      case Failed(e) =>
        ClearIfWritable();
        WriteRejected(e);
    }

    method NoteWriteSettled(ok: bool)
      requires Shaped() && writesOut > 0
      modifies this`writesOut, this`results
      ensures Shaped()
      ensures View() == old(View()).(writesOut := old(writesOut) - 1, results := old(results) + [ok])
    {
      writesOut := writesOut - 1;
      results := results + [ok];
    }

    method ClearIfWritable()
      requires Shaped()
      modifies this`cleared
      ensures Shaped()
      ensures View() == if old(state).Writable? then old(View()).(cleared := true) else old(View())
    {
      if state.Writable? {
        cleared := true;
      }
    }

    method WriteFulfilled()
      requires Shaped()
      modifies this, queue, writeRequests
      ensures Shaped()
      ensures View() == Spec.AdvanceQueueIfNeeded(
                          Spec.RefreshBackpressure(Spec.Dequeue(Spec.FinishInFlightWrite(old(View()), Fulfilled))))
    {
      FinishInFlightWrite(Fulfilled);
      Dequeue();
      RefreshBackpressure();
      AdvanceQueueIfNeeded();
    }

    method WriteRejected(e: Reason)
      requires Shaped()
      modifies this, queue, writeRequests
      ensures Shaped()
      ensures View() == Spec.DealWithRejection(Spec.FinishInFlightWrite(old(View()), Rejected(e)), e)
    {
      FinishInFlightWrite(Rejected(e));
      DealWithRejection(e);
    }

    method SettlePendingAbort(outcome: Outcome)
      requires Shaped()
      modifies this`pendingAbort, this`aborts, this`faults
      ensures Shaped() && View() == Spec.SettlePendingAbort(old(View()), outcome)
    {
      if pendingAbort.AbortRequest? {
        SettleAbort(pendingAbort.id, outcome);
        pendingAbort := NoAbort;
      }
    }

    method FinishInFlightClose(outcome: Outcome)
      requires Shaped()
      modifies this`inFlightClose, this`closes, this`faults
      ensures Shaped() && View() == Spec.FinishInFlightClose(old(View()), outcome)
    {
      SettleClose(inFlightClose, outcome);
      inFlightClose := None;
    }

    method NoteCloseSettled()
      requires Shaped() && closesOut > 0
      modifies this`closesOut
      ensures Shaped() && View() == old(View()).(closesOut := old(closesOut) - 1)
    {
      closesOut := closesOut - 1;
    }

    /** A close that succeeds wins over an error: a waiting abort is fulfilled. */
    method ForgiveIfErroring()
      requires Shaped()
      modifies this`pendingAbort, this`aborts, this`faults, this`storedError
      ensures Shaped()
      ensures View() == if old(state).Erroring?
                        then Spec.SettlePendingAbort(old(View()), Fulfilled).(storedError := Undefined)
                        else old(View())
    {
      if state.Erroring? {
        SettlePendingAbort(Fulfilled);
        storedError := Undefined;
      }
    }

    method MarkClosed()
      requires Shaped()
      modifies this`state, this`writer
      ensures Shaped() && View() == Spec.MarkClosed(old(View()))
    {
      state := Closed;
      if writer.Writer? {
        writer := writer.(closed := writer.closed.Resolve());
      }
    }

    method CloseSettled(r: Settlement)
      requires Shaped() && closesOut > 0
      modifies this, queue, writeRequests
      ensures Shaped() && View() == Spec.OnClose(old(View()), r)
    {
      NoteCloseSettled();
      match r
      case Ok =>
        FinishInFlightClose(Fulfilled);
        ForgiveIfErroring();
        MarkClosed();
      case Failed(e) =>
        FinishInFlightClose(Rejected(e));
        SettlePendingAbort(Rejected(e));
        DealWithRejection(e);
    }

    method AbortSettled(r: Settlement)
      requires Shaped() && abortsOut != []
      modifies this
      ensures Shaped() && View() == Spec.OnAbort(old(View()), r)
    {
      var id := abortsOut[0];
      abortsOut := abortsOut[1..];
      SettleAbort(id, if r.Ok? then Fulfilled else Rejected(r.error));
      RejectCloseAndClosed();
    }

    // ------------------------------------------------------------- the way in

    /** What the step to come keeps. */
    lemma Before(e: Event<T>)
      requires Valid()
      ensures var s := Step(View(), e);
              && Inv(s) && CloseMeans(s) && Told(s) && KeepsPromises(s) && AllKept(View(), s)
              && Follows(View(), e, s)
    {
      StepTold(View(), e);
      StepFollows(View(), e);
      StepKeepsInv(View(), e);
      StepKeepsCloseMeans(View(), e);
      PromisesFromInv(Step(View(), e));
      StepKeepsSettled(View(), e);
    }

    method GetWriter()
      requires Valid()
      modifies this`writer
      ensures Valid() && View() == Step(old(View()), GetWriterCall)
      ensures KeepsPromises(View()) && AllKept(old(View()), View())
      ensures Follows(old(View()), GetWriterCall, View())
    {
      hide Inv, CloseMeans, Told, KeepsPromises, AllKept, Follows, Spec.GetWriter;
      Before(GetWriterCall);
      AttachWriter();
    }

    method ReleaseWriter()
      requires Valid()
      modifies this`writer
      ensures Valid() && View() == Step(old(View()), ReleaseCall)
      ensures KeepsPromises(View()) && AllKept(old(View()), View())
      ensures Follows(old(View()), ReleaseCall, View())
    {
      hide Inv, CloseMeans, Told, KeepsPromises, AllKept, Follows, Spec.ReleaseWriter;
      Before(ReleaseCall);
      DetachWriter();
    }

    method Write(chunk: T, size: SizeResult) returns (reply: Reply)
      requires Valid()
      modifies this, queue, writeRequests
      ensures Valid() && View() == Step(old(View()), WriteCall(chunk, size))
      ensures WriteReplied(old(View()), chunk, size, View(), reply)
      ensures KeepsPromises(View()) && AllKept(old(View()), View())
      ensures Follows(old(View()), WriteCall(chunk, size), View())
    {
      hide Inv, CloseMeans, Told, KeepsPromises, AllKept, Follows, Spec.Write;
      Before(WriteCall(chunk, size));
      if writer.NoWriter? {
        return RejectedWith(InvalidState);
      }
      WriteReplies(View(), chunk, size);
      reply := WriterWrite(chunk, size);
    }

    method Close() returns (reply: Reply)
      requires Valid()
      modifies this, queue, writeRequests
      ensures Valid() && View() == Step(old(View()), CloseCall)
      ensures CloseReplied(old(View()), View(), reply)
      ensures KeepsPromises(View()) && AllKept(old(View()), View())
      ensures Follows(old(View()), CloseCall, View())
    {
      hide Inv, CloseMeans, Told, KeepsPromises, AllKept, Follows, Spec.Close;
      Before(CloseCall);
      CloseReplies(View());
      reply := WritableClose();
    }

    method Abort(reason: Reason) returns (reply: Reply)
      requires Valid()
      modifies this, queue, writeRequests
      ensures Valid() && View() == Step(old(View()), AbortCall(reason))
      ensures AbortReplied(old(View()), reason, View(), reply)
      ensures KeepsPromises(View()) && AllKept(old(View()), View())
      ensures Follows(old(View()), AbortCall(reason), View())
    {
      hide Inv, CloseMeans, Told, KeepsPromises, AllKept, Follows, Spec.Abort;
      Before(AbortCall(reason));
      AbortReplies(View(), reason);
      reply := WritableAbort(reason);
    }

    method Error(reason: Reason)
      requires Valid()
      modifies this, queue, writeRequests
      ensures Valid() && View() == Step(old(View()), SinkErrorCall(reason))
      ensures KeepsPromises(View()) && AllKept(old(View()), View())
      ensures Follows(old(View()), SinkErrorCall(reason), View())
    {
      hide Inv, CloseMeans, Told, KeepsPromises, AllKept, Follows, Spec.ControllerErrorIfNeeded;
      Before(SinkErrorCall(reason));
      ControllerErrorIfNeeded(reason);
    }

    method OnStart(r: Settlement)
      requires Valid() && startOut
      modifies this, queue, writeRequests
      ensures Valid() && View() == Step(old(View()), StartSettles(r))
      ensures KeepsPromises(View()) && AllKept(old(View()), View())
      ensures Follows(old(View()), StartSettles(r), View())
    {
      hide Inv, CloseMeans, Told, KeepsPromises, AllKept, Follows, Spec.OnStart;
      Before(StartSettles(r));
      StartSettled(r);
    }

    method OnWrite(r: Settlement)
      requires Valid() && writesOut > 0
      modifies this, queue, writeRequests
      ensures Valid() && View() == Step(old(View()), WriteSettles(r))
      ensures KeepsPromises(View()) && AllKept(old(View()), View())
      ensures Follows(old(View()), WriteSettles(r), View())
    {
      hide Inv, CloseMeans, Told, KeepsPromises, AllKept, Follows, Spec.OnWrite;
      Before(WriteSettles(r));
      WriteSettled(r);
    }

    method OnClose(r: Settlement)
      requires Valid() && closesOut > 0
      modifies this, queue, writeRequests
      ensures Valid() && View() == Step(old(View()), CloseSettles(r))
      ensures KeepsPromises(View()) && AllKept(old(View()), View())
      ensures Follows(old(View()), CloseSettles(r), View())
    {
      hide Inv, CloseMeans, Told, KeepsPromises, AllKept, Follows, Spec.OnClose;
      Before(CloseSettles(r));
      CloseSettled(r);
    }

    method OnAbort(r: Settlement)
      requires Valid() && abortsOut != []
      modifies this
      ensures Valid() && View() == Step(old(View()), AbortSettles(r))
      ensures KeepsPromises(View()) && AllKept(old(View()), View())
      ensures Follows(old(View()), AbortSettles(r), View())
    {
      hide Inv, CloseMeans, Told, KeepsPromises, AllKept, Follows, Spec.OnAbort;
      Before(AbortSettles(r));
      AbortSettled(r);
    }
  }
}
