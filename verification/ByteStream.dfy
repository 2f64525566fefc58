/** A readable byte stream as an object whose fields its methods update in place.  Each
    method takes the object's value where the function of ByteSpec takes it.  The methods a
    user or a settled promise enters by keep all that is proved of the runs as well. */
module ByteStreamObject {
  import opened Base
  import opened Fifo
  import opened ByteSpec
  import opened ByteProofs
  import opened ByteObject
  import opened BytePromises
  import Answers = ByteAnswers
  import Spec = ByteSpec
  import Steps = ByteSteps

  class ByteStream {
    var state: State
    var error: Reason
    const queue: Queue<Bytes>
    const highWaterMark: nat
    var reader: Reader
    const waiters: Queue<nat>
    var pullIntos: seq<Descriptor>
    const readIntos: Queue<nat>
    var started: bool
    var pulling: bool
    var pullAgain: bool
    var closeRequested: bool
    var startOut: bool
    var pullsOut: nat
    var pulls: nat
    var answers: seq<Answer>
    ghost var asked: seq<Option<PullInto>>
    ghost var supplied: Bytes
    ghost var order: seq<nat>
    ghost var delivered: Bytes
    ghost var faults: nat

    ghost predicate Shaped()
      reads this, queue, waiters, readIntos, pullIntos
    {
      && queue.Valid() && waiters.Valid() && readIntos.Valid()
      && queue as object != waiters as object && queue as object != readIntos as object && waiters != readIntos
      && AllShaped(pullIntos) && Apart(pullIntos)
    }

    ghost function View(): Stream
      requires Shaped()
      reads this, queue, waiters, readIntos, pullIntos, Buffers(pullIntos)
    {
      Stream(state, error, queue.Contents(), highWaterMark, reader, Items(waiters.Contents()), Values(pullIntos),
             Items(readIntos.Contents()), started, pulling, pullAgain, closeRequested, startOut, pullsOut, pulls,
             answers, asked, supplied, order, delivered, faults)
    }

    ghost predicate Valid()
      reads this, queue, waiters, readIntos, pullIntos, Buffers(pullIntos)
    {
      Shaped() && Good(View())
    }

    constructor (highWaterMark: nat)
      ensures Valid() && fresh(queue) && fresh(waiters) && fresh(readIntos) && pullIntos == []
      ensures View() == Spec.Init(highWaterMark)
    {
      state, error, reader, pullIntos := Readable, Undefined, NoReader, [];
      this.highWaterMark := highWaterMark;
      started, pulling, pullAgain, closeRequested := false, false, false, false;
      startOut, pullsOut, pulls, answers := true, 0, 0, [];
      asked, supplied, order, delivered, faults := [], [], [], [], 0;
      var q := new Queue<Bytes>();
      var w := new Queue<nat>();
      var r := new Queue<nat>();
      queue, waiters, readIntos := q, w, r;
      new;
      hide Good;
      InitGood(highWaterMark);
    }

    // ----------------------------------------------------------------- answering

    method ShouldCallPull() returns (should: bool)
      requires Shaped()
      ensures should == Spec.ShouldCallPull(View())
    {
      if !state.Readable? || closeRequested || !started {
        return false;
      }
      if !reader.NoReader? && (waiters.Length() > 0 || readIntos.Length() > 0) {
        return true;
      }
      return highWaterMark - queue.totalSize > 0;
    }

    method CallPullIfNeeded()
      requires Shaped()
      modifies this`pulling, this`pullAgain, this`pullsOut, this`pulls
      ensures Shaped() && View() == Spec.CallPullIfNeeded(old(View()))
    {
      var should := ShouldCallPull();
      if should {
        RequestPull();
      }
    }

    method RequestPull()
      requires Shaped() && Spec.ShouldCallPull(View())
      modifies this`pulling, this`pullAgain, this`pullsOut, this`pulls
      ensures Shaped() && View() == Spec.CallPullIfNeeded(old(View()))
    {
      if pulling {
        pullAgain := true;
      } else {
        BeginPull();
      }
    }

    method BeginPull()
      requires Shaped()
      modifies this`pulling, this`pullsOut, this`pulls
      ensures Shaped()
      ensures View() == old(View()).(pulling := true, pullsOut := old(pullsOut) + 1, pulls := old(pulls) + 1)
    {
      pulling, pullsOut, pulls := true, pullsOut + 1, pulls + 1;
    }

    ghost method Note(id: nat, a: Answer)
      requires Shaped()
      modifies this`order, this`delivered
      ensures Shaped() && View() == Spec.Note(old(View()), id, a)
    {
      if Carries(a) {
        order, delivered := order + [id], delivered + a.bytes;
      }
    }

    method Settle(id: nat, a: Answer)
      requires Shaped()
      modifies this`answers, this`order, this`delivered, this`faults
      ensures Shaped() && View() == Spec.Settle(old(View()), id, a)
    {
      SetAnswer(id, a);
      Note(id, a);
    }

    method SetAnswer(id: nat, a: Answer)
      requires Shaped()
      modifies this`answers, this`faults
      ensures Shaped()
      ensures View() == old(View()).(
                        answers := if id < |old(answers)| then old(answers)[id := a] else old(answers),
                        faults := old(faults) + if id < |old(answers)| && old(answers)[id].Waiting? then 0 else 1)
    {
      var waits := id < |answers| && answers[id].Waiting?;
      faults := faults + if waits then 0 else 1;
      if id < |answers| {
        answers := answers[id := a];
      }
    }

    /** A new read's answer, and the view it asked for, if any. */
    method AddAnswer(a: Answer, ghost ask: Option<PullInto>)
      requires Shaped()
      modifies this`answers, this`asked
      ensures Shaped() && View() == old(View()).(answers := old(answers) + [a], asked := old(asked) + [ask])
    {
      answers, asked := answers + [a], asked + [ask];
    }

    method NewRead(a: Answer)
      requires Shaped()
      modifies this`answers, this`asked, this`order, this`delivered
      ensures Shaped() && View() == Spec.NewRead(old(View()), a)
    {
      AddAnswer(a, None);
      Note(|answers| - 1, a);
    }

    method NewReadInto(a: Answer, ghost d: PullInto)
      requires Shaped()
      modifies this`answers, this`asked, this`order, this`delivered
      ensures Shaped() && View() == Spec.NewReadInto(old(View()), a, d)
    {
      AddAnswer(a, Some(d));
      Note(|answers| - 1, a);
    }

    method ShiftWaiter() returns (id: nat)
      requires Shaped() && View().waiters != []
      modifies waiters
      ensures Shaped() && id == old(View()).waiters[0]
      ensures View() == old(View()).(waiters := old(View()).waiters[1..])
    {
      ItemsTail(waiters.Contents());
      var r := waiters.Shift();
      id := r.value;
    }

    method ShiftReadInto() returns (id: nat)
      requires Shaped() && View().readIntos != []
      modifies readIntos
      ensures Shaped() && id == old(View()).readIntos[0]
      ensures View() == old(View()).(readIntos := old(View()).readIntos[1..])
    {
      ItemsTail(readIntos.Contents());
      var r := readIntos.Shift();
      id := r.value;
    }

    method SettleWaiters(a: Answer)
      requires Shaped()
      modifies this`answers, this`order, this`delivered, this`faults, waiters
      ensures Shaped() && View() == Spec.SettleWaiters(old(View()), a)
    {
      while waiters.Length() > 0
        invariant Shaped()
        invariant Spec.SettleWaiters(View(), a) == Spec.SettleWaiters(old(View()), a)
        decreases waiters.Length()
      {
        var id := ShiftWaiter();
        Settle(id, a);
      }
    }

    method SettleReadIntos(a: Answer)
      requires Shaped()
      modifies this`answers, this`order, this`delivered, this`faults, readIntos
      ensures Shaped() && View() == Spec.SettleReadIntos(old(View()), a)
    {
      while readIntos.Length() > 0
        invariant Shaped()
        invariant Spec.SettleReadIntos(View(), a) == Spec.SettleReadIntos(old(View()), a)
        decreases readIntos.Length()
      {
        var id := ShiftReadInto();
        Settle(id, a);
      }
    }

    // ------------------------------------------------------------------- closing

    method SetState(next: State)
      requires Shaped()
      modifies this`state
      ensures Shaped() && View() == old(View()).(state := next)
    {
      state := next;
    }

    method Drop()
      requires Shaped()
      modifies this`pullIntos, queue
      ensures Shaped() && View() == old(View()).(pullIntos := [], queue := []) && pullIntos == []
    {
      pullIntos := [];
      queue.Clear();
    }

    method CloseStream()
      requires Shaped()
      modifies this, waiters
      ensures Shaped() && View() == Spec.CloseStream(old(View())) && pullIntos == old(pullIntos)
    {
      SetState(Closed);
      SettleWaiters(Done);
    }

    method MarkErrored(reason: Reason)
      requires Shaped()
      modifies this, queue
      ensures Shaped() && pullIntos == []
      ensures View() == old(View()).(state := Errored, error := reason, queue := [], pullIntos := [])
    {
      Drop();
      state, error := Errored, reason;
    }

    method ErrorStream(reason: Reason)
      requires Shaped()
      modifies this, queue, waiters, readIntos
      ensures Shaped() && View() == Spec.ErrorStream(old(View()), reason)
      ensures pullIntos == old(pullIntos) || pullIntos == []
    {
      if state.Readable? {
        MarkErrored(reason);
        SettleWaiters(ReadFailed(reason));
        SettleReadIntos(ReadFailed(reason));
      }
    }

    method StreamCancel()
      requires Shaped()
      modifies this, queue, waiters, readIntos
      ensures Shaped() && View() == Spec.Cancel(old(View()))
      ensures pullIntos == old(pullIntos) || pullIntos == []
    {
      if state.Readable? {
        CloseStream();
        SettleReadIntos(Done);
        Drop();
      }
    }

    // --------------------------------------------------------- handing views over

    method Commit(d: Descriptor)
      requires Shaped() && d.Shaped()
      modifies this`answers, this`order, this`delivered, this`faults, readIntos
      ensures Shaped() && View() == Spec.Commit(old(View()), d.Value())
    {
      if readIntos.Length() == 0 {
        faults := faults + 1;
        return;
      }
      var id := ShiftReadInto();
      Settle(id, Answer.View(d.Filled(), state.Closed?));
    }

    method CommitAll(ds: seq<Descriptor>)
      requires Shaped() && AllShaped(ds)
      modifies this`answers, this`order, this`delivered, this`faults, readIntos
      ensures Shaped() && Values(ds) == old(Values(ds)) && View() == Spec.CommitAll(old(View()), old(Values(ds)))
    {
      var i := 0;
      ghost var vs := Values(ds);
      ghost var goal := Spec.CommitAll(View(), vs);
      assert vs[0..] == vs;
      while i < |ds|
        invariant Shaped() && i <= |ds| && Values(ds) == vs
        invariant goal == Spec.CommitAll(View(), vs[i..])
      {
        CommitAllStep(View(), vs, i);
        CommitAt(ds, i);
        i := i + 1;
      }
      assert vs[i..] == [];
    }

    method CommitAt(ds: seq<Descriptor>, i: nat)
      requires Shaped() && AllShaped(ds) && i < |ds|
      modifies this`answers, this`order, this`delivered, this`faults, readIntos
      ensures Shaped() && Values(ds) == old(Values(ds)) && View() == Spec.Commit(old(View()), old(Values(ds))[i])
    {
      assert Values(ds)[i] == ds[i].Value();
      Commit(ds[i]);
    }

    // ------------------------------------------------------- filling from the queue

    method ProcessInPlace() returns (done: nat)
      requires Shaped() && Sized(queue.Contents())
      requires Line(View().pullIntos) && NoneReleased(View().pullIntos)
      modifies queue, pullIntos, Buffers(pullIntos)
      ensures Shaped() && done <= |pullIntos|
      ensures var p := Process(old(View()).queue, old(View()).pullIntos);
              && done == |p.filled|
              && View() == old(View()).(queue := p.queue, pullIntos := View().pullIntos)
              && View().pullIntos[..done] == p.filled && View().pullIntos[done..] == p.pullIntos
    {
      done := ProcessPending(queue, pullIntos);
    }

    method TakeDone(done: nat) returns (filled: seq<Descriptor>)
      requires Shaped() && done <= |pullIntos|
      modifies this`pullIntos
      ensures Shaped() && AllShaped(filled) && old(pullIntos) == filled + pullIntos
      ensures Values(filled) == old(View()).pullIntos[..done]
      ensures View() == old(View()).(pullIntos := old(View()).pullIntos[done..])
    {
      SliceValues(pullIntos, done);
      filled := pullIntos[..done];
      pullIntos := pullIntos[done..];
    }

    /** Fills what it can and takes the complete descriptors off the line. */
    method ProcessUsingQueue() returns (filled: seq<Descriptor>)
      requires Shaped() && Sized(queue.Contents())
      requires Line(View().pullIntos) && NoneReleased(View().pullIntos)
      modifies this`pullIntos, queue, pullIntos, Buffers(pullIntos)
      ensures Shaped() && AllShaped(filled) && old(pullIntos) == filled + pullIntos
      ensures View() == Spec.ProcessPullIntos(old(View())).0
      ensures Values(filled) == Spec.ProcessPullIntos(old(View())).1
    {
      ProcessFaultless(View().queue, View().pullIntos);
      var done := ProcessInPlace();
      filled := TakeDone(done);
    }

    method ProcessAndCommit()
      requires Shaped() && Sized(queue.Contents())
      requires Line(View().pullIntos) && NoneReleased(View().pullIntos)
      modifies this, queue, readIntos, pullIntos, Buffers(pullIntos)
      ensures Shaped() && View() == Spec.ProcessAndCommit(old(View()))
      ensures forall d :: d in pullIntos ==> d in old(pullIntos)
    {
      var filled := ProcessUsingQueue();
      CommitAll(filled);
    }

    method Push(chunk: Bytes)
      requires Shaped()
      modifies queue
      ensures Shaped() && View() == Spec.Push(old(View()), chunk)
    {
      queue.Push(chunk, |chunk|);
    }

    method ShiftPullInto()
      requires Shaped() && pullIntos != []
      modifies this`pullIntos
      ensures Shaped() && pullIntos == old(pullIntos)[1..]
      ensures View() == old(View()).(pullIntos := old(View()).pullIntos[1..])
    {
      pullIntos := pullIntos[1..];
      assert Values(pullIntos) == old(Values(pullIntos))[1..];
    }

    method DetachFirst()
      requires Shaped() && pullIntos != []
      modifies this`pullIntos, queue
      ensures Shaped() && pullIntos == old(pullIntos)[1..]
      ensures View() == Spec.DetachFirst(old(View()))
    {
      var held := pullIntos[0].Filled();
      assert held == View().pullIntos[0].filled;
      if held != [] {
        Push(held);
      }
      ShiftPullInto();
    }

    method GiveToWaiter(bytes: Bytes)
      requires Shaped() && View().waiters != []
      modifies this`answers, this`order, this`delivered, this`faults, waiters
      ensures Shaped() && View() == Spec.GiveToWaiter(old(View()), bytes)
    {
      var id := ShiftWaiter();
      Settle(id, Chunk(bytes));
    }

    method ShiftChunk() returns (bytes: Bytes)
      requires Shaped() && View().queue != []
      modifies queue
      ensures Shaped() && bytes == old(View()).queue[0].item
      ensures View() == old(View()).(queue := old(View()).queue[1..])
    {
      var r := queue.Shift();
      bytes := r.value;
    }

    method DrainToWaiters()
      requires Shaped()
      modifies this`answers, this`order, this`delivered, this`faults, waiters, queue
      ensures Shaped() && View() == Spec.DrainToWaiters(old(View()))
    {
      while waiters.Length() > 0 && queue.Length() > 0
        invariant Shaped()
        invariant Spec.DrainToWaiters(View()) == Spec.DrainToWaiters(old(View()))
        decreases queue.Length()
      {
        var value := ShiftChunk();
        GiveToWaiter(value);
      }
    }

    ghost method Supply(bytes: Bytes)
      requires Shaped()
      modifies this`supplied
      ensures Shaped() && View() == old(View()).(supplied := old(View()).supplied + bytes)
    {
      supplied := supplied + bytes;
    }

    method Detach()
      requires Shaped()
      modifies this`pullIntos, queue
      ensures Shaped() && View() == Detached(old(View()))
      ensures pullIntos == old(pullIntos) || (old(pullIntos) != [] && pullIntos == old(pullIntos)[1..])
    {
      if pullIntos != [] && pullIntos[0].released {
        DetachFirst();
      }
    }

    // --------------------------------------------------------- the source's answers

    method EnqueueByob(chunk: Bytes)
      requires Shaped() && Sized(queue.Contents())
      requires Line(View().pullIntos) && NoneReleased(View().pullIntos)
      modifies this, queue, readIntos, pullIntos, Buffers(pullIntos)
      ensures Shaped() && View() == Spec.ProcessAndCommit(Spec.Push(old(View()), chunk))
      ensures forall d :: d in pullIntos ==> d in old(pullIntos)
    {
      Push(chunk);
      ProcessAndCommit();
    }

    method EnqueueDefault(chunk: Bytes)
      requires Shaped()
      modifies this`answers, this`order, this`delivered, this`faults, waiters, queue
      ensures Shaped()
      ensures var u := Spec.DrainToWaiters(old(View()));
              View() == if u.waiters != [] then Spec.GiveToWaiter(u, chunk) else Spec.Push(u, chunk)
    {
      DrainToWaiters();
      if waiters.Length() > 0 {
        GiveToWaiter(chunk);
      } else {
        Push(chunk);
      }
    }

    method DetachAndSupply(chunk: Bytes)
      requires Shaped() && Inv(View()) && state.Readable?
      modifies this`pullIntos, this`supplied, queue
      ensures Shaped() && View() == Detached(old(View())).(supplied := old(View()).supplied + chunk)
      ensures Sized(queue.Contents()) && Line(View().pullIntos) && NoneReleased(View().pullIntos)
      ensures pullIntos == old(pullIntos) || (old(pullIntos) != [] && pullIntos == old(pullIntos)[1..])
    {
      DetachedEffect(View());
      Detach();
      Supply(chunk);
    }

    method ControllerEnqueue(chunk: Bytes)
      requires Shaped() && Inv(View()) && Spec.CanCloseOrEnqueue(View())
      modifies this, queue, waiters, readIntos, pullIntos, Buffers(pullIntos)
      ensures Shaped() && View() == Spec.Enqueue(old(View()), chunk)
      ensures forall d :: d in pullIntos ==> d in old(pullIntos)
    {
      DetachAndSupply(chunk);
      EnqueueSupplied(chunk);
    }

    method EnqueueSupplied(chunk: Bytes)
      requires Shaped() && Sized(queue.Contents()) && Line(View().pullIntos) && NoneReleased(View().pullIntos)
      modifies this, queue, waiters, readIntos, pullIntos, Buffers(pullIntos)
      ensures Shaped() && (forall d :: d in pullIntos ==> d in old(pullIntos))
      ensures var t := old(View());
              View() ==
                if t.reader.ByobReader? then Spec.CallPullIfNeeded(Spec.ProcessAndCommit(Spec.Push(t, chunk)))
                else
                  var u := Spec.DrainToWaiters(t);
                  Spec.CallPullIfNeeded(if u.waiters != [] then Spec.GiveToWaiter(u, chunk) else Spec.Push(u, chunk))
    {
      if reader.ByobReader? {
        EnqueueByob(chunk);
      } else {
        EnqueueDefault(chunk);
      }
      CallPullIfNeeded();
    }

    method ControllerClose()
      requires Shaped()
      modifies this, queue, waiters, readIntos
      ensures Shaped() && View() == Spec.ControllerClose(old(View()))
    {
      if !state.Readable? || closeRequested {
        return;
      }
      if queue.Length() > 0 {
        closeRequested := true;
        return;
      }
      if pullIntos != [] && pullIntos[0].bytesFilled % pullIntos[0].elementSize != 0 {
        assert |View().pullIntos[0].filled| == pullIntos[0].bytesFilled;
        ErrorStream(InvalidState);
        return;
      }
      CloseStream();
    }

    // ------------------------------------------------------------------ respond()

    /** The source has written `data` behind the bytes of the first descriptor. */
    method WriteToFirst(data: Bytes)
      requires Shaped() && pullIntos != []
      requires |View().pullIntos[0].filled| + |data| <= View().pullIntos[0].byteLength
      modifies this`supplied, pullIntos[0], pullIntos[0].buffer
      ensures Shaped() && View() == WithData(old(View()), data)
    {
      AppendToFirst(pullIntos, data);
      Supply(data);
    }

    /** Takes the complete first descriptor off the line; what does not fill an element of it
        is queued again. */
    method TakeFirst() returns (d: Descriptor)
      requires Shaped() && pullIntos != []
      modifies this`pullIntos, queue, pullIntos[0]
      ensures Shaped() && d == old(pullIntos)[0] && d.Shaped() && pullIntos == old(pullIntos)[1..]
      ensures (View(), d.Value()) == Spec.TakeFirst(old(View()))
    {
      d := pullIntos[0];
      assert View().pullIntos[0] == d.Value();
      hide Spec.Push;
      var held := d.Filled();
      var whole := |held| - |held| % d.elementSize;
      ShiftPullInto();
      QueueAgain(held, whole);
      TruncateBeside(d, whole);
    }

    /** The bytes of a last, partial element are queued again. */
    method QueueAgain(held: Bytes, whole: nat)
      requires Shaped() && whole <= |held|
      modifies queue
      ensures Shaped()
      ensures View() == if whole < |held| then Spec.Push(old(View()), held[whole..]) else old(View())
    {
      if whole < |held| {
        Push(held[whole..]);
      }
    }

    method TruncateBeside(d: Descriptor, n: nat)
      requires Shaped() && d.Shaped() && n <= d.bytesFilled && d !in pullIntos
      modifies d
      ensures Shaped() && View() == old(View()) && d.Shaped()
      ensures d.Value() == old(d.Value()).(filled := old(d.Value()).filled[..n])
    {
      d.Truncate(n);
      assert Values(pullIntos) == old(Values(pullIntos));
    }

    method CompleteFirst()
      requires Shaped() && Completing(View())
      modifies this, queue, readIntos, pullIntos, Buffers(pullIntos)
      ensures Shaped() && View() == Spec.CompleteFirst(old(View()))
      ensures forall d :: d in pullIntos ==> d in old(pullIntos)
    {
      TakeFirstEffect(View());
      var d := TakeFirst();
      var ds := ProcessBehind(d);
      CommitAll(ds);
    }

    /** Fills the descriptors behind `d`, which is off the line, and lists it before them. */
    method ProcessBehind(d: Descriptor) returns (ds: seq<Descriptor>)
      requires Shaped() && Sized(queue.Contents()) && d.Shaped()
      requires Line(View().pullIntos) && NoneReleased(View().pullIntos)
      requires forall c :: c in pullIntos ==> c != d && c.buffer != d.buffer
      modifies this`pullIntos, queue, pullIntos, Buffers(pullIntos)
      ensures Shaped() && AllShaped(ds) && (forall c :: c in pullIntos ==> c in old(pullIntos))
      ensures View() == Spec.ProcessPullIntos(old(View())).0
      ensures Values(ds) == [old(d.Value())] + Spec.ProcessPullIntos(old(View())).1
    {
      var filled := ProcessUsingQueue();
      ds := [d] + filled;
      ValuesCons(d, filled);
    }

    method RespondInReadableState(data: Bytes)
      requires Shaped() && Inv(View()) && state.Readable? && pullIntos != []
      requires |View().pullIntos[0].filled| + |data| <= View().pullIntos[0].byteLength
      modifies this, queue, readIntos, pullIntos, Buffers(pullIntos)
      ensures Shaped() && View() == Spec.RespondInReadableState(old(View()), data)
      ensures forall d :: d in pullIntos ==> d in old(pullIntos)
    {
      assert View().pullIntos[0] == pullIntos[0].Value();
      hide Inv, Spec.ProcessAndCommit, Spec.CompleteFirst, Completing;
      if pullIntos[0].released {
        RespondReleased(data);
      } else if pullIntos[0].bytesFilled + |data| >= pullIntos[0].minimumFill {
        WithDataCompleting(View(), data);
        WriteToFirst(data);
        CompleteFirst();
      } else {
        WriteToFirst(data);
      }
    }

    method RespondReleased(data: Bytes)
      requires Shaped() && Inv(View()) && state.Readable? && pullIntos != [] && View().pullIntos[0].released
      requires |View().pullIntos[0].filled| + |data| <= View().pullIntos[0].byteLength
      modifies this, queue, readIntos, pullIntos, Buffers(pullIntos)
      ensures Shaped() && View() == Spec.ProcessAndCommit(Spec.DetachFirst(WithData(old(View()), data)))
      ensures forall d :: d in pullIntos ==> d in old(pullIntos)
    {
      WithDataDetached(View(), data);
      hide Inv, Spec.ProcessAndCommit;
      WriteToFirst(data);
      DetachFirst();
      ProcessAndCommit();
    }

    method CommitPending()
      requires Shaped()
      modifies this, readIntos
      ensures Shaped() && View() == Spec.CommitPending(old(View()))
    {
      var pending := readIntos.Length();
      if pending <= |pullIntos| {
        SliceValues(pullIntos, pending);
        var filled := TakeDone(pending);
        CommitAll(filled);
      } else {
        faults := faults + 1;
      }
    }

    method RespondInClosedState()
      requires Shaped() && pullIntos != []
      modifies this, readIntos
      ensures Shaped() && View() == Spec.RespondInClosedState(old(View()))
    {
      assert View().pullIntos[0] == pullIntos[0].Value();
      if pullIntos[0].released {
        ShiftPullInto();
      }
      if reader.ByobReader? {
        CommitPending();
      }
    }

    method ControllerRespond(data: Bytes)
      requires Shaped() && Inv(View())
      modifies this, queue, readIntos, pullIntos, Buffers(pullIntos)
      ensures Shaped() && View() == Spec.Respond(old(View()), data)
    {
      if pullIntos == [] {
        return;
      }
      assert View().pullIntos[0] == pullIntos[0].Value();
      if state.Closed? {
        if data == [] {
          RespondInClosedState();
        }
      } else if data != [] && pullIntos[0].bytesFilled + |data| <= pullIntos[0].byteLength {
        RespondInReadableState(data);
        CallPullIfNeeded();
      }
    }

    // --------------------------------------------------------------- the readers

    method ReaderRead()
      requires Shaped()
      modifies this, queue, waiters
      ensures Shaped() && View() == Spec.Read(old(View()))
    {
      match state
      case Closed => NewRead(Done);
      case Errored => NewRead(ReadFailed(error));
      case Readable =>
        if queue.Length() > 0 {
          TakeChunk();
        } else {
          AddWaiter();
          CallPullIfNeeded();
        }
    }

    method AddWaiter()
      requires Shaped()
      modifies this`answers, this`asked, this`order, this`delivered, waiters
      ensures Shaped()
      ensures View() == Spec.NewRead(old(View()), Waiting).(waiters := old(View()).waiters + [|old(answers)|])
    {
      hide Spec.NewRead;
      var id := |answers|;
      NewRead(Waiting);
      ItemsAppend(waiters.Contents(), Entry(id, 0));
      waiters.Push(id, 0);
    }

    method TakeChunk()
      requires Shaped() && View().queue != []
      modifies this, queue, waiters
      ensures Shaped() && View() == Spec.TakeChunk(old(View()))
    {
      var value := ShiftChunk();
      NewRead(Chunk(value));
      if closeRequested && queue.Length() == 0 {
        CloseStream();
      } else {
        CallPullIfNeeded();
      }
    }

    method ClearQueue()
      requires Shaped()
      modifies queue
      ensures Shaped() && View() == old(View()).(queue := [])
    {
      queue.Clear();
    }

    method HandleQueueDrain()
      requires Shaped()
      modifies this, queue, waiters
      ensures Shaped() && View() == Spec.HandleQueueDrain(old(View()))
    {
      if queue.totalSize == 0 && closeRequested {
        ClearQueue();
        CloseStream();
      } else {
        CallPullIfNeeded();
      }
    }

    method AddReadInto(d: Descriptor, id: nat)
      requires Shaped() && d.Shaped() && (forall c :: c in pullIntos ==> c != d && c.buffer != d.buffer)
      modifies this`pullIntos, readIntos
      ensures Shaped() && pullIntos == old(pullIntos) + [d]
      ensures View() == old(View()).(pullIntos := old(View()).pullIntos + [d.Value()],
                                     readIntos := old(View()).readIntos + [id])
    {
      ItemsAppend(readIntos.Contents(), Entry(id, 0));
      readIntos.Push(id, 0);
      pullIntos := pullIntos + [d];
      assert Values(pullIntos) == old(Values(pullIntos)) + [d.Value()];
    }

    method Enlist(d: Descriptor, ghost ask: PullInto)
      requires Shaped() && d.Shaped() && (forall c :: c in pullIntos ==> c != d && c.buffer != d.buffer)
      modifies this, readIntos
      ensures Shaped() && View() == Spec.Enlist(old(View()), ask, d.Value())
    {
      var id := |answers|;
      NewReadInto(Waiting, ask);
      AddReadInto(d, id);
    }

    /** A BYOB read that finds bytes queued. */
    method FillNew(d: Descriptor) returns (ready: bool)
      requires Shaped() && Sized(queue.Contents()) && d.Shaped() && Unfilled(d.Value())
      requires forall c :: c in pullIntos ==> c != d && c.buffer != d.buffer
      modifies queue, d, d.buffer
      ensures Shaped() && d.Shaped()
      ensures var f := FillPullInto(old(View()).queue, old(d.Value()));
              d.Value() == f.desc && ready == f.ready && View() == old(View()).(queue := f.queue)
    {
      ready := FillPullIntoFromQueue(queue, d);
      assert Values(pullIntos) == old(Values(pullIntos));
    }

    method AddPullInto(d: Descriptor)
      requires Shaped() && Inv(View()) && d.Shaped() && Unfilled(d.Value())
      requires forall c :: c in pullIntos ==> c != d && c.buffer != d.buffer
      modifies this, queue, waiters, readIntos, d, d.buffer
      ensures Shaped() && View() == Spec.AddPullInto(old(View()), old(d.Value()))
    {
      ghost var ask := d.Value();
      if pullIntos != [] {
        Enlist(d, ask);
        return;
      }
      if state.Closed? {
        NewReadInto(Answer.View([], true), ask);
        return;
      }
      if queue.totalSize == 0 {
        Enlist(d, ask);
        CallPullIfNeeded();
        return;
      }
      AddToQueued(d);
    }

    method AddToQueued(d: Descriptor)
      requires Shaped() && Inv(View()) && d.Shaped() && Unfilled(d.Value())
      requires pullIntos == [] && !state.Closed? && Total(View().queue) != 0
      modifies this, queue, waiters, readIntos, d, d.buffer
      ensures Shaped() && View() == Spec.AddPullInto(old(View()), old(d.Value()))
    {
      ghost var ask := d.Value();
      FillFaultless(View().queue, ask);
      var ready := FillNew(d);
      AnswerOrEnlist(d, ask, ready);
    }

    /** What becomes of a read whose view took what was queued. */
    method AnswerOrEnlist(d: Descriptor, ghost ask: PullInto, ready: bool)
      requires Shaped() && d.Shaped() && pullIntos == []
      modifies this, queue, waiters, readIntos
      ensures Shaped()
      ensures var t := old(View());
              View() ==
                if ready then Spec.HandleQueueDrain(Spec.NewReadInto(t, Answer.View(old(d.Value()).filled, false), ask))
                else if t.closeRequested then Spec.NewRead(Spec.ErrorStream(t, InvalidState), ReadFailed(InvalidState))
                else Spec.CallPullIfNeeded(Spec.Enlist(t, ask, old(d.Value())))
    {
      if ready {
        NewReadInto(Answer.View(d.Filled(), false), ask);
        HandleQueueDrain();
      } else if closeRequested {
        ErrorStream(InvalidState);
        NewRead(ReadFailed(InvalidState));
      } else {
        Enlist(d, ask);
        CallPullIfNeeded();
      }
    }

    /** read(view, { min }): the view's buffer is handed over. */
    method ByobReaderRead(buffer: array<Byte>, byteOffset: nat, length: nat, elementSize: ElementSize, min: nat)
      requires Shaped() && Inv(View())
      requires byteOffset + length * elementSize <= buffer.Length
      requires forall c :: c in pullIntos ==> c.buffer != buffer
      modifies this, queue, waiters, readIntos, buffer
      ensures Shaped() && View() == Spec.ReadInto(old(View()), length, elementSize, min)
    {
      if length == 0 || min == 0 || min > length {
        NewRead(ReadFailed(InvalidState));
        return;
      }
      if state.Errored? {
        NewRead(ReadFailed(error));
        return;
      }
      NewViewUnfilled(length, elementSize, min);
      AddView(buffer, byteOffset, length * elementSize, min * elementSize, elementSize);
    }

    method AddView(buffer: array<Byte>, byteOffset: nat, byteLength: nat, minimumFill: nat, elementSize: ElementSize)
      requires Shaped() && Inv(View()) && byteOffset + byteLength <= buffer.Length
      requires Unfilled(PullInto([], byteLength, minimumFill, elementSize, false))
      requires forall c :: c in pullIntos ==> c.buffer != buffer
      modifies this, queue, waiters, readIntos, buffer
      ensures Shaped()
      ensures View() == Spec.AddPullInto(old(View()), PullInto([], byteLength, minimumFill, elementSize, false))
    {
      var d := new Descriptor(buffer, byteOffset, byteLength, minimumFill, elementSize);
      assert Values(pullIntos) == old(Values(pullIntos));
      assert View() == old(View());
      AddPullInto(d);
    }

    method SetReader(next: Reader)
      requires Shaped()
      modifies this`reader
      ensures Shaped() && View() == Spec.Acquire(old(View()), next)
    {
      reader := next;
    }

    /** A pending view stays behind when its reader goes; any after it do not. */
    method ReleaseFirst()
      requires Shaped()
      modifies this`pullIntos, this`reader, pullIntos
      ensures Shaped()
      ensures View() == old(View()).(reader := NoReader, pullIntos := OnlyReleased(old(View()).pullIntos))
    {
      if pullIntos != [] {
        var first := pullIntos[0];
        assert View().pullIntos[0] == first.Value();
        first.Release();
        pullIntos := [first];
      }
      reader := NoReader;
    }

    method ReaderRelease()
      requires Shaped()
      modifies this, waiters, readIntos, pullIntos
      ensures Shaped() && View() == Spec.Release(old(View()))
    {
      var byob := reader.ByobReader?;
      ReleaseFirst();
      if byob {
        SettleReadIntos(ReadFailed(Reason.Released));
      } else {
        SettleWaiters(ReadFailed(Reason.Released));
      }
    }

    // --------------------------------------------------------------- settlements

    method StartSettled(r: Settlement)
      requires Shaped()
      modifies this, queue, waiters, readIntos
      ensures Shaped() && View() == Spec.OnStart(old(View()), r)
    {
      NoteStart(r.Ok?);
      match r
      case Ok =>
        CallPullIfNeeded();
      case Failed(e) =>
        ErrorStream(e);
    }

    method NoteStart(ok: bool)
      requires Shaped()
      modifies this`startOut, this`started
      ensures Shaped() && View() == old(View()).(startOut := false, started := old(started) || ok)
    {
      startOut, started := false, started || ok;
    }

    method NotePull()
      requires Shaped() && pullsOut > 0
      modifies this`pullsOut
      ensures Shaped() && View() == old(View()).(pullsOut := old(pullsOut) - 1)
    {
      pullsOut := pullsOut - 1;
    }

    method SetPulling(now: bool, again: bool)
      requires Shaped()
      modifies this`pulling, this`pullAgain
      ensures Shaped() && View() == old(View()).(pulling := now, pullAgain := again)
    {
      pulling, pullAgain := now, again;
    }

    method PullSettled(r: Settlement)
      requires Shaped() && pullsOut > 0
      modifies this, queue, waiters, readIntos
      ensures Shaped() && View() == Spec.OnPull(old(View()), r)
    {
      NotePull();
      match r
      case Ok =>
        PullFulfilled();
      case Failed(e) =>
        ErrorStream(e);
    }

    method PullFulfilled()
      requires Shaped()
      modifies this`pulling, this`pullAgain, this`pullsOut, this`pulls
      ensures Shaped()
      ensures var u := old(View()).(pulling := false);
              View() == if u.pullAgain then Spec.CallPullIfNeeded(u.(pullAgain := false)) else u
    {
      var again := pullAgain;
      SetPulling(false, false);
      if again {
        CallPullIfNeeded();
      }
    }

    // ------------------------------------------------------------- the way in

    /** What the step to come keeps. */
    lemma Before(e: Event)
      requires Valid()
      ensures var s := Step(View(), e); Good(s) && KeepsPromises(s) && Answers.Follows(View(), s)
      ensures Inv(View()) && Steps.Follows(View(), e, Step(View(), e))
    {
      Unseal(View());
      StepProved(View(), e);
      Steps.StepFollows(View(), e);
      PromisesFrom(Step(View(), e));
      Seal(Step(View(), e));
    }

    method Acquire(byob: bool)
      requires Valid()
      modifies this`reader
      ensures Valid() && View() == Step(old(View()), AcquireCall(byob))
      ensures KeepsPromises(View()) && Answers.Follows(old(View()), View())
      ensures Steps.Follows(old(View()), AcquireCall(byob), View())
    {
      hide Good, KeepsPromises, Answers.Follows, Steps.Follows, Spec.Acquire;
      Before(AcquireCall(byob));
      if reader.NoReader? {
        SetReader(if byob then ByobReader else DefaultReader);
      }
    }

    method Release()
      requires Valid()
      modifies this, waiters, readIntos, pullIntos
      ensures Valid() && View() == Step(old(View()), ReleaseCall)
      ensures KeepsPromises(View()) && Answers.Follows(old(View()), View())
      ensures Steps.Follows(old(View()), ReleaseCall, View())
    {
      hide Good, KeepsPromises, Answers.Follows, Steps.Follows, Spec.Release;
      Before(ReleaseCall);
      if !reader.NoReader? {
        ReaderRelease();
      }
    }

    method Read()
      requires Valid()
      modifies this, queue, waiters
      ensures Valid() && View() == Step(old(View()), ReadCall)
      ensures KeepsPromises(View()) && Answers.Follows(old(View()), View())
      ensures Steps.Follows(old(View()), ReadCall, View())
    {
      hide Good, KeepsPromises, Answers.Follows, Steps.Follows, Spec.Read;
      Before(ReadCall);
      if reader.DefaultReader? {
        ReaderRead();
      }
    }

    /** read(view, { min }): the view's buffer is handed over. */
    method ReadInto(buffer: array<Byte>, byteOffset: nat, length: nat, elementSize: ElementSize, min: nat)
      requires Valid() && byteOffset + length * elementSize <= buffer.Length
      requires forall c :: c in pullIntos ==> c.buffer != buffer
      modifies this, queue, waiters, readIntos, buffer
      ensures Valid() && View() == Step(old(View()), ReadIntoCall(length, elementSize, min))
      ensures KeepsPromises(View()) && Answers.Follows(old(View()), View())
      ensures Steps.Follows(old(View()), ReadIntoCall(length, elementSize, min), View())
    {
      hide Good, KeepsPromises, Answers.Follows, Steps.Follows, Spec.ReadInto;
      Before(ReadIntoCall(length, elementSize, min));
      if reader.ByobReader? {
        ByobReaderRead(buffer, byteOffset, length, elementSize, min);
      }
    }

    method Cancel()
      requires Valid()
      modifies this, queue, waiters, readIntos
      ensures Valid() && View() == Step(old(View()), CancelCall)
      ensures KeepsPromises(View()) && Answers.Follows(old(View()), View())
      ensures Steps.Follows(old(View()), CancelCall, View())
    {
      hide Good, KeepsPromises, Answers.Follows, Steps.Follows, Spec.Cancel;
      Before(CancelCall);
      StreamCancel();
    }

    method Enqueue(chunk: Bytes)
      requires Valid()
      modifies this, queue, waiters, readIntos, pullIntos, Buffers(pullIntos)
      ensures Valid() && View() == Step(old(View()), EnqueueCall(chunk))
      ensures KeepsPromises(View()) && Answers.Follows(old(View()), View())
      ensures Steps.Follows(old(View()), EnqueueCall(chunk), View())
    {
      hide Good, KeepsPromises, Answers.Follows, Steps.Follows, Spec.Enqueue;
      Before(EnqueueCall(chunk));
      if state.Readable? && !closeRequested {
        ControllerEnqueue(chunk);
      }
    }

    method Respond(data: Bytes)
      requires Valid()
      modifies this, queue, readIntos, pullIntos, Buffers(pullIntos)
      ensures Valid() && View() == Step(old(View()), RespondCall(data))
      ensures KeepsPromises(View()) && Answers.Follows(old(View()), View())
      ensures Steps.Follows(old(View()), RespondCall(data), View())
    {
      hide Good, KeepsPromises, Answers.Follows, Steps.Follows, Spec.Respond;
      Before(RespondCall(data));
      ControllerRespond(data);
    }

    method RespondWithNewView(at: nat, data: Bytes)
      requires Valid()
      modifies this, queue, readIntos, pullIntos, Buffers(pullIntos)
      ensures Valid() && View() == Step(old(View()), NewViewCall(at, data))
      ensures KeepsPromises(View()) && Answers.Follows(old(View()), View())
      ensures Steps.Follows(old(View()), NewViewCall(at, data), View())
    {
      hide Good, KeepsPromises, Answers.Follows, Steps.Follows, Spec.Respond;
      Before(NewViewCall(at, data));
      if pullIntos != [] && pullIntos[0].bytesFilled == at {
        ControllerRespond(data);
      }
    }

    method Close()
      requires Valid()
      modifies this, queue, waiters, readIntos
      ensures Valid() && View() == Step(old(View()), CloseCall)
      ensures KeepsPromises(View()) && Answers.Follows(old(View()), View())
      ensures Steps.Follows(old(View()), CloseCall, View())
    {
      hide Good, KeepsPromises, Answers.Follows, Steps.Follows, Spec.ControllerClose;
      Before(CloseCall);
      ControllerClose();
    }

    method Error(reason: Reason)
      requires Valid()
      modifies this, queue, waiters, readIntos
      ensures Valid() && View() == Step(old(View()), ErrorCall(reason))
      ensures KeepsPromises(View()) && Answers.Follows(old(View()), View())
      ensures Steps.Follows(old(View()), ErrorCall(reason), View())
    {
      hide Good, KeepsPromises, Answers.Follows, Steps.Follows, Spec.ErrorStream;
      Before(ErrorCall(reason));
      ErrorStream(reason);
    }

    method OnStart(r: Settlement)
      requires Valid() && startOut
      modifies this, queue, waiters, readIntos
      ensures Valid() && View() == Step(old(View()), StartSettles(r))
      ensures KeepsPromises(View()) && Answers.Follows(old(View()), View())
      ensures Steps.Follows(old(View()), StartSettles(r), View())
    {
      hide Good, KeepsPromises, Answers.Follows, Steps.Follows, Spec.OnStart;
      Before(StartSettles(r));
      StartSettled(r);
    }

    method OnPull(r: Settlement)
      requires Valid() && pullsOut > 0
      modifies this, queue, waiters, readIntos
      ensures Valid() && View() == Step(old(View()), PullSettles(r))
      ensures KeepsPromises(View()) && Answers.Follows(old(View()), View())
      ensures Steps.Follows(old(View()), PullSettles(r), View())
    {
      hide Good, KeepsPromises, Answers.Follows, Steps.Follows, Spec.OnPull;
      Before(PullSettles(r));
      PullSettled(r);
    }
  }

  lemma FillFaultless(q: seq<Entry<Bytes>>, d: PullInto)
    requires Sized(q) && Unfilled(d)
    ensures FillPullInto(q, d).missing == 0
  {
    FillEffect(q, d);
  }

  lemma NewViewUnfilled(length: nat, elementSize: ElementSize, min: nat)
    requires 0 < min <= length
    ensures Unfilled(PullInto([], length * elementSize, min * elementSize, elementSize, false))
  {
    MulMonotone(1, min, elementSize);
    MulMonotone(min, length, elementSize);
    MultipleMod(min, elementSize);
    MultipleMod(length, elementSize);
  }

  lemma SliceValues(ds: seq<Descriptor>, n: nat)
    requires AllShaped(ds) && n <= |ds|
    ensures Values(ds[..n]) == Values(ds)[..n] && Values(ds[n..]) == Values(ds)[n..]
  {}

  lemma CommitAllStep(s: Stream, ds: seq<PullInto>, i: nat)
    requires i < |ds|
    ensures Spec.CommitAll(s, ds[i..]) == Spec.CommitAll(Spec.Commit(s, ds[i]), ds[i + 1..])
  {
    assert ds[i..][0] == ds[i] && ds[i..][1..] == ds[i + 1..];
  }
}
