/** A byte stream's reads and their turns: the reads that were handed bytes, in the order they
    were, and then those that wait, are in the order they were issued, as long as no read is
    handed bytes past one that waits. */
module ByteTurns {
  import opened Base
  import opened Fifo
  import opened ByteSpec
  import opened ByteProofs

  ghost predicate Ascending(ids: seq<nat>) {
    forall j, k :: 0 <= j < k < |ids| ==> ids[j] < ids[k]
  }

  /** Handed bytes, then waiting: ascending numbers below `n`. */
  ghost predicate Turns(order: seq<nat>, waiting: seq<nat>, n: nat) {
    && Ascending(order) && Ascending(waiting)
    && (forall j, k :: 0 <= j < |order| && 0 <= k < |waiting| ==> order[j] < waiting[k])
    && (forall k :: 0 <= k < |order| ==> order[k] < n)
    && (forall k :: 0 <= k < |waiting| ==> waiting[k] < n)
  }

  ghost predicate InLine(order: seq<nat>, waiters: seq<nat>, readIntos: seq<nat>, n: nat) {
    Turns(order, waiters + readIntos, n) && (waiters == [] || readIntos == [])
  }

  ghost predicate InTurn(s: Stream) {
    InLine(s.order, s.waiters, s.readIntos, |s.answers|)
  }

  ghost predicate Stays(s: Stream, t: Stream) {
    InTurn(s) ==> InTurn(t)
  }

  /** The fields `InTurn` looks at. */
  ghost predicate SameTurns(s: Stream, t: Stream) {
    && s.answers == t.answers && s.order == t.order
    && s.waiters == t.waiters && s.readIntos == t.readIntos
  }

  // ----------------------------------------------------------------- answering

  lemma NextTurn(order: seq<nat>, waiting: seq<nat>, n: nat)
    requires Turns(order, waiting, n) && waiting != []
    ensures Turns(order, waiting[1..], n) && Turns(order + [waiting[0]], waiting[1..], n)
  {}

  lemma NextWaiter(order: seq<nat>, waiters: seq<nat>, readIntos: seq<nat>, n: nat)
    requires InLine(order, waiters, readIntos, n) && waiters != []
    ensures InLine(order, waiters[1..], readIntos, n) && InLine(order + [waiters[0]], waiters[1..], readIntos, n)
  {
    NextTurn(order, waiters + [], n);
    assert (waiters + [])[1..] == waiters[1..] + [];
  }

  lemma NextReadInto(order: seq<nat>, waiters: seq<nat>, readIntos: seq<nat>, n: nat)
    requires InLine(order, waiters, readIntos, n) && readIntos != []
    ensures InLine(order, waiters, readIntos[1..], n) && InLine(order + [readIntos[0]], waiters, readIntos[1..], n)
  {
    NextTurn(order, [] + readIntos, n);
    assert ([] + readIntos)[1..] == [] + readIntos[1..];
  }

  lemma SettleWaiterStays(s: Stream, a: Answer)
    requires s.waiters != []
    ensures Stays(s, Settle(s.(waiters := s.waiters[1..]), s.waiters[0], a))
  {
    hide InLine;
    if InTurn(s) {
      NextWaiter(s.order, s.waiters, s.readIntos, |s.answers|);
    }
  }

  lemma SettleReadIntoStays(s: Stream, a: Answer)
    requires s.readIntos != []
    ensures Stays(s, Settle(s.(readIntos := s.readIntos[1..]), s.readIntos[0], a))
  {
    hide InLine;
    if InTurn(s) {
      NextReadInto(s.order, s.waiters, s.readIntos, |s.answers|);
    }
  }

  lemma {:induction false} SettleWaitersStays(s: Stream, a: Answer)
    ensures Stays(s, SettleWaiters(s, a))
    decreases |s.waiters|
  {
    if s.waiters != [] {
      SettleWaiterStays(s, a);
      SettleWaitersStays(Settle(s.(waiters := s.waiters[1..]), s.waiters[0], a), a);
    }
  }

  lemma {:induction false} SettleReadIntosStays(s: Stream, a: Answer)
    ensures Stays(s, SettleReadIntos(s, a))
    decreases |s.readIntos|
  {
    if s.readIntos != [] {
      SettleReadIntoStays(s, a);
      SettleReadIntosStays(Settle(s.(readIntos := s.readIntos[1..]), s.readIntos[0], a), a);
    }
  }

  lemma {:induction false} CommitAllStays(s: Stream, ds: seq<PullInto>)
    ensures Stays(s, CommitAll(s, ds))
    decreases |ds|
  {
    if ds != [] {
      if s.readIntos != [] {
        SettleReadIntoStays(s, View(ds[0].filled, s.state.Closed?));
      }
      CommitAllStays(Commit(s, ds[0]), ds[1..]);
    }
  }

  lemma GiveStays(s: Stream, bytes: Bytes)
    requires s.waiters != []
    ensures Stays(s, GiveToWaiter(s, bytes))
  {
    hide InTurn;
    SettleWaiterStays(s, Chunk(bytes));
  }

  lemma {:induction false} DrainStays(s: Stream)
    ensures Stays(s, DrainToWaiters(s))
    decreases |s.queue|
  {
    if s.waiters != [] && s.queue != [] {
      var t := s.(queue := s.queue[1..]);
      GiveStays(t, s.queue[0].item);
      DrainStays(GiveToWaiter(t, s.queue[0].item));
    }
  }

  lemma SameStays(s: Stream, t: Stream)
    requires SameTurns(s, t)
    ensures Stays(s, t)
  {}

  lemma CallPullStays(s: Stream)
    ensures Stays(s, CallPullIfNeeded(s))
  {
    SameStays(s, CallPullIfNeeded(s));
  }

  lemma ErrorStreamStays(s: Stream, reason: Reason)
    ensures Stays(s, ErrorStream(s, reason))
  {
    hide InTurn;
    var t := s.(state := Errored, error := reason, queue := [], pullIntos := []);
    SameStays(s, t);
    SettleWaitersStays(t, ReadFailed(reason));
    SettleReadIntosStays(SettleWaiters(t, ReadFailed(reason)), ReadFailed(reason));
  }

  lemma CloseStreamStays(s: Stream)
    ensures Stays(s, CloseStream(s))
  {
    hide InTurn;
    SameStays(s, s.(state := Closed));
    SettleWaitersStays(s.(state := Closed), Done);
  }

  lemma CancelStays(s: Stream)
    ensures Stays(s, Cancel(s))
  {
    hide InTurn, CloseStream;
    CloseStreamStays(s);
    SettleReadIntosStays(CloseStream(s), Done);
    if s.state.Readable? {
      SameStays(SettleReadIntos(CloseStream(s), Done), Cancel(s));
    }
  }

  lemma ReleaseStays(s: Stream)
    ensures Stays(s, Release(s))
  {
    var t := s.(reader := NoReader,
                pullIntos := if s.pullIntos == [] then [] else [s.pullIntos[0].(released := true)]);
    hide InTurn;
    SameStays(s, t);
    SettleReadIntosStays(t, ReadFailed(Reason.Released));
    SettleWaitersStays(t, ReadFailed(Reason.Released));
  }

  // ------------------------------------------------------- the source's answers

  lemma ProcessAndCommitStays(s: Stream)
    ensures Stays(s, ProcessAndCommit(s))
  {
    hide InTurn, CommitAll, Process;
    SameStays(s, ProcessPullIntos(s).0);
    CommitAllStays(ProcessPullIntos(s).0, ProcessPullIntos(s).1);
  }

  lemma CompleteFirstStays(s: Stream)
    requires s.pullIntos != []
    ensures Stays(s, CompleteFirst(s))
  {
    var (t, first) := TakeFirst(s);
    hide InTurn, CommitAll, Process;
    var (u, filled) := ProcessPullIntos(t);
    SameStays(s, u);
    CommitAllStays(u, [first] + filled);
  }

  lemma EnqueueDefaultStays(s: Stream, chunk: Bytes)
    ensures Stays(s, EnqueueDefault(s, chunk))
  {
    SuppliedTurns(s, s.supplied + chunk, chunk);
    hide InTurn, DrainToWaiters, Detached;
    var t := Detached(s).(supplied := s.supplied + chunk);
    SameStays(s, t);
    DrainStays(t);
    var u := DrainToWaiters(t);
    SameStays(u, Push(u, chunk));
    hide GiveToWaiter, Push;
    if u.waiters != [] {
      GiveStays(u, chunk);
    }
  }

  lemma SuppliedTurns(s: Stream, supplied: Bytes, chunk: Bytes)
    ensures SameTurns(s, Detached(s).(supplied := supplied))
    ensures SameTurns(s, Push(Detached(s).(supplied := supplied), chunk))
  {
    assert SameTurns(s, Detached(s));
    hide Detached;
  }

  lemma EnqueueByobStays(s: Stream, chunk: Bytes)
    ensures Stays(s, CallPullIfNeeded(ProcessAndCommit(Push(Detached(s).(supplied := s.supplied + chunk), chunk))))
  {
    SuppliedTurns(s, s.supplied + chunk, chunk);
    hide InTurn, ProcessAndCommit, CallPullIfNeeded, Push, Detached;
    var t := Push(Detached(s).(supplied := s.supplied + chunk), chunk);
    SameStays(s, t);
    ProcessAndCommitStays(t);
    CallPullStays(ProcessAndCommit(t));
  }

  lemma EnqueueStays(s: Stream, chunk: Bytes)
    ensures Stays(s, Enqueue(s, chunk))
  {
    hide InTurn, ProcessAndCommit, DrainToWaiters, CallPullIfNeeded, GiveToWaiter;
    if s.reader.ByobReader? {
      EnqueueByobStays(s, chunk);
    } else {
      EnqueueDefaultStays(s, chunk);
      CallPullStays(EnqueueDefault(s, chunk));
    }
  }

  lemma RespondReadableStays(s: Stream, data: Bytes)
    requires s.pullIntos != []
    ensures Stays(s, RespondInReadableState(s, data))
  {
    var t := WithData(s, data);
    SameStays(s, t);
    SameStays(t, DetachFirst(t));
    hide InTurn, ProcessAndCommit, CompleteFirst;
    ProcessAndCommitStays(DetachFirst(t));
    CompleteFirstStays(t);
  }

  lemma RespondClosedStays(s: Stream)
    requires s.pullIntos != []
    ensures Stays(s, RespondInClosedState(s))
  {
    var t := if s.pullIntos[0].released then s.(pullIntos := s.pullIntos[1..]) else s;
    hide InTurn, CommitAll;
    SameStays(s, t);
    if |t.readIntos| <= |t.pullIntos| {
      SameStays(s, t.(pullIntos := t.pullIntos[|t.readIntos|..]));
      CommitAllStays(t.(pullIntos := t.pullIntos[|t.readIntos|..]), t.pullIntos[..|t.readIntos|]);
    } else {
      SameStays(t, CommitPending(t));
    }
  }

  lemma RespondStays(s: Stream, data: Bytes)
    ensures Stays(s, Respond(s, data))
  {
    hide InTurn, RespondInClosedState, RespondInReadableState, CallPullIfNeeded;
    if s.pullIntos != [] {
      RespondClosedStays(s);
      RespondReadableStays(s, data);
      CallPullStays(RespondInReadableState(s, data));
    }
  }

  // --------------------------------------------------------------- the reads

  lemma NewFailedStays(s: Stream, a: Answer)
    requires !Carries(a)
    ensures Stays(s, NewRead(s, a))
  {}

  lemma OneMore(order: seq<nat>, waiting: seq<nat>, n: nat)
    requires Turns(order, waiting, n)
    ensures Turns(order, waiting, n + 1) && Turns(order, waiting + [n], n + 1)
    ensures waiting == [] ==> Turns(order + [n], waiting, n + 1)
  {}

  /** A read that no other waits for may be handed bytes at once. */
  lemma NewHandedStays(s: Stream, a: Answer, d: PullInto)
    requires s.waiters == [] && s.readIntos == []
    ensures Stays(s, NewRead(s, a)) && Stays(s, NewReadInto(s, a, d))
  {
    if InTurn(s) {
      OneMore(s.order, [] + [], |s.answers|);
    }
  }

  lemma NewWaiterStays(s: Stream)
    requires s.readIntos == []
    ensures Stays(s, NewRead(s, Waiting).(waiters := s.waiters + [|s.answers|]))
  {
    if InTurn(s) {
      OneMore(s.order, s.waiters + [], |s.answers|);
      assert s.waiters + [|s.answers|] + [] == s.waiters + [] + [|s.answers|];
    }
  }

  lemma EnlistStays(s: Stream, d: PullInto, filled: PullInto)
    requires s.waiters == []
    ensures Stays(s, Enlist(s, d, filled))
  {
    if InTurn(s) {
      OneMore(s.order, [] + s.readIntos, |s.answers|);
      assert [] + (s.readIntos + [|s.answers|]) == [] + s.readIntos + [|s.answers|];
    }
  }

  lemma ReadStays(s: Stream)
    requires Inv(s) && s.reader.DefaultReader? && (s.waiters == [] || s.queue == [])
    ensures Stays(s, Read(s))
  {
    hide InTurn, TakeChunk, CallPullIfNeeded;
    match s.state
    case Closed => NewFailedStays(s, Done);
    case Errored => NewFailedStays(s, ReadFailed(s.error));
    case Readable =>
      if s.queue != [] {
        TakeChunkStays(s);
      } else {
        NewWaiterStays(s);
        CallPullStays(NewRead(s, Waiting).(waiters := s.waiters + [|s.answers|]));
      }
  }

  lemma TakeChunkStays(s: Stream)
    requires s.queue != [] && s.waiters == [] && s.readIntos == []
    ensures Stays(s, TakeChunk(s))
  {
    var u := s.(queue := s.queue[1..]);
    var t := NewRead(u, Chunk(s.queue[0].item));
    hide InTurn, CloseStream, CallPullIfNeeded;
    SameStays(s, u);
    NewHandedStays(u, Chunk(s.queue[0].item), PullInto([], 1, 1, 1, false));
    CloseStreamStays(t);
    CallPullStays(t);
  }

  lemma DrainQueueStays(s: Stream)
    ensures Stays(s, HandleQueueDrain(s))
  {
    hide InTurn, CloseStream, CallPullIfNeeded;
    SameStays(s, s.(queue := []));
    CloseStreamStays(s.(queue := []));
    CallPullStays(s);
  }

  lemma AnswerFillStays(s: Stream, d: PullInto, f: Fill)
    requires s.waiters == [] && s.readIntos == []
    ensures Stays(s, AnswerFill(s, d, f))
  {
    var t := AfterFill(s, f);
    hide InTurn, HandleQueueDrain, ErrorStream, CallPullIfNeeded;
    SameStays(s, t);
    if f.ready {
      NewHandedStays(t, View(f.desc.filled, false), d);
      DrainQueueStays(NewReadInto(t, View(f.desc.filled, false), d));
    } else if s.closeRequested {
      ErrorStreamStays(t, InvalidState);
      NewFailedStays(ErrorStream(t, InvalidState), ReadFailed(InvalidState));
    } else {
      EnlistStays(t, d, f.desc);
      CallPullStays(Enlist(t, d, f.desc));
    }
  }

  lemma AddPullIntoStays(s: Stream, d: PullInto)
    requires s.waiters == [] && (s.pullIntos == [] ==> s.readIntos == [])
    ensures Stays(s, AddPullInto(s, d))
  {
    hide InTurn, FillPullInto, AnswerFill, CallPullIfNeeded, Enlist;
    EnlistStays(s, d, d);
    if s.pullIntos == [] {
      if s.state.Closed? {
        NewHandedStays(s, View([], true), d);
      } else if Total(s.queue) == 0 {
        CallPullStays(Enlist(s, d, d));
      } else {
        AnswerFillStays(s, d, FillPullInto(s.queue, d));
      }
    }
  }

  lemma ReadIntoStays(s: Stream, length: nat, elementSize: ElementSize, min: nat)
    requires Inv(s) && s.reader.ByobReader?
    ensures Stays(s, ReadInto(s, length, elementSize, min))
  {
    hide InTurn, AddPullInto;
    NewFailedStays(s, ReadFailed(InvalidState));
    NewFailedStays(s, ReadFailed(s.error));
    AddPullIntoStays(s, PullInto([], length * elementSize, min * elementSize, elementSize, false));
  }

  // ---------------------------------------------------------------- every step

  lemma OnStartStays(s: Stream, r: Settlement)
    ensures Stays(s, OnStart(s, r))
  {
    var t := s.(startOut := false);
    hide InTurn, CallPullIfNeeded, ErrorStream;
    SameStays(s, t);
    SameStays(s, t.(started := true));
    CallPullStays(t.(started := true));
    if r.Failed? {
      ErrorStreamStays(t, r.error);
    }
  }

  lemma OnPullStays(s: Stream, r: Settlement)
    requires s.pullsOut > 0
    ensures Stays(s, OnPull(s, r))
  {
    var t := s.(pullsOut := s.pullsOut - 1);
    hide InTurn, CallPullIfNeeded, ErrorStream;
    SameStays(s, t);
    SameStays(s, t.(pulling := false));
    SameStays(s, t.(pulling := false, pullAgain := false));
    CallPullStays(t.(pulling := false, pullAgain := false));
    if r.Failed? {
      ErrorStreamStays(t, r.error);
    }
  }

  /** Only a read that is handed bytes past one that waits breaks the order. */
  lemma StepStays(s: Stream, e: Event)
    requires Inv(s) && (e.ReadCall? ==> s.waiters == [] || s.queue == [])
    ensures Stays(s, Step(s, e))
  {
    hide InTurn, Release, Read, ReadInto, Cancel, Enqueue, Respond, CloseStream, ErrorStream, OnStart, OnPull;
    match e {
      case AcquireCall(_) => SameStays(s, Step(s, e));
      case ReleaseCall => ReleaseStays(s);
      case ReadCall => if s.reader.DefaultReader? { ReadStays(s); }
      case ReadIntoCall(length, elementSize, min) =>
        if s.reader.ByobReader? {
          ReadIntoStays(s, length, elementSize, min);
        }
      case CancelCall => CancelStays(s);
      case EnqueueCall(chunk) => EnqueueStays(s, chunk);
      case RespondCall(data) => RespondStays(s, data);
      case NewViewCall(at, data) => RespondStays(s, data);
      case CloseCall =>
        CloseStreamStays(s);
        ErrorStreamStays(s, InvalidState);
        SameStays(s, s.(closeRequested := true));
      case ErrorCall(reason) => ErrorStreamStays(s, reason);
      case StartSettles(r) => OnStartStays(s, r);
      case PullSettles(r) => if s.pullsOut > 0 { OnPullStays(s, r); }
    }
  }
}
