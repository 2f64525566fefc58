/** A byte stream's `delivered` log is what its reads were really answered with: `order`
    lists every read that was handed bytes, once, and an answer never changes. */
module ByteAnswers {
  import opened Base
  import opened Fifo
  import opened ByteSpec
  import opened ByteProofs

  /** The bytes in the answers of the reads in `order`, one after the other. */
  function Handed(answers: seq<Answer>, order: seq<nat>): Bytes {
    if order == [] then []
    else
      var id := order[|order| - 1];
      Handed(answers, order[..|order| - 1])
      + if id < |answers| && Carries(answers[id]) then answers[id].bytes else []
  }

  ghost predicate Ledger(answers: seq<Answer>, order: seq<nat>, delivered: Bytes) {
    && NoDuplicates(order)
    && (forall k :: 0 <= k < |order| ==> order[k] < |answers| && Carries(answers[order[k]]))
    && (forall i :: 0 <= i < |answers| && Carries(answers[i]) ==> i in order)
    && Handed(answers, order) == delivered
  }

  ghost predicate Logged(s: Stream) {
    Ledger(s.answers, s.order, s.delivered)
  }

  /** Reads are only added, and a settled one keeps its answer. */
  ghost predicate Kept(before: seq<Answer>, after: seq<Answer>) {
    && |before| <= |after|
    && forall i :: 0 <= i < |before| && !before[i].Waiting? ==> after[i] == before[i]
  }

  ghost predicate Follows(s: Stream, t: Stream) {
    Kept(s.answers, t.answers) && s.order <= t.order && (Logged(s) ==> Logged(t))
  }

  /** Answering a read that does not wait counts as a fault; without one, answers are kept. */
  ghost predicate Tracks(s: Stream, t: Stream) {
    s.faults <= t.faults && (s.faults == t.faults ==> Follows(s, t))
  }

  lemma TracksTwice(s: Stream, t: Stream, u: Stream)
    requires Tracks(s, t) && Tracks(t, u)
    ensures Tracks(s, u)
  {}

  /** The fields `Tracks` looks at. */
  ghost predicate SameLedger(s: Stream, t: Stream) {
    s.answers == t.answers && s.order == t.order && s.delivered == t.delivered && s.faults <= t.faults
  }

  lemma TracksSame(s: Stream, t: Stream, u: Stream)
    requires Tracks(s, t) && SameLedger(t, u)
    ensures Tracks(s, u)
  {}

  lemma SameTracks(s: Stream, t: Stream, u: Stream)
    requires SameLedger(s, t) && Tracks(t, u)
    ensures Tracks(s, u)
  {}

  lemma {:induction false} HandedKept(before: seq<Answer>, after: seq<Answer>, order: seq<nat>)
    requires Kept(before, after)
    requires forall k :: 0 <= k < |order| ==> order[k] < |before| && Carries(before[order[k]])
    ensures Handed(after, order) == Handed(before, order)
    decreases |order|
  {
    if order != [] {
      HandedKept(before, after, order[..|order| - 1]);
    }
  }

  /** Adding one carrying answer, for a read not in the ledger yet. */
  lemma LedgerGrows(before: seq<Answer>, after: seq<Answer>, order: seq<nat>, delivered: Bytes, id: nat)
    requires Ledger(before, order, delivered) && Kept(before, after) && id !in order
    requires id < |after| && (forall i :: 0 <= i < |after| && i != id ==> i < |before| && after[i] == before[i])
    requires !after[id].Waiting?
    ensures Carries(after[id]) ==> Ledger(after, order + [id], delivered + after[id].bytes)
    ensures !Carries(after[id]) ==> Ledger(after, order, delivered)
  {
    HandedKept(before, after, order);
    assert (order + [id])[..|order|] == order;
    if Carries(after[id]) {
      var next := order + [id];
      forall i | 0 <= i < |after| && Carries(after[i])
        ensures i in next
      {
        if i != id {
          assert i in order;
        } else {
          assert next[|order|] == i;
        }
      }
    }
  }

  lemma SettleTracks(s: Stream, id: nat, a: Answer)
    requires !a.Waiting?
    ensures Tracks(s, Settle(s, id, a))
  {
    if id < |s.answers| && s.answers[id].Waiting? {
      SettledTracks(s, Settle(s, id, a), id, a);
    }
  }

  lemma SettledTracks(s: Stream, t: Stream, id: nat, a: Answer)
    requires !a.Waiting? && id < |s.answers| && s.answers[id].Waiting? && t.answers == s.answers[id := a]
    requires t.order == if Carries(a) then s.order + [id] else s.order
    requires t.delivered == (if Carries(a) then s.delivered + a.bytes else s.delivered) && t.faults == s.faults
    ensures Tracks(s, t)
  {
    if Logged(s) {
      LedgerGrows(s.answers, s.answers[id := a], s.order, s.delivered, id);
    }
  }

  lemma NewReadTracks(s: Stream, a: Answer)
    ensures Tracks(s, NewRead(s, a))
    ensures forall d :: Tracks(s, NewReadInto(s, a, d))
  {
    hide Tracks;
    AddedTracks(s, NewRead(s, a), a);
    forall d
      ensures Tracks(s, NewReadInto(s, a, d))
    {
      AddedTracks(s, NewReadInto(s, a, d), a);
    }
  }

  lemma AddedTracks(s: Stream, t: Stream, a: Answer)
    requires t.answers == s.answers + [a]
    requires t.order == if Carries(a) then s.order + [|s.answers|] else s.order
    requires t.delivered == (if Carries(a) then s.delivered + a.bytes else s.delivered) && t.faults == s.faults
    ensures Tracks(s, t)
  {
    if Logged(s) {
      if a.Waiting? {
        HandedKept(s.answers, s.answers + [a], s.order);
      } else {
        LedgerGrows(s.answers, s.answers + [a], s.order, s.delivered, |s.answers|);
      }
    }
  }

  lemma {:induction false} SettleWaitersTracks(s: Stream, a: Answer)
    requires !a.Waiting?
    ensures Tracks(s, SettleWaiters(s, a))
    decreases |s.waiters|
  {
    if s.waiters != [] {
      var t := s.(waiters := s.waiters[1..]);
      SettleTracks(t, s.waiters[0], a);
      var u := Settle(t, s.waiters[0], a);
      SettleWaitersTracks(u, a);
      TracksTwice(t, u, SettleWaiters(u, a));
    }
  }

  lemma {:induction false} SettleReadIntosTracks(s: Stream, a: Answer)
    requires !a.Waiting?
    ensures Tracks(s, SettleReadIntos(s, a))
    decreases |s.readIntos|
  {
    if s.readIntos != [] {
      var t := s.(readIntos := s.readIntos[1..]);
      SettleTracks(t, s.readIntos[0], a);
      var u := Settle(t, s.readIntos[0], a);
      SettleReadIntosTracks(u, a);
      TracksTwice(t, u, SettleReadIntos(u, a));
    }
  }

  lemma CommitTracks(s: Stream, d: PullInto)
    ensures Tracks(s, Commit(s, d))
  {
    if s.readIntos != [] {
      SettleTracks(s.(readIntos := s.readIntos[1..]), s.readIntos[0], View(d.filled, s.state.Closed?));
    }
  }

  lemma {:induction false} CommitAllTracks(s: Stream, ds: seq<PullInto>)
    ensures Tracks(s, CommitAll(s, ds))
    decreases |ds|
  {
    if ds != [] {
      CommitTracks(s, ds[0]);
      CommitAllTracks(Commit(s, ds[0]), ds[1..]);
      TracksTwice(s, Commit(s, ds[0]), CommitAll(s, ds));
    }
  }

  lemma GiveToWaiterTracks(s: Stream, bytes: Bytes)
    requires s.waiters != []
    ensures Tracks(s, GiveToWaiter(s, bytes))
  {
    SettleTracks(s.(waiters := s.waiters[1..]), s.waiters[0], Chunk(bytes));
  }

  lemma {:induction false} DrainTracks(s: Stream)
    ensures Tracks(s, DrainToWaiters(s))
    decreases |s.queue|
  {
    if s.waiters != [] && s.queue != [] {
      var t := s.(queue := s.queue[1..]);
      GiveToWaiterTracks(t, s.queue[0].item);
      var u := GiveToWaiter(t, s.queue[0].item);
      DrainTracks(u);
      TracksTwice(t, u, DrainToWaiters(u));
    }
  }

  lemma CallPullSame(s: Stream)
    ensures SameLedger(s, CallPullIfNeeded(s))
  {}

  lemma ErrorStreamTracks(s: Stream, reason: Reason)
    ensures Tracks(s, ErrorStream(s, reason))
  {
    if s.state.Readable? {
      var t := s.(state := Errored, error := reason, queue := [], pullIntos := []);
      SettleWaitersTracks(t, ReadFailed(reason));
      var u := SettleWaiters(t, ReadFailed(reason));
      SettleReadIntosTracks(u, ReadFailed(reason));
      TracksTwice(t, u, SettleReadIntos(u, ReadFailed(reason)));
      SameTracks(s, t, ErrorStream(s, reason));
    }
  }

  lemma CloseStreamTracks(s: Stream)
    ensures Tracks(s, CloseStream(s))
  {
    SettleWaitersTracks(s.(state := Closed), Done);
    SameTracks(s, s.(state := Closed), CloseStream(s));
  }

  lemma CancelTracks(s: Stream)
    ensures Tracks(s, Cancel(s))
  {
    if s.state.Readable? {
      CloseStreamTracks(s);
      var t := CloseStream(s);
      SettleReadIntosTracks(t, Done);
      TracksTwice(s, t, SettleReadIntos(t, Done));
      TracksSame(s, SettleReadIntos(t, Done), Cancel(s));
    }
  }

  lemma ReleaseTracks(s: Stream)
    ensures Tracks(s, Release(s))
  {
    var t := s.(reader := NoReader,
                pullIntos := if s.pullIntos == [] then [] else [s.pullIntos[0].(released := true)]);
    SettleReadIntosTracks(t, ReadFailed(Reason.Released));
    SettleWaitersTracks(t, ReadFailed(Reason.Released));
    SameTracks(s, t, Release(s));
  }

  lemma ProcessAndCommitTracks(s: Stream)
    ensures Tracks(s, ProcessAndCommit(s))
  {
    var (t, filled) := ProcessPullIntos(s);
    CommitAllTracks(t, filled);
    SameTracks(s, t, CommitAll(t, filled));
  }

  lemma CompleteFirstTracks(s: Stream)
    requires s.pullIntos != []
    ensures Tracks(s, CompleteFirst(s))
  {
    var (t, first) := TakeFirst(s);
    var (u, filled) := ProcessPullIntos(t);
    CommitAllTracks(u, [first] + filled);
    SameTracks(s, u, CompleteFirst(s));
  }

  lemma EnqueueDefaultTracks(s: Stream, chunk: Bytes)
    ensures Tracks(s, EnqueueDefault(s, chunk))
  {
    var t := Detached(s).(supplied := s.supplied + chunk);
    assert SameLedger(s, t);
    DrainTracks(t);
    var u := DrainToWaiters(t);
    hide Follows, DrainToWaiters, Detached;
    SameTracks(s, t, u);
    if u.waiters != [] {
      GiveToWaiterTracks(u, chunk);
      hide GiveToWaiter;
      TracksTwice(s, u, GiveToWaiter(u, chunk));
    } else {
      TracksSame(s, u, Push(u, chunk));
    }
  }

  lemma EnqueueByobTracks(s: Stream, chunk: Bytes)
    ensures Tracks(s, ProcessAndCommit(Push(Detached(s).(supplied := s.supplied + chunk), chunk)))
  {
    var u := Push(Detached(s).(supplied := s.supplied + chunk), chunk);
    assert SameLedger(s, u);
    hide Follows, ProcessAndCommit, Push, Detached;
    ProcessAndCommitTracks(u);
    SameTracks(s, u, ProcessAndCommit(u));
  }

  lemma EnqueueTracks(s: Stream, chunk: Bytes)
    ensures Tracks(s, Enqueue(s, chunk))
  {
    hide Follows, ProcessAndCommit, DrainToWaiters, GiveToWaiter, Push, Detached, CallPullIfNeeded;
    if s.reader.ByobReader? {
      var t := ProcessAndCommit(Push(Detached(s).(supplied := s.supplied + chunk), chunk));
      EnqueueByobTracks(s, chunk);
      CallPullSame(t);
      TracksSame(s, t, CallPullIfNeeded(t));
      EnqueueIs(s, chunk);
    } else {
      EnqueueDefaultTracks(s, chunk);
      CallPullSame(EnqueueDefault(s, chunk));
      TracksSame(s, EnqueueDefault(s, chunk), CallPullIfNeeded(EnqueueDefault(s, chunk)));
      EnqueueIs(s, chunk);
    }
  }

  lemma EnqueueIs(s: Stream, chunk: Bytes)
    ensures Enqueue(s, chunk) ==
              CallPullIfNeeded(if s.reader.ByobReader? then
                                 ProcessAndCommit(Push(Detached(s).(supplied := s.supplied + chunk), chunk))
                               else EnqueueDefault(s, chunk))
  {
    hide ProcessAndCommit, DrainToWaiters, GiveToWaiter, Push, CallPullIfNeeded, DetachFirst;
  }

  lemma RespondInReadableStateTracks(s: Stream, data: Bytes)
    requires s.pullIntos != []
    ensures Tracks(s, RespondInReadableState(s, data))
  {
    var t := WithData(s, data);
    ProcessAndCommitTracks(DetachFirst(t));
    CompleteFirstTracks(t);
    SameTracks(s, DetachFirst(t), ProcessAndCommit(DetachFirst(t)));
    SameTracks(s, t, CompleteFirst(t));
  }

  lemma CommitPendingTracks(s: Stream)
    ensures Tracks(s, CommitPending(s))
  {
    if |s.readIntos| <= |s.pullIntos| {
      var t := s.(pullIntos := s.pullIntos[|s.readIntos|..]);
      CommitAllTracks(t, s.pullIntos[..|s.readIntos|]);
      SameTracks(s, t, CommitPending(s));
    }
  }

  lemma RespondInClosedStateTracks(s: Stream)
    requires s.pullIntos != []
    ensures Tracks(s, RespondInClosedState(s))
  {
    var t := if s.pullIntos[0].released then s.(pullIntos := s.pullIntos[1..]) else s;
    CommitPendingTracks(t);
    SameTracks(s, t, CommitPending(t));
  }

  lemma RespondTracks(s: Stream, data: Bytes)
    ensures Tracks(s, Respond(s, data))
  {
    if s.pullIntos != [] {
      RespondInClosedStateTracks(s);
      RespondInReadableStateTracks(s, data);
      CallPullSame(RespondInReadableState(s, data));
      TracksSame(s, RespondInReadableState(s, data), CallPullIfNeeded(RespondInReadableState(s, data)));
    }
  }

  lemma ReadTracks(s: Stream)
    ensures Tracks(s, Read(s))
  {
    match s.state
    case Closed => NewReadTracks(s, Done);
    case Errored => NewReadTracks(s, ReadFailed(s.error));
    case Readable =>
      if s.queue != [] {
        TakeChunkTracks(s);
      } else {
        NewReadTracks(s, Waiting);
        CallPullSame(NewRead(s, Waiting).(waiters := s.waiters + [|s.answers|]));
        TracksSame(s, NewRead(s, Waiting), Read(s));
      }
  }

  lemma TakeChunkTracks(s: Stream)
    requires s.queue != []
    ensures Tracks(s, TakeChunk(s))
  {
    var u := s.(queue := s.queue[1..]);
    var t := NewRead(u, Chunk(s.queue[0].item));
    NewReadTracks(u, Chunk(s.queue[0].item));
    SameTracks(s, u, t);
    CloseStreamTracks(t);
    TracksTwice(s, t, CloseStream(t));
    CallPullSame(t);
    TracksSame(s, t, CallPullIfNeeded(t));
  }

  lemma EnlistTracks(s: Stream, d: PullInto, filled: PullInto)
    ensures Tracks(s, Enlist(s, d, filled))
  {
    NewReadTracks(s, Waiting);
    TracksSame(s, NewReadInto(s, Waiting, d), Enlist(s, d, filled));
  }

  lemma HandleQueueDrainTracks(s: Stream)
    ensures Tracks(s, HandleQueueDrain(s))
  {
    CloseStreamTracks(s.(queue := []));
    SameTracks(s, s.(queue := []), CloseStream(s.(queue := [])));
    CallPullSame(s);
  }

  lemma AnswerFillTracks(s: Stream, d: PullInto, f: Fill)
    ensures Tracks(s, AnswerFill(s, d, f))
  {
    var t := AfterFill(s, f);
    if f.ready {
      var v := NewReadInto(t, View(f.desc.filled, false), d);
      NewReadTracks(t, View(f.desc.filled, false));
      SameTracks(s, t, v);
      HandleQueueDrainTracks(v);
      TracksTwice(s, v, HandleQueueDrain(v));
    } else if s.closeRequested {
      ErrorStreamTracks(t, InvalidState);
      var u := ErrorStream(t, InvalidState);
      SameTracks(s, t, u);
      NewReadTracks(u, ReadFailed(InvalidState));
      TracksTwice(s, u, NewRead(u, ReadFailed(InvalidState)));
    } else {
      EnlistTracks(t, d, f.desc);
      SameTracks(s, t, Enlist(t, d, f.desc));
      CallPullSame(Enlist(t, d, f.desc));
      TracksSame(s, Enlist(t, d, f.desc), AnswerFill(s, d, f));
    }
  }

  lemma ReadIntoTracks(s: Stream, length: nat, elementSize: ElementSize, min: nat)
    ensures Tracks(s, ReadInto(s, length, elementSize, min))
  {
    NewReadTracks(s, ReadFailed(InvalidState));
    NewReadTracks(s, ReadFailed(s.error));
    var d := PullInto([], length * elementSize, min * elementSize, elementSize, false);
    AddPullIntoTracks(s, d);
  }

  lemma AddPullIntoTracks(s: Stream, d: PullInto)
    ensures Tracks(s, AddPullInto(s, d))
  {
    EnlistTracks(s, d, d);
    if s.pullIntos == [] {
      if s.state.Closed? {
        NewReadTracks(s, View([], true));
      } else if Total(s.queue) == 0 {
        CallPullSame(Enlist(s, d, d));
        TracksSame(s, Enlist(s, d, d), AddPullInto(s, d));
      } else {
        AnswerFillTracks(s, d, FillPullInto(s.queue, d));
      }
    }
  }

  lemma NothingTracks(s: Stream)
    ensures Tracks(s, s)
  {}

  lemma StepTracks(s: Stream, e: Event)
    ensures Tracks(s, Step(s, e))
  {
    hide Follows, Release, Read, ReadInto, Cancel, Enqueue, Respond, CloseStream, ErrorStream, OnStart, OnPull;
    NothingTracks(s);
    match e
    case AcquireCall(byob) => TracksSame(s, s, Step(s, e));
    case ReleaseCall => ReleaseTracks(s);
    case ReadCall => ReadTracks(s);
    case ReadIntoCall(length, elementSize, min) => ReadIntoTracks(s, length, elementSize, min);
    case CancelCall => CancelTracks(s);
    case EnqueueCall(chunk) => EnqueueTracks(s, chunk);
    case RespondCall(data) => RespondTracks(s, data);
    case NewViewCall(at, data) => RespondTracks(s, data);
    case CloseCall =>
      CloseStreamTracks(s);
      ErrorStreamTracks(s, InvalidState);
      TracksSame(s, s, s.(closeRequested := true));
    case ErrorCall(reason) => ErrorStreamTracks(s, reason);
    case StartSettles(r) => OnStartTracks(s, r);
    case PullSettles(r) => if s.pullsOut > 0 { OnPullTracks(s, r); }
  }

  lemma OnStartTracks(s: Stream, r: Settlement)
    ensures Tracks(s, OnStart(s, r))
  {
    var t := s.(startOut := false);
    CallPullSame(t.(started := true));
    if r.Failed? {
      ErrorStreamTracks(t, r.error);
      SameTracks(s, t, ErrorStream(t, r.error));
    }
  }

  lemma OnPullTracks(s: Stream, r: Settlement)
    requires s.pullsOut > 0
    ensures Tracks(s, OnPull(s, r))
  {
    var t := s.(pullsOut := s.pullsOut - 1);
    CallPullSame(t.(pulling := false, pullAgain := false));
    if r.Failed? {
      ErrorStreamTracks(t, r.error);
      SameTracks(s, t, ErrorStream(t, r.error));
    }
  }

  /** From a state that keeps the invariant no step changes an answer that was given, although
      it would be overwritten, and every step keeps the log exact. */
  lemma StepFollows(s: Stream, e: Event)
    requires Inv(s)
    ensures Follows(s, Step(s, e))
  {
    StepTracks(s, e);
    StepKeepsInv(s, e);
  }

  lemma {:induction false} RunLogged(highWaterMark: nat, events: seq<Event>)
    ensures Logged(Run(Init(highWaterMark), events))
    decreases |events|
  {
    if events != [] {
      RunLogged(highWaterMark, events[..|events| - 1]);
      RunKeepsInv(highWaterMark, events[..|events| - 1]);
      StepFollows(Run(Init(highWaterMark), events[..|events| - 1]), events[|events| - 1]);
    }
  }

  /** The bytes the reads were answered with, taken in the order of the answers, are a prefix
      of what the source supplied; while the stream is readable, all but what is held by the
      first pending read and what is queued. */
  lemma ReadsGetTheSuppliedBytes(s: Stream)
    requires Reachable(s)
    ensures Handed(s.answers, s.order) <= s.supplied
    ensures s.state.Readable? ==>
              Handed(s.answers, s.order) + Held(s.pullIntos) + Flatten(s.queue) == s.supplied
    ensures NoDuplicates(s.order)
    ensures forall i :: 0 <= i < |s.answers| && Carries(s.answers[i]) ==> i in s.order
  {
    var highWaterMark: nat, events: seq<Event> :| s == Run(Init(highWaterMark), events);
    RunLogged(highWaterMark, events);
    ByteConservation(s);
  }
}
