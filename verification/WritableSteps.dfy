/** What one step of a writable does to its state and to every promise it handed out, said of
    the states before and after it: which promises settle, how, and with which reason. */
module WritableSteps {
  import opened Base
  import opened Fifo
  import opened WritableSpec
  import opened WritableProofs
  import opened WritableTheorems

  /** The step hears from the sink's write, close or abort. */
  predicate HearsWrite<T>(s: Stream<T>, e: Event<T>) {
    e.WriteSettles? && s.writesOut > 0
  }

  predicate HearsClose<T>(s: Stream<T>, e: Event<T>) {
    e.CloseSettles? && s.closesOut > 0
  }

  predicate HearsAbort<T>(s: Stream<T>, e: Event<T>) {
    e.AbortSettles? && s.abortsOut != []
  }

  function OutcomeOf(r: Settlement): Outcome {
    if r.Ok? then Fulfilled else Outcome.Rejected(r.error)
  }

  /** What the step fails a writable stream with, if it does. */
  function Failure<T>(s: Stream<T>, e: Event<T>): Option<Reason> {
    match e
    case WriteCall(_, size) =>
      if s.writer.Writer? && !s.cleared && (size.Threw? || (size.Refused? && !CloseQueuedOrInFlight(s))) then
        Some(size.error)
      else None
    case AbortCall(reason) => Some(reason)
    case SinkErrorCall(reason) => Some(reason)
    case StartSettles(Failed(reason)) => if s.startOut then Some(reason) else None
    case WriteSettles(Failed(reason)) => if s.writesOut > 0 then Some(reason) else None
    case CloseSettles(Failed(reason)) => if s.closesOut > 0 then Some(reason) else None
    case _ => None
  }

  /** A writable stream fails with the reason of the step; once it is failing it keeps that
      reason, unless a close that was under way succeeds. */
  ghost predicate StateFollows<T>(s: Stream<T>, e: Event<T>, t: Stream<T>) {
    if !Alive(s) then t.state == s.state && t.storedError == s.storedError
    else if HearsClose(s, e) && e.r.Ok? then t.state.Closed?
    else if s.state.Erroring? then !t.state.Writable? && !t.state.Closed? && t.storedError == s.storedError
    else if Failure(s, e).Some? then
      !t.state.Writable? && !t.state.Closed? && t.storedError == Failure(s, e).value
    else t.state.Writable?
  }

  /** The chunk becomes a write request. */
  predicate Accepts<T>(s: Stream<T>, e: Event<T>) {
    e.WriteCall? && s.writer.Writer? && s.state.Writable? && !CloseQueuedOrInFlight(s) && !e.size.Threw?
  }

  /** The close becomes a request. */
  predicate StartsClose<T>(s: Stream<T>, e: Event<T>) {
    e.CloseCall? && Alive(s) && !CloseQueuedOrInFlight(s)
  }

  predicate StartsAbort<T>(s: Stream<T>, e: Event<T>) {
    e.AbortCall? && Alive(s) && s.pendingAbort.NoAbort?
  }

  /** What becomes of write `i` if it is pending. */
  function WriteBecomes<T>(s: Stream<T>, e: Event<T>, t: Stream<T>, i: nat): Outcome {
    if HearsWrite(s, e) && i == |s.results| then OutcomeOf(e.r)
    else if t.state.Errored? then Outcome.Rejected(t.storedError)
    else Pending
  }

  function CloseBecomes<T>(s: Stream<T>, e: Event<T>, t: Stream<T>): Outcome {
    if HearsClose(s, e) then OutcomeOf(e.r)
    else if Terminal(t) then Outcome.Rejected(t.storedError)
    else Pending
  }

  /** An abort that came while the stream was failing already is rejected with it. */
  function AbortBecomes<T>(s: Stream<T>, e: Event<T>, t: Stream<T>): Outcome {
    if HearsClose(s, e) || HearsAbort(s, e) then OutcomeOf(e.r)
    else if t.state.Errored? && s.pendingAbort.AbortRequest? && s.pendingAbort.wasAlreadyErroring then
      Outcome.Rejected(t.storedError)
    else Pending
  }

  ghost predicate WritesFollow<T>(s: Stream<T>, e: Event<T>, t: Stream<T>) {
    && t.accepted == s.accepted + (if Accepts(s, e) then [e.chunk] else [])
    && t.results == s.results + (if HearsWrite(s, e) then [e.r.Ok?] else [])
    && |t.writes| == |s.writes| + (if Accepts(s, e) then 1 else 0)
    && (forall i :: 0 <= i < |t.writes| ==>
          t.writes[i] == if i < |s.writes| && !s.writes[i].Pending? then s.writes[i] else WriteBecomes(s, e, t, i))
  }

  ghost predicate ClosesFollow<T>(s: Stream<T>, e: Event<T>, t: Stream<T>) {
    && |t.closes| == |s.closes| + (if StartsClose(s, e) then 1 else 0)
    && (forall i :: 0 <= i < |t.closes| ==>
          t.closes[i] == if i < |s.closes| && !s.closes[i].Pending? then s.closes[i] else CloseBecomes(s, e, t))
  }

  ghost predicate AbortsFollow<T>(s: Stream<T>, e: Event<T>, t: Stream<T>) {
    && |t.aborts| == |s.aborts| + (if StartsAbort(s, e) then 1 else 0)
    && (forall i :: 0 <= i < |t.aborts| ==>
          t.aborts[i] == if i < |s.aborts| && !s.aborts[i].Pending? then s.aborts[i] else AbortBecomes(s, e, t))
  }

  /** While writes are accepted the queue is charged what the chunks were sized at. */
  ghost predicate ChargesFollow<T>(s: Stream<T>, e: Event<T>, t: Stream<T>) {
    AcceptsWrites(t) ==>
      Total(t.queue) ==
        if Accepts(s, e) && e.size.Size? then Total(s.queue) + e.size.size
        else if HearsWrite(s, e) && s.queue != [] then Total(s.queue) - s.queue[0].size
        else Total(s.queue)
  }

  ghost predicate Follows<T>(s: Stream<T>, e: Event<T>, t: Stream<T>) {
    && StateFollows(s, e, t)
    && WritesFollow(s, e, t) && ClosesFollow(s, e, t) && AbortsFollow(s, e, t)
    && ChargesFollow(s, e, t)
    && t.started == (s.started || (e.StartSettles? && s.startOut))
    && t.writer.Writer? == (if e.GetWriterCall? then true else if e.ReleaseCall? then false else s.writer.Writer?)
  }

  // ------------------------------------------------------------ the engine's reactions

  ghost predicate OnlyRejects(before: seq<Outcome>, after: seq<Outcome>, reason: Reason) {
    && |after| == |before|
    && forall i :: 0 <= i < |before| ==> after[i] == before[i] || after[i] == Outcome.Rejected(reason)
  }

  /** The close that waits is rejected unless an abort has to be heard from first. */
  function ClosesAfter<T>(s: Stream<T>, t: Stream<T>): seq<Outcome> {
    if t.state.Errored? && t.abortsOut == [] then Put(s.closes, s.closeRequest, Outcome.Rejected(s.storedError))
    else s.closes
  }

  function AbortsAfter<T>(s: Stream<T>, t: Stream<T>): seq<Outcome> {
    if t.state.Errored? && s.pendingAbort.AbortRequest? && s.pendingAbort.wasAlreadyErroring then
      Put(s.aborts, Some(s.pendingAbort.id), Outcome.Rejected(s.storedError))
    else s.aborts
  }

  /** From `s` to `t` the engine only advanced its queue or finished failing. */
  ghost predicate Reacts<T>(s: Stream<T>, t: Stream<T>) {
    && t.storedError == s.storedError && (t.state == s.state || t.state.Errored?)
    && t.accepted == s.accepted && t.results == s.results && t.started == s.started
    && t.writer.Writer? == s.writer.Writer?
    && OnlyRejects(s.writes, t.writes, s.storedError) && KeepsSettled(s, t)
    && t.closes == ClosesAfter(s, t) && t.aborts == AbortsAfter(s, t)
    && (AcceptsWrites(t) ==> Total(t.queue) == Total(s.queue))
  }

  lemma {:induction false} RejectWritesReacts<T>(s: Stream<T>)
    ensures var t := RejectWrites(s);
            && t == s.(writeRequests := [], writes := t.writes, faults := t.faults)
            && OnlyRejects(s.writes, t.writes, s.storedError)
    decreases |s.writeRequests|
  {
    if s.writeRequests != [] {
      RejectWritesReacts(SettleWrite(s.(writeRequests := s.writeRequests[1..]), Some(s.writeRequests[0]),
                                     Outcome.Rejected(s.storedError)));
    }
  }

  lemma RejectCloseReacts<T>(s: Stream<T>)
    ensures var t := RejectCloseAndClosed(s);
            && t == s.(closeRequest := None, closes := Put(s.closes, s.closeRequest, Outcome.Rejected(s.storedError)),
                       faults := t.faults, writer := t.writer)
            && t.writer.Writer? == s.writer.Writer?
  {
    var u := RejectClose(s);
    assert u == s.(closeRequest := None, closes := Put(s.closes, s.closeRequest, Outcome.Rejected(s.storedError)),
                   faults := u.faults);
    hide RejectClose, Put;
  }

  /** What an answered abort leaves as it was. */
  ghost predicate Answers<T>(s: Stream<T>, t: Stream<T>) {
    && t.state == s.state && t.storedError == s.storedError && t.started == s.started
    && t.accepted == s.accepted && t.results == s.results && t.writes == s.writes
    && t.writer.Writer? == s.writer.Writer?
    && t.closes == ClosesAfter(s, t) && t.aborts == AbortsAfter(s, t)
  }

  lemma AnswerAbortReacts<T>(s: Stream<T>)
    requires s.abortsOut == [] && s.state.Errored?
    ensures Answers(s, AnswerAbort(s))
  {
    hide RejectCloseAndClosed;
    if s.pendingAbort.NoAbort? {
      RejectCloseReacts(s);
    } else if s.pendingAbort.wasAlreadyErroring {
      RejectCloseReacts(SettleAbort(s.(pendingAbort := NoAbort), s.pendingAbort.id,
                                    Outcome.Rejected(s.storedError)));
    }
  }

  lemma FinishErroringReacts<T>(s: Stream<T>)
    requires s.abortsOut == []
    ensures Reacts(s, FinishErroring(s)) && FinishErroring(s).state.Errored?
  {
    var t := s.(state := Errored, queue := []);
    RejectWritesReacts(t);
    AnswerAbortReacts(RejectWrites(t));
    FinishErroringKeeps(s);
    hide RejectWrites, AnswerAbort, KeepsSettled, Put;
  }

  lemma NothingReacts<T>(s: Stream<T>, t: Stream<T>)
    requires t == s.(inFlightClose := t.inFlightClose, closeRequest := t.closeRequest, queue := t.queue,
                     inFlightWrite := t.inFlightWrite, writeRequests := t.writeRequests, calls := t.calls,
                     cleared := t.cleared, closesOut := t.closesOut, writesOut := t.writesOut, begun := t.begun,
                     faults := t.faults)
    requires s.faults <= t.faults && !s.state.Errored?
    requires AcceptsWrites(t) ==> t.queue == s.queue
    ensures Reacts(s, t)
  {}

  /** The close sentinel stands for the close that waits. */
  predicate Marked<T>(s: Stream<T>) {
    s.queue != [] && s.queue[0].item.CloseSentinel? ==> s.closeRequest.Some?
  }

  lemma AdvanceReacts<T>(s: Stream<T>)
    requires Alive(s) && s.abortsOut == [] && (s.state.Writable? ==> Marked(s))
    ensures Reacts(s, AdvanceQueueIfNeeded(s))
    ensures s.state.Writable? ==> AdvanceQueueIfNeeded(s).state.Writable?
  {
    hide Reacts, FinishErroring;
    if s.started && s.inFlightWrite.None? && s.state.Erroring? {
      FinishErroringReacts(s);
    } else {
      AdvanceFrame(s);
      hide AdvanceQueueIfNeeded;
      NothingReacts(s, AdvanceQueueIfNeeded(s));
    }
  }

  lemma AdvanceFrame<T>(s: Stream<T>)
    requires (s.state.Writable? && Marked(s)) || (s.state.Erroring? && !(s.started && s.inFlightWrite.None?))
    ensures var t := AdvanceQueueIfNeeded(s);
            && t == s.(inFlightClose := t.inFlightClose, closeRequest := t.closeRequest, queue := t.queue,
                       inFlightWrite := t.inFlightWrite, writeRequests := t.writeRequests, calls := t.calls,
                       cleared := t.cleared, closesOut := t.closesOut, writesOut := t.writesOut, begun := t.begun,
                       faults := t.faults)
            && s.faults <= t.faults && (AcceptsWrites(t) ==> t.queue == s.queue)
  {
    hide FinishErroring;
  }

  /** The stream as it starts to fail. */
  function Failing<T>(s: Stream<T>, reason: Reason): Stream<T> {
    s.(state := Erroring, storedError := reason, writer := EnsureReadyRejected(s.writer, reason))
  }

  lemma StartErroringReacts<T>(s: Stream<T>, reason: Reason)
    requires s.abortsOut == []
    ensures Reacts(Failing(s, reason), StartErroring(s, reason))
  {
    FinishErroringReacts(Failing(s, reason));
    NothingReacts(Failing(s, reason), Failing(s, reason));
    hide Reacts, FinishErroring;
  }

  // --------------------------------------------------------------- one step

  /** The step's own doing, before the engine reacts. */
  ghost predicate Begins<T>(s: Stream<T>, e: Event<T>, u: Stream<T>) {
    && Alive(u) && u.faults == s.faults
    && (if s.state.Erroring? then u.state.Erroring? && u.storedError == s.storedError
        else if Failure(s, e).Some? then u.state.Erroring? && u.storedError == Failure(s, e).value
        else u.state.Writable?)
    && u.accepted == s.accepted + (if Accepts(s, e) then [e.chunk] else [])
    && u.results == s.results + (if HearsWrite(s, e) then [e.r.Ok?] else [])
    && u.writes == (if HearsWrite(s, e) then Put(s.writes, s.inFlightWrite, OutcomeOf(e.r))
                    else if Accepts(s, e) then s.writes + [Pending] else s.writes)
    && u.closes == (if HearsClose(s, e) then Put(s.closes, s.inFlightClose, OutcomeOf(e.r))
                    else if StartsClose(s, e) then s.closes + [Pending] else s.closes)
    && u.closeRequest == (if StartsClose(s, e) then Some(|s.closes|) else s.closeRequest)
    && u.inFlightClose == (if HearsClose(s, e) then None else s.inFlightClose)
    && u.aborts == (if HearsClose(s, e) && s.pendingAbort.AbortRequest? then
                      Put(s.aborts, Some(s.pendingAbort.id), OutcomeOf(e.r))
                    else if StartsAbort(s, e) then s.aborts + [Pending] else s.aborts)
    && (if StartsAbort(s, e) then
          && u.pendingAbort.AbortRequest? && u.pendingAbort.id == |s.aborts|
          && u.pendingAbort.wasAlreadyErroring == s.state.Erroring?
        else u.pendingAbort == if HearsClose(s, e) then NoAbort else s.pendingAbort)
    && u.started == (s.started || (e.StartSettles? && s.startOut))
    && u.writer.Writer? == s.writer.Writer?
    && (AcceptsWrites(u) ==>
          Total(u.queue) ==
            if Accepts(s, e) && e.size.Size? then Total(s.queue) + e.size.size
            else if HearsWrite(s, e) && s.queue != [] then Total(s.queue) - s.queue[0].size
            else Total(s.queue))
  }

  lemma WritesExact<T>(s: Stream<T>, e: Event<T>, u: Stream<T>, t: Stream<T>)
    requires Writes(s) && Writes(t) && Begins(s, e, u) && Reacts(u, t) && t.faults == s.faults
    requires s.writesOut == |OptionSeq(s.inFlightWrite)|
    ensures WritesFollow(s, e, t)
  {
    assert HearsWrite(s, e) ==> s.inFlightWrite == Some(|s.results|);
    assert Kept(u.writes, t.writes);
  }

  lemma ClosesExact<T>(s: Stream<T>, e: Event<T>, u: Stream<T>, t: Stream<T>)
    requires Requests(s) && Requests(t) && Begins(s, e, u) && Reacts(u, t)
    requires s.closesOut == |OptionSeq(s.inFlightClose)| && (Terminal(t) ==> !CloseQueuedOrInFlight(t))
    ensures ClosesFollow(s, e, t)
    ensures AcceptsWrites(t) ==> AcceptsWrites(u)
  {
    var last := |u.closes| - 1;
    assert u.closeRequest.Some? ==> u.closeRequest.value == last;
    assert u.inFlightClose.Some? ==> u.inFlightClose.value == last;
    assert CloseQueuedOrInFlight(u) <==> u.closes != [] && u.closes[last].Pending?;
  }

  lemma AbortsExact<T>(s: Stream<T>, e: Event<T>, u: Stream<T>, t: Stream<T>)
    requires Requests(s) && Requests(t) && Begins(s, e, u) && Reacts(u, t)
    requires s.abortsOut == [] && (StartsAbort(s, e) && s.state.Erroring? ==> t.state.Erroring?)
    ensures AbortsFollow(s, e, t)
  {}

  lemma RestExact<T>(s: Stream<T>, e: Event<T>, u: Stream<T>, t: Stream<T>)
    requires Alive(s) && Begins(s, e, u) && Reacts(u, t) && (AcceptsWrites(t) ==> AcceptsWrites(u))
    requires !(HearsClose(s, e) && e.r.Ok?) && !e.GetWriterCall? && !e.ReleaseCall?
    requires u.state.Writable? ==> t.state.Writable?
    ensures StateFollows(s, e, t) && ChargesFollow(s, e, t)
    ensures t.started == (s.started || (e.StartSettles? && s.startOut)) && t.writer.Writer? == s.writer.Writer?
  {
    hide OnlyRejects, KeepsSettled, Put;
  }

  lemma BeginsFollow<T>(s: Stream<T>, e: Event<T>, u: Stream<T>, t: Stream<T>)
    requires Inv(s) && Inv(t) && Alive(s) && Begins(s, e, u) && Reacts(u, t)
    requires !(HearsClose(s, e) && e.r.Ok?) && !e.GetWriterCall? && !e.ReleaseCall?
    requires (StartsAbort(s, e) && s.state.Erroring?) || u.state.Writable? ==> t.state == u.state
    ensures Follows(s, e, t)
  {
    assert StartsAbort(s, e) && s.state.Erroring? ==> t.state.Erroring?;
    hide Begins, Reacts, WritesFollow, ClosesFollow, AbortsFollow, StateFollows, ChargesFollow;
    WritesExact(s, e, u, t);
    ClosesExact(s, e, u, t);
    AbortsExact(s, e, u, t);
    RestExact(s, e, u, t);
  }

  lemma StartErroringFollows<T>(s: Stream<T>, e: Event<T>, u: Stream<T>, reason: Reason)
    requires Inv(s) && s.state.Writable? && Failure(s, e) == Some(reason) && u.abortsOut == []
    requires Begins(s, e, Failing(u, reason)) && Inv(StartErroring(u, reason)) && !(HearsClose(s, e) && e.r.Ok?)
    ensures Follows(s, e, StartErroring(u, reason))
  {
    StartErroringReacts(u, reason);
    BeginsFollow(s, e, Failing(u, reason), StartErroring(u, reason));
  }

  lemma FinishErroringFollows<T>(s: Stream<T>, e: Event<T>, u: Stream<T>)
    requires Inv(s) && s.state.Erroring? && Begins(s, e, u) && u.abortsOut == [] && Inv(FinishErroring(u))
    requires !(HearsClose(s, e) && e.r.Ok?) && !StartsAbort(s, e) && !e.GetWriterCall? && !e.ReleaseCall?
    ensures Follows(s, e, FinishErroring(u))
  {
    FinishErroringReacts(u);
    BeginsFollow(s, e, u, FinishErroring(u));
  }

  lemma AdvanceFollows<T>(s: Stream<T>, e: Event<T>, u: Stream<T>)
    requires Inv(s) && Alive(s) && Begins(s, e, u) && u.abortsOut == [] && Inv(AdvanceQueueIfNeeded(u))
    requires u.state.Writable? ==> Marked(u)
    requires !(HearsClose(s, e) && e.r.Ok?) && !StartsAbort(s, e) && !e.GetWriterCall? && !e.ReleaseCall?
    ensures Follows(s, e, AdvanceQueueIfNeeded(u))
  {
    AdvanceReacts(u);
    BeginsFollow(s, e, u, AdvanceQueueIfNeeded(u));
  }

  /** Nothing the step does shows. */
  lemma SameFollows<T>(s: Stream<T>, e: Event<T>, t: Stream<T>)
    requires Inv(s) && Inv(t) && t == s.(writer := t.writer)
    requires Alive(s) ==> Failure(s, e).None? || s.state.Erroring?
    requires !Accepts(s, e) && !StartsClose(s, e) && !StartsAbort(s, e)
    requires !HearsWrite(s, e) && !HearsClose(s, e) && !HearsAbort(s, e) && !(e.StartSettles? && s.startOut)
    requires t.writer.Writer? == (if e.GetWriterCall? then true else if e.ReleaseCall? then false else s.writer.Writer?)
    ensures Follows(s, e, t)
  {}

  /** What a live stream's invariant says of its requests. */
  lemma AliveFacts<T>(s: Stream<T>)
    requires Inv(s) && Alive(s)
    ensures s.abortsOut == [] && (s.state.Writable? ==> s.pendingAbort.NoAbort?)
    ensures AcceptsWrites(s) ==> !s.cleared
    ensures s.writesOut == |OptionSeq(s.inFlightWrite)| && s.closesOut == |OptionSeq(s.inFlightClose)|
    ensures s.startOut ==> s.inFlightClose.None? && s.inFlightWrite.None?
  {}

  /** The chunk in its place among the requests, not queued yet. */
  function Requested<T>(s: Stream<T>, chunk: T): Stream<T> {
    s.(writes := s.writes + [Pending], writeRequests := s.writeRequests + [|s.writes|],
       accepted := s.accepted + [chunk])
  }

  lemma FailingBegins<T>(s: Stream<T>, e: Event<T>, u: Stream<T>, reason: Reason)
    requires s.state.Writable? && Failure(s, e) == Some(reason) && s.pendingAbort.NoAbort?
    requires match e
             case WriteCall(chunk, size) => u == (if Accepts(s, e) then Requested(s, chunk) else s).(cleared := true)
             case AbortCall(_) =>
               u == s.(aborts := s.aborts + [Pending], pendingAbort := AbortRequest(|s.aborts|, reason, false))
             case SinkErrorCall(_) => u == s.(cleared := true)
             case StartSettles(_) => u == s.(startOut := false, started := true)
             case _ => false
    ensures Begins(s, e, Failing(u, reason))
  {}

  lemma FailedWriteFollows<T>(s: Stream<T>, chunk: T, size: SizeResult)
    requires Inv(s) && s.writer.Writer? && s.state.Writable? && !s.cleared && !size.Size?
    requires size.Threw? || !CloseQueuedOrInFlight(s)
    ensures Follows(s, WriteCall(chunk, size), Write(s, chunk, size).0)
  {
    hide StartErroring, Inv, Follows, Begins;
    var e := WriteCall(chunk, size);
    var u := (if Accepts(s, e) then Requested(s, chunk) else s).(cleared := true);
    AliveFacts(s);
    WriteKeepsInv(s, chunk, size);
    ErrorIfNeededKeepsInv(s, size.error);
    FailingBegins(s, e, u, size.error);
    FailedWriteIs(s, chunk, size);
    StartErroringFollows(s, e, u, size.error);
  }

  lemma FailedWriteIs<T>(s: Stream<T>, chunk: T, size: SizeResult)
    requires s.writer.Writer? && s.state.Writable? && !s.cleared && !size.Size? && s.abortsOut == []
    requires size.Threw? || !CloseQueuedOrInFlight(s)
    ensures var u := (if Accepts(s, WriteCall(chunk, size)) then Requested(s, chunk) else s).(cleared := true);
            Write(s, chunk, size).0 == StartErroring(u, size.error)
  {
    StartErroringReacts(s.(cleared := true), size.error);
    hide StartErroring, OnlyRejects, KeepsSettled, Put;
  }

  lemma QueuedBegins<T>(s: Stream<T>, chunk: T, size: SizeResult, u: Stream<T>)
    requires Accepts(s, WriteCall(chunk, size)) && size.Size?
    requires u == RefreshBackpressure(Requested(s, chunk).(queue := s.queue + [Entry(Chunk(chunk), size.size)]))
    ensures Begins(s, WriteCall(chunk, size), u) && u.abortsOut == s.abortsOut
  {
    TotalAppend(s.queue, Entry(Chunk(chunk), size.size));
  }

  lemma AcceptingMarked<T>(s: Stream<T>)
    requires s.state.Writable? && s.inFlightClose.None? && Queued(s)
    ensures Marked(s)
  {
    if s.queue != [] {
      assert s.queue[0].item == Items(s.queue)[0];
    }
  }

  lemma QueuedWriteFollows<T>(s: Stream<T>, chunk: T, size: SizeResult)
    requires Inv(s) && Accepts(s, WriteCall(chunk, size)) && size.Size?
    ensures Follows(s, WriteCall(chunk, size), Write(s, chunk, size).0)
  {
    AliveFacts(s);
    WriteKeepsInv(s, chunk, size);
    QueuedWriteIdle(s, Requested(s, chunk), chunk, size.size);
    var u := RefreshBackpressure(Requested(s, chunk).(queue := s.queue + [Entry(Chunk(chunk), size.size)]));
    QueuedBegins(s, chunk, size, u);
    AcceptingMarked(u);
    hide Inv, Follows, Begins, AdvanceQueueIfNeeded, Idle, RefreshBackpressure, Marked;
    AdvanceFollows(s, WriteCall(chunk, size), u);
  }

  lemma WriteFollows<T>(s: Stream<T>, chunk: T, size: SizeResult)
    requires Inv(s) && s.writer.Writer?
    ensures Follows(s, WriteCall(chunk, size), Write(s, chunk, size).0)
  {
    var e := WriteCall(chunk, size);
    if s.state.Writable? {
      AliveFacts(s);
    }
    hide Inv, Follows, ControllerWrite, ControllerErrorIfNeeded;
    if s.state.Writable? && Failure(s, e).Some? {
      FailedWriteFollows(s, chunk, size);
    } else if Accepts(s, e) {
      QueuedWriteFollows(s, chunk, size);
    } else {
      RefusedIs(s, chunk, size);
      SameFollows(s, e, s);
    }
  }

  lemma RefusedIs<T>(s: Stream<T>, chunk: T, size: SizeResult)
    requires s.writer.Writer? && !(s.state.Writable? && Failure(s, WriteCall(chunk, size)).Some?)
    requires !Accepts(s, WriteCall(chunk, size)) && (AcceptsWrites(s) ==> !s.cleared)
    ensures Write(s, chunk, size).0 == s
  {}

  lemma ClosingBegins<T>(s: Stream<T>)
    requires StartsClose(s, CloseCall)
    ensures var u := QueueClose(s); Begins(s, CloseCall, u) && u.abortsOut == s.abortsOut && Marked(u)
  {}

  lemma CloseFollows<T>(s: Stream<T>)
    requires Inv(s)
    ensures Follows(s, CloseCall, Close(s).0)
  {
    hide Inv, Follows, Begins, AdvanceQueueIfNeeded, QueueClose, Marked;
    CloseKeepsInv(s);
    if StartsClose(s, CloseCall) {
      AliveFacts(s);
      ClosingBegins(s);
      AdvanceFollows(s, CloseCall, QueueClose(s));
    } else {
      SameFollows(s, CloseCall, s);
    }
  }

  lemma LateAbortBegins<T>(s: Stream<T>, reason: Reason, t: Stream<T>)
    requires s.state.Erroring? && s.pendingAbort.NoAbort?
    requires t == s.(aborts := s.aborts + [Pending], pendingAbort := AbortRequest(|s.aborts|, Undefined, true))
    ensures Begins(s, AbortCall(reason), t) && Reacts(t, t)
  {}

  lemma AbortFollows<T>(s: Stream<T>, reason: Reason)
    requires Inv(s)
    ensures Follows(s, AbortCall(reason), Abort(s, reason).0)
  {
    hide Inv, Follows, Begins, StartErroring, Reacts;
    var e := AbortCall(reason);
    AbortKeepsInv(s, reason);
    if !StartsAbort(s, e) {
      if Alive(s) {
        AliveFacts(s);
      }
      SameFollows(s, e, s);
    } else if s.state.Writable? {
      var u := s.(aborts := s.aborts + [Pending], pendingAbort := AbortRequest(|s.aborts|, reason, false));
      AliveFacts(s);
      FailingBegins(s, e, u, reason);
      StartErroringFollows(s, e, u, reason);
    } else {
      LateAbortBegins(s, reason, Abort(s, reason).0);
      BeginsFollow(s, e, Abort(s, reason).0, Abort(s, reason).0);
    }
  }

  lemma ErrorFollows<T>(s: Stream<T>, reason: Reason)
    requires Inv(s)
    ensures Follows(s, SinkErrorCall(reason), ControllerErrorIfNeeded(s, reason))
  {
    hide Inv, Follows, Begins, StartErroring;
    ErrorIfNeededKeepsInv(s, reason);
    if s.state.Writable? {
      AliveFacts(s);
      FailingBegins(s, SinkErrorCall(reason), s.(cleared := true), reason);
      StartErroringFollows(s, SinkErrorCall(reason), s.(cleared := true), reason);
    } else {
      SameFollows(s, SinkErrorCall(reason), s);
    }
  }

  lemma StartBegins<T>(s: Stream<T>, r: Settlement)
    requires s.startOut && Alive(s) && (r.Ok? || s.state.Erroring?)
    ensures Begins(s, StartSettles(r), s.(startOut := false, started := true))
  {}

  lemma StartingAlive<T>(s: Stream<T>)
    requires Inv(s) && s.startOut
    ensures Alive(s) && (s.state.Writable? ==> Marked(s.(startOut := false, started := true)))
  {
    if s.state.Writable? {
      AcceptingMarked(s);
    }
  }

  lemma StartFollows<T>(s: Stream<T>, r: Settlement)
    requires Inv(s) && s.startOut
    ensures Follows(s, StartSettles(r), OnStart(s, r))
  {
    hide Inv, Follows, Begins, StartErroring, FinishErroring, AdvanceQueueIfNeeded, Marked;
    OnStartKeepsInv(s, r);
    StartingAlive(s);
    AliveFacts(s);
    var t := s.(startOut := false, started := true);
    if r.Ok? {
      StartBegins(s, r);
      AdvanceFollows(s, StartSettles(r), t);
    } else if s.state.Writable? {
      FailingBegins(s, StartSettles(r), t, r.error);
      StartErroringFollows(s, StartSettles(r), t, r.error);
    } else {
      StartBegins(s, r);
      FinishErroringFollows(s, StartSettles(r), t);
    }
  }

  /** The write, close or abort the sink is at, and its pending promise. */
  lemma InFlightFacts<T>(s: Stream<T>)
    requires Inv(s)
    ensures s.writesOut > 0 ==> Alive(s) && s.inFlightWrite == Some(|s.results|) && IsPending(s.writes, |s.results|)
    ensures s.closesOut > 0 ==> && Alive(s) && s.inFlightClose == Some(|s.closes| - 1) && s.closeRequest.None?
                                && IsPending(s.closes, |s.closes| - 1) && |s.results| == |s.writes|
    ensures s.pendingAbort.AbortRequest? ==> && IsPending(s.aborts, s.pendingAbort.id) && s.abortsOut == []
                                             && s.state.Erroring? && s.pendingAbort.id == |s.aborts| - 1
    ensures s.abortsOut != [] ==> && s.state.Errored? && s.abortsOut == [|s.aborts| - 1]
                                  && IsPending(s.aborts, |s.aborts| - 1)
  {}

  /** The stream once it has heard from its write. */
  ghost predicate WriteHeard<T>(s: Stream<T>, r: Settlement, u: Stream<T>) {
    && s.writesOut > 0 && Alive(s) && s.closesOut == 0
    && u == s.(writesOut := s.writesOut - 1, results := s.results + [r.Ok?], cleared := u.cleared,
               writes := Put(s.writes, s.inFlightWrite, OutcomeOf(r)), inFlightWrite := None)
  }

  lemma HearsTheWrite<T>(s: Stream<T>, r: Settlement, cleared: bool)
    requires s.writesOut > 0 && Alive(s) && s.closesOut == 0
    requires s.inFlightWrite.Some? && IsPending(s.writes, s.inFlightWrite.value)
    ensures WriteHeard(s, r, FinishInFlightWrite(s.(writesOut := s.writesOut - 1, results := s.results + [r.Ok?],
                                                    cleared := cleared), OutcomeOf(r)))
  {}

  lemma FulfilledBegins<T>(s: Stream<T>, u: Stream<T>, v: Stream<T>)
    requires WriteHeard(s, Ok, u) && v == RefreshBackpressure(Dequeue(u))
    ensures Begins(s, WriteSettles(Ok), v) && v.abortsOut == s.abortsOut
  {
    RefreshFrame(Dequeue(u));
    hide RefreshBackpressure, Put;
  }

  lemma RefreshFrame<T>(s: Stream<T>)
    ensures var t := RefreshBackpressure(s);
            t == s.(writer := t.writer, backpressure := t.backpressure) && t.writer.Writer? == s.writer.Writer?
  {}

  lemma RejectedBegins<T>(s: Stream<T>, reason: Reason, u: Stream<T>)
    requires WriteHeard(s, Failed(reason), u)
    ensures s.state.Erroring? ==> Begins(s, WriteSettles(Failed(reason)), u)
    ensures s.state.Writable? ==> Begins(s, WriteSettles(Failed(reason)), Failing(u, reason))
  {
    hide Put;
  }

  lemma WriteFulfilledFollows<T>(s: Stream<T>)
    requires Inv(s) && s.writesOut > 0
    ensures Follows(s, WriteSettles(Ok), OnWrite(s, Ok))
  {
    InFlightFacts(s);
    AliveFacts(s);
    WriteFulfilledKeepsInv(s);
    assert s.closesOut == 0;
    var t := FinishInFlightWrite(s.(writesOut := s.writesOut - 1, results := s.results + [true]), Fulfilled);
    WriteFulfilledIdle(s, t);
    HearsTheWrite(s, Ok, s.cleared);
    var u := RefreshBackpressure(Dequeue(t));
    FulfilledBegins(s, t, u);
    if u.state.Writable? {
      AcceptingMarked(u);
    }
    hide Inv, Follows, Begins, AdvanceQueueIfNeeded, Idle, RefreshBackpressure, Marked, Dequeue;
    AdvanceFollows(s, WriteSettles(Ok), u);
  }

  lemma OneAtATime<T>(s: Stream<T>)
    requires Inv(s) && s.writesOut > 0
    ensures s.closesOut == 0
  {}

  lemma WriteRejectedFollows<T>(s: Stream<T>, reason: Reason)
    requires Inv(s) && s.writesOut > 0
    ensures Follows(s, WriteSettles(Failed(reason)), OnWrite(s, Failed(reason)))
  {
    hide Inv, Follows, Begins, StartErroring, FinishErroring;
    InFlightFacts(s);
    AliveFacts(s);
    OneAtATime(s);
    WriteRejectedKeepsInv(s, reason);
    var cleared := s.state.Writable? || s.cleared;
    var u := FinishInFlightWrite(s.(writesOut := s.writesOut - 1, results := s.results + [false], cleared := cleared),
                                 Outcome.Rejected(reason));
    HearsTheWrite(s, Failed(reason), cleared);
    RejectedBegins(s, reason, u);
    if s.state.Writable? {
      StartErroringFollows(s, WriteSettles(Failed(reason)), u, reason);
    } else {
      FinishErroringFollows(s, WriteSettles(Failed(reason)), u);
    }
  }

  lemma CloseHeardBegins<T>(s: Stream<T>, reason: Reason, u: Stream<T>)
    requires s.closesOut > 0 && Alive(s) && s.inFlightClose.Some? && IsPending(s.closes, s.inFlightClose.value)
    requires s.pendingAbort.AbortRequest? ==> IsPending(s.aborts, s.pendingAbort.id)
    requires u == SettlePendingAbort(FinishInFlightClose(s.(closesOut := s.closesOut - 1), Outcome.Rejected(reason)),
                                     Outcome.Rejected(reason))
    ensures s.state.Erroring? ==> Begins(s, CloseSettles(Failed(reason)), u)
    ensures s.state.Writable? ==> Begins(s, CloseSettles(Failed(reason)), Failing(u, reason))
    ensures u.abortsOut == s.abortsOut
  {}

  lemma CloseRejectedFollows<T>(s: Stream<T>, reason: Reason)
    requires Inv(s) && s.closesOut > 0
    ensures Follows(s, CloseSettles(Failed(reason)), OnClose(s, Failed(reason)))
  {
    hide Inv, Follows, Begins, StartErroring, FinishErroring;
    InFlightFacts(s);
    AliveFacts(s);
    CloseRejectedKeepsInv(s, reason);
    var u := SettlePendingAbort(FinishInFlightClose(s.(closesOut := s.closesOut - 1), Outcome.Rejected(reason)),
                                Outcome.Rejected(reason));
    CloseHeardBegins(s, reason, u);
    if s.state.Writable? {
      StartErroringFollows(s, CloseSettles(Failed(reason)), u, reason);
    } else {
      FinishErroringFollows(s, CloseSettles(Failed(reason)), u);
    }
  }

  lemma CloseFulfilledIs<T>(s: Stream<T>, t: Stream<T>)
    requires Alive(s) && s.closesOut > 0 && t == OnClose(s, Ok)
    requires s.pendingAbort.AbortRequest? ==> s.state.Erroring?
    ensures t == s.(state := Closed, closesOut := s.closesOut - 1, inFlightClose := None, pendingAbort := NoAbort,
                    closes := Put(s.closes, s.inFlightClose, Fulfilled), writer := t.writer, faults := t.faults,
                    aborts := (if s.pendingAbort.AbortRequest? then Put(s.aborts, Some(s.pendingAbort.id), Fulfilled)
                               else s.aborts), storedError := t.storedError)
    ensures t.writer.Writer? == s.writer.Writer?
  {
    hide Put;
  }

  lemma CloseFulfilledFollows<T>(s: Stream<T>)
    requires Inv(s) && s.closesOut > 0
    ensures Follows(s, CloseSettles(Ok), OnClose(s, Ok))
  {
    InFlightFacts(s);
    AliveFacts(s);
    CloseFulfilledIs(s, OnClose(s, Ok));
    ClosedExact(s, OnClose(s, Ok));
  }

  lemma ClosedExact<T>(s: Stream<T>, t: Stream<T>)
    requires Writes(s) && Requests(s) && s.closesOut > 0 && Alive(s) && s.abortsOut == []
    requires s.inFlightClose == Some(|s.closes| - 1) && IsPending(s.closes, |s.closes| - 1)
    requires |s.results| == |s.writes|
    requires t == s.(state := Closed, closesOut := s.closesOut - 1, inFlightClose := None, pendingAbort := NoAbort,
                     closes := Put(s.closes, s.inFlightClose, Fulfilled), writer := t.writer, faults := t.faults,
                     aborts := (if s.pendingAbort.AbortRequest? then Put(s.aborts, Some(s.pendingAbort.id), Fulfilled)
                                else s.aborts), storedError := t.storedError)
    requires t.writer.Writer? == s.writer.Writer?
    ensures Follows(s, CloseSettles(Ok), t)
  {}

  lemma AbortHeardFollows<T>(s: Stream<T>, r: Settlement)
    requires Inv(s) && s.abortsOut != []
    ensures Follows(s, AbortSettles(r), OnAbort(s, r))
  {
    InFlightFacts(s);
    RejectCloseReacts(SettleAbort(s.(abortsOut := s.abortsOut[1..]), s.abortsOut[0], OutcomeOf(r)));
    AbortedExact(s, r, OnAbort(s, r));
  }

  lemma AbortedExact<T>(s: Stream<T>, r: Settlement, t: Stream<T>)
    requires Writes(s) && Requests(s) && s.state.Errored?
    requires s.abortsOut == [|s.aborts| - 1] && IsPending(s.aborts, |s.aborts| - 1) && s.inFlightClose.None?
    requires t == s.(abortsOut := [], aborts := s.aborts[|s.aborts| - 1 := OutcomeOf(r)], closeRequest := None,
                     closes := Put(s.closes, s.closeRequest, Outcome.Rejected(s.storedError)),
                     faults := t.faults, writer := t.writer)
    requires t.writer.Writer? == s.writer.Writer?
    ensures Follows(s, AbortSettles(r), t)
  {}

  lemma WriterFollows<T>(s: Stream<T>)
    requires Inv(s)
    ensures Follows(s, GetWriterCall, GetWriter(s)) && Follows(s, ReleaseCall, ReleaseWriter(s))
  {
    hide Inv, Follows;
    GetWriterKeepsInv(s);
    ReleaseKeepsInv(s);
    SameFollows(s, GetWriterCall, GetWriter(s));
    SameFollows(s, ReleaseCall, ReleaseWriter(s));
  }

  /** Nobody waits for what the step brings. */
  lemma UnheardFollows<T>(s: Stream<T>, e: Event<T>)
    requires Inv(s)
    requires match e
             case WriteCall(_, _) => s.writer.NoWriter?
             case StartSettles(_) => !s.startOut
             case WriteSettles(_) => s.writesOut == 0
             case CloseSettles(_) => s.closesOut == 0
             case AbortSettles(_) => s.abortsOut == []
             case _ => false
    ensures Follows(s, e, Step(s, e))
  {
    hide Inv;
    SameFollows(s, e, s);
  }

  /** Every step, from every state that keeps the invariant. */
  lemma StepFollows<T>(s: Stream<T>, e: Event<T>)
    requires Inv(s)
    ensures Follows(s, e, Step(s, e))
  {
    hide Inv, Follows, GetWriter, ReleaseWriter, Write, Close, Abort, ControllerErrorIfNeeded, OnStart, OnWrite,
         OnClose, OnAbort;
    match e
    case GetWriterCall => WriterFollows(s);
    case ReleaseCall => WriterFollows(s);
    case WriteCall(chunk, size) => if s.writer.Writer? { WriteFollows(s, chunk, size); } else { UnheardFollows(s, e); }
    case CloseCall => CloseFollows(s);
    case AbortCall(reason) => AbortFollows(s, reason);
    case SinkErrorCall(reason) => ErrorFollows(s, reason);
    case StartSettles(r) => if s.startOut { StartFollows(s, r); } else { UnheardFollows(s, e); }
    case WriteSettles(r) =>
      if s.writesOut == 0 {
        UnheardFollows(s, e);
      } else {
        match r
        case Ok => WriteFulfilledFollows(s);
        case Failed(reason) => WriteRejectedFollows(s, reason);
      }
    case CloseSettles(r) =>
      if s.closesOut == 0 {
        UnheardFollows(s, e);
      } else {
        match r
        case Ok => CloseFulfilledFollows(s);
        case Failed(reason) => CloseRejectedFollows(s, reason);
      }
    case AbortSettles(r) => if s.abortsOut != [] { AbortHeardFollows(s, r); } else { UnheardFollows(s, e); }
  }

  // -------------------------------------------------------- the promises handed out

  /** An accepted chunk is answered with the promise of its own request, which nobody was given
      before; a refused one with a rejection. */
  ghost predicate WriteReplied<T>(s: Stream<T>, chunk: T, size: SizeResult, t: Stream<T>, reply: Reply) {
    if Accepts(s, WriteCall(chunk, size)) then
      && reply == Request(|s.accepted|) && |s.writes| == |s.accepted|
      && |t.writes| == |t.accepted| == |s.accepted| + 1 && t.accepted[|s.accepted|] == chunk
    else
      && t.accepted == s.accepted
      && reply == RejectedWith(if s.writer.NoWriter? then InvalidState
                               else if t.state.Errored? then t.storedError
                               else if CloseQueuedOrInFlight(t) || t.state.Closed? then InvalidState
                               else t.storedError)
  }

  ghost predicate CloseReplied<T>(s: Stream<T>, t: Stream<T>, reply: Reply) {
    if StartsClose(s, CloseCall) then reply == Request(|s.closes|) && |t.closes| == |s.closes| + 1
    else reply == RejectedWith(InvalidState) && t == s
  }

  /** A second abort joins the one that waits. */
  ghost predicate AbortReplied<T>(s: Stream<T>, reason: Reason, t: Stream<T>, reply: Reply) {
    if !Alive(s) then reply == Resolved && t == s
    else if StartsAbort(s, AbortCall(reason)) then reply == Request(|s.aborts|) && |t.aborts| == |s.aborts| + 1
    else reply.Request? && reply.id < |s.aborts| && s.aborts[reply.id].Pending? && t == s
  }

  lemma WriteReplies<T>(s: Stream<T>, chunk: T, size: SizeResult)
    requires Inv(s) && s.writer.Writer?
    ensures WriteReplied(s, chunk, size, Write(s, chunk, size).0, Write(s, chunk, size).1)
  {
    hide Inv, Begins, ControllerWrite, ControllerErrorIfNeeded, StateFollows, ClosesFollow, AbortsFollow, ChargesFollow;
    WriteFollows(s, chunk, size);
    WriteKeepsInv(s, chunk, size);
    WritesCounted(s);
    WritesCounted(Write(s, chunk, size).0);
    if s.state.Writable? {
      AliveFacts(s);
    }
    if size.Threw? {
      FailedState(s, size);
    }
  }

  lemma WritesCounted<T>(s: Stream<T>)
    requires Inv(s)
    ensures |s.writes| == |s.accepted|
  {}

  lemma FailedState<T>(s: Stream<T>, size: SizeResult)
    requires Inv(s) && size.Threw?
    ensures var t := ControllerErrorIfNeeded(s, size.error);
            if s.state.Writable? then !t.state.Writable? && !t.state.Closed? else t == s
  {
    if s.state.Writable? {
      AliveFacts(s);
      StartErroringReacts(s.(cleared := true), size.error);
    }
    hide StartErroring;
  }

  lemma CloseReplies<T>(s: Stream<T>)
    requires Inv(s)
    ensures CloseReplied(s, Close(s).0, Close(s).1)
  {
    CloseFollows(s);
    hide Inv, AdvanceQueueIfNeeded, QueueClose;
  }

  lemma AbortReplies<T>(s: Stream<T>, reason: Reason)
    requires Inv(s)
    ensures AbortReplied(s, reason, Abort(s, reason).0, Abort(s, reason).1)
  {
    InFlightFacts(s);
    AbortFollows(s, reason);
    hide Inv, StartErroring;
  }
}
