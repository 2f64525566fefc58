/** What one step of a byte stream does to its state, its reads and its pulls, said of the
    states before and after it. */
module ByteSteps {
  import opened Base
  import opened Fifo
  import opened ByteSpec
  import opened ByteProofs
  import opened ByteWhole
  import opened ByteRequests
  import opened ByteSettles
  import ByteAnswers

  /** A view with elements in it, and a minimum it can hold. */
  predicate Proper(length: nat, min: nat) {
    0 < min <= length
  }

  /** The read goes to the queue: nothing is pending, and there are bytes. */
  predicate ReadsQueue(s: Stream, e: Event) {
    && e.ReadIntoCall? && s.reader.ByobReader? && s.state.Readable? && Proper(e.length, e.min)
    && s.pullIntos == [] && Total(s.queue) > 0
  }

  /** The first pending view ends within an element. */
  predicate Torn(s: Stream) {
    s.pullIntos != [] && |s.pullIntos[0].filled| % s.pullIntos[0].elementSize != 0
  }

  /** What the step fails a readable stream with, if it does. */
  function Failure(s: Stream, e: Event): Option<Reason> {
    match e
    case ErrorCall(reason) => Some(reason)
    case StartSettles(Failed(reason)) => if s.startOut then Some(reason) else None
    case PullSettles(Failed(reason)) => if s.pullsOut > 0 then Some(reason) else None
    case CloseCall => if !s.closeRequested && s.queue == [] && Torn(s) then Some(InvalidState) else None
    case ReadIntoCall(_, elementSize, min) =>
      if ReadsQueue(s, e) && s.closeRequested && Total(s.queue) < min * elementSize then Some(InvalidState) else None
    case _ => None
  }

  /** The last bytes after a close() go to this read, all of them. */
  predicate Drains(s: Stream, e: Event) {
    || (e.ReadCall? && s.reader.DefaultReader? && s.closeRequested && |s.queue| == 1)
    || (&& ReadsQueue(s, e) && s.closeRequested
        && e.min * e.elementSize <= Total(s.queue) <= e.length * e.elementSize
        && Total(s.queue) % e.elementSize == 0)
  }

  predicate Closes(s: Stream, e: Event) {
    e.CancelCall? || (e.CloseCall? && !s.closeRequested && s.queue == [] && !Torn(s)) || Drains(s, e)
  }

  ghost predicate StateFollows(s: Stream, e: Event, t: Stream) {
    if !s.state.Readable? then t.state == s.state && t.error == s.error
    else if Failure(s, e).Some? then t.state.Errored? && t.error == Failure(s, e).value
    else if Closes(s, e) then t.state.Closed?
    else t.state.Readable?
  }

  /** Reads are numbered as they come; `n` is new. */
  ghost predicate Kept(s: Stream, e: Event, t: Stream) {
    && |t.answers| == |s.answers| + (if Issues(s, e) then 1 else 0)
    && forall i :: 0 <= i < |s.answers| && !s.answers[i].Waiting? ==> t.answers[i] == s.answers[i]
  }

  predicate Issues(s: Stream, e: Event) {
    (e.ReadCall? && s.reader.DefaultReader?) || (e.ReadIntoCall? && s.reader.ByobReader?)
  }

  /** The source supplies bytes by this step: with enqueue(), or into the first pending view. */
  predicate Enqueues(s: Stream, e: Event) {
    e.EnqueueCall? && s.state.Readable? && !s.closeRequested
  }

  predicate Fills(s: Stream, e: Event) {
    && (e.RespondCall? || (e.NewViewCall? && s.pullIntos != [] && |s.pullIntos[0].filled| == e.at))
    && s.pullIntos != [] && s.state.Readable? && e.data != []
    && |s.pullIntos[0].filled| + |e.data| <= s.pullIntos[0].byteLength
  }

  /** respond(0) after a close() hands the pending views over. */
  predicate HandsOver(s: Stream, e: Event) {
    && (e.RespondCall? || (e.NewViewCall? && s.pullIntos != [] && |s.pullIntos[0].filled| == e.at))
    && s.pullIntos != [] && s.state.Closed? && e.data == [] && s.reader.ByobReader?
  }

  /** What is queued for default reads: what a released read left comes last, then the chunk. */
  function Offered(s: Stream, chunk: Bytes): seq<Entry<Bytes>> {
    s.queue
    + (if s.pullIntos != [] && s.pullIntos[0].released && s.pullIntos[0].filled != [] then
         [Entry(s.pullIntos[0].filled, |s.pullIntos[0].filled|)] else [])
    + [Entry(chunk, |chunk|)]
  }

  /** The first reads get the descriptors in `ds` as views that do not end the stream, in the
      order they were issued.  Each is the view its read asked for, with whole elements, its
      minimum at least, and all the elements that fitted or were there. */
  ghost predicate HandedOut(s: Stream, ds: seq<PullInto>, after: seq<Answer>, t: Stream) {
    && EachGets(s.answers, s.readIntos, Views(ds, false), after)
    && t.readIntos == s.readIntos[|ds|..] && t.order == s.order + s.readIntos[..|ds|]
    && SameAsked(Unreleased(s.pullIntos), ds + t.pullIntos)
    && AllComplete(ds) && AllFull(ds, |Held(t.pullIntos)| + Total(t.queue))
  }

  ghost predicate ViewsOut(s: Stream, after: seq<Answer>, t: Stream) {
    exists ds :: HandedOut(s, ds, after, t)
  }

  /** What becomes of the reads there were, so of those that wait: `after` are their answers. */
  ghost predicate WaitingFollow(s: Stream, e: Event, after: seq<Answer>, t: Stream)
    requires |after| == |s.answers|
  {
    if s.state.Readable? && Failure(s, e).Some? then
      AllGet(s.answers, s.waiters + s.readIntos, ReadFailed(Failure(s, e).value), after)
    else if s.state.Readable? && e.CancelCall? then AllGet(s.answers, s.waiters + s.readIntos, Done, after)
    else if s.state.Readable? && Closes(s, e) then AllGet(s.answers, s.waiters, Done, after)
    else if e.ReleaseCall? then AllGet(s.answers, s.waiters + s.readIntos, ReadFailed(Released), after)
    else if Enqueues(s, e) && !s.reader.ByobReader? then
      var q := Offered(s, e.chunk);
      var n := Least(|q|, |s.waiters|);
      && EachGets(s.answers, s.waiters, ChunksOf(q[..n]), after)
      && t.waiters == s.waiters[n..] && t.queue == q[n..]
    else if Enqueues(s, e) || Fills(s, e) then ViewsOut(s, after, t)
    else if HandsOver(s, e) then EachGets(s.answers, s.readIntos, Views(Unreleased(s.pullIntos), true), after)
    else after == s.answers
  }

  /** The bytes are the largest number of whole elements there is, and the first ones. */
  ghost predicate Largest(bytes: Bytes, limit: nat, elementSize: ElementSize) {
    |bytes| % elementSize == 0 && |bytes| <= limit < |bytes| + elementSize
  }

  /** The answer a new default read finds. */
  function Finds(s: Stream): Answer {
    match s.state
    case Closed => Done
    case Errored => ReadFailed(s.error)
    case Readable => if s.queue == [] then Waiting else Chunk(s.queue[0].item)
  }

  /** The answer a new BYOB read finds. */
  ghost predicate FindsInto(s: Stream, e: Event, a: Answer)
    requires e.ReadIntoCall?
  {
    if !Proper(e.length, e.min) then a == ReadFailed(InvalidState)
    else if s.state.Errored? then a == ReadFailed(s.error)
    else if s.pullIntos != [] then a == Waiting
    else if s.state.Closed? then a == View([], true)
    else if Total(s.queue) == 0 then a == Waiting
    else if Total(s.queue) >= e.min * e.elementSize then
      && a.View? && !a.done && a.bytes <= Flatten(s.queue)
      && Largest(a.bytes, Least(Total(s.queue), e.length * e.elementSize), e.elementSize)
    else a == if s.closeRequested then ReadFailed(InvalidState) else Waiting
  }

  ghost predicate NewFollows(s: Stream, e: Event, t: Stream)
    requires Kept(s, e, t)
  {
    && (e.ReadCall? && Issues(s, e) ==> t.answers[|s.answers|] == Finds(s))
    && (e.ReadIntoCall? && Issues(s, e) ==> FindsInto(s, e, t.answers[|s.answers|]))
  }

  /** What the reads asked for. */
  ghost predicate AskedFollow(s: Stream, e: Event, t: Stream) {
    t.asked ==
      if !Issues(s, e) then s.asked
      else if e.ReadIntoCall? && Proper(e.length, e.min) && !(s.state.Errored? || Failure(s, e).Some?) then
        s.asked + [Some(PullInto([], e.length * e.elementSize, e.min * e.elementSize, e.elementSize, false))]
      else s.asked + [None]
  }

  ghost predicate SuppliedFollow(s: Stream, e: Event, t: Stream) {
    t.supplied == s.supplied + (if Enqueues(s, e) then e.chunk else if Fills(s, e) then e.data else [])
  }

  /** Somebody wants bytes: a read that waits, or room in the queue. */
  predicate Demand(s: Stream) {
    && s.state.Readable? && s.started && !s.closeRequested
    && (s.waiters != [] || s.readIntos != [] || Total(s.queue) < s.highWaterMark)
  }

  /** After these the stream looks whether it has to pull. */
  predicate Prompts(s: Stream, e: Event) {
    || (e.ReadCall? && Issues(s, e))
    || (e.ReadIntoCall? && Issues(s, e) && Proper(e.length, e.min) && s.pullIntos == [])
    || Enqueues(s, e) || Fills(s, e)
    || (e.StartSettles? && s.startOut && e.r.Ok?)
    || (e.PullSettles? && s.pullsOut > 0 && e.r.Ok? && s.pullAgain)
  }

  function Left(s: Stream, e: Event): nat {
    if e.PullSettles? && s.pullsOut > 0 then s.pullsOut - 1 else s.pullsOut
  }

  /** pull() is called only on demand, and a demand is not forgotten: there is a pull in flight
      afterwards, and if that was called before, another will follow it. */
  ghost predicate PullsFollow(s: Stream, e: Event, t: Stream) {
    && t.pulls - s.pulls == t.pullsOut - Left(s, e)
    && (t.pullsOut == Left(s, e) || (t.pullsOut == Left(s, e) + 1 && Demand(t)))
    && (Prompts(s, e) && Demand(t) ==> t.pullsOut == 1 && (Left(s, e) == 1 ==> t.pullAgain))
  }

  ghost predicate Follows(s: Stream, e: Event, t: Stream) {
    && StateFollows(s, e, t) && Kept(s, e, t) && WaitingFollow(s, e, t.answers[..|s.answers|], t) && NewFollows(s, e, t)
    && AskedFollow(s, e, t) && SuppliedFollow(s, e, t) && PullsFollow(s, e, t)
    && t.reader == (if e.AcquireCall? && s.reader.NoReader? then (if e.byob then ByobReader else DefaultReader)
                    else if e.ReleaseCall? then NoReader else s.reader)
    && (t.state.Readable? ==>
          t.closeRequested == (s.closeRequested || (e.CloseCall? && s.queue != [])))
  }

  // ------------------------------------------------------------------- the ends

  /** Every waiting read is listed. */
  lemma ListedWait(s: Stream, i: nat)
    requires Reads(s) && i < |s.answers|
    ensures s.answers[i].Waiting? <==> i in s.waiters + s.readIntos
  {}

  lemma AllGetKeeps(s: Stream, ids: seq<nat>, a: Answer, after: seq<Answer>)
    requires Reads(s) && AllGet(s.answers, ids, a, after) && (forall id :: id in ids ==> id in s.waiters + s.readIntos)
    ensures forall i :: 0 <= i < |s.answers| && !s.answers[i].Waiting? ==> after[i] == s.answers[i]
  {
    forall i | 0 <= i < |s.answers| && !s.answers[i].Waiting?
      ensures after[i] == s.answers[i]
    {
      ListedWait(s, i);
    }
  }

  /** The step ends the stream for every read listed in `ids`. */
  ghost predicate Tells(s: Stream, ids: seq<nat>, a: Answer, t: Stream) {
    && Reads(s) && AllGet(s.answers, ids, a, t.answers) && (forall id :: id in ids ==> id in s.waiters + s.readIntos)
  }

  lemma TellsKeep(s: Stream, e: Event, ids: seq<nat>, a: Answer, t: Stream)
    requires Tells(s, ids, a, t) && !Issues(s, e)
    ensures Kept(s, e, t) && NewFollows(s, e, t) && t.answers[..|s.answers|] == t.answers
  {
    AllGetKeeps(s, ids, a, t.answers);
  }

  lemma FailureFollows(s: Stream, e: Event, t: Stream, reason: Reason)
    requires s.state.Readable? && Failure(s, e) == Some(reason) && !Issues(s, e)
    requires t == s.(startOut := t.startOut, pullsOut := Left(s, e), state := Errored, error := reason, queue := [],
                     pullIntos := [], waiters := [], readIntos := [], answers := t.answers)
    requires Tells(s, s.waiters + s.readIntos, ReadFailed(reason), t)
    ensures Follows(s, e, t)
  {
    TellsKeep(s, e, s.waiters + s.readIntos, ReadFailed(reason), t);
    hide Kept, NewFollows, AllGet, Reads;
    assert s.supplied + [] == s.supplied;
  }

  lemma FailedFollows(s: Stream, e: Event, u: Stream, reason: Reason)
    requires Reads(s) && s.state.Readable? && Failure(s, e) == Some(reason) && !Issues(s, e)
    requires u == s.(startOut := u.startOut, pullsOut := Left(s, e))
    ensures Follows(s, e, ErrorStream(u, reason))
  {
    ErrorStreamEffect(u, reason);
    BothGet(u.(state := Errored, error := reason, queue := [], pullIntos := []), ReadFailed(reason));
    hide Follows, Failure, SettleWaiters, SettleReadIntos;
    FailureFollows(s, e, ErrorStream(u, reason), reason);
  }

  lemma ClosedFollows(s: Stream, e: Event, t: Stream)
    requires s.state.Readable? && Failure(s, e).None? && ((e.CloseCall? && Closes(s, e)) || e.CancelCall?)
    requires t == s.(state := Closed, queue := [], pullIntos := t.pullIntos, waiters := [], readIntos := t.readIntos,
                     answers := t.answers)
    requires Tells(s, if e.CancelCall? then s.waiters + s.readIntos else s.waiters, Done, t)
    ensures Follows(s, e, t)
  {
    TellsKeep(s, e, if e.CancelCall? then s.waiters + s.readIntos else s.waiters, Done, t);
    hide Kept, NewFollows, AllGet, Reads;
    assert s.supplied + [] == s.supplied;
  }

  /** The step touches none of the reads. */
  lemma QuietFollows(s: Stream, e: Event, t: Stream)
    requires !Issues(s, e) && t.answers == s.answers && t.asked == s.asked && t.supplied == s.supplied
    requires WaitingFollow(s, e, s.answers, t) && !Enqueues(s, e) && !Fills(s, e)
    ensures Kept(s, e, t) && WaitingFollow(s, e, t.answers[..|s.answers|], t) && NewFollows(s, e, t)
    ensures AskedFollow(s, e, t) && SuppliedFollow(s, e, t)
  {
    assert t.answers[..|s.answers|] == s.answers;
    assert s.supplied + [] == s.supplied;
    hide WaitingFollow;
  }

  lemma CloseFollows(s: Stream)
    requires Inv(s)
    ensures Follows(s, CloseCall, ControllerClose(s))
  {
    if !CanCloseOrEnqueue(s) || s.queue != [] {
      QuietFollows(s, CloseCall, ControllerClose(s));
      hide Kept, WaitingFollow, NewFollows, AskedFollow, SuppliedFollow, Inv;
    } else if Torn(s) {
      FailedFollows(s, CloseCall, s, InvalidState);
    } else {
      CloseStreamKeepsInv(s);
      WaitersGet(s.(state := Closed), Done);
      hide Follows, CloseStream, Inv;
      ClosedFollows(s, CloseCall, CloseStream(s));
    }
  }

  lemma CancelFollows(s: Stream)
    requires Inv(s)
    ensures Follows(s, CancelCall, Cancel(s))
  {
    if s.state.Readable? {
      CancelEffect(s);
      BothGet(s.(state := Closed), Done);
      hide Follows, SettleWaiters, SettleReadIntos;
      ClosedFollows(s, CancelCall, Cancel(s));
    } else {
      QuietFollows(s, CancelCall, s);
      hide Kept, WaitingFollow, NewFollows, AskedFollow, SuppliedFollow, Inv;
    }
  }

  lemma ReleasedFollows(s: Stream, t: Stream)
    requires !s.reader.NoReader?
    requires t == s.(reader := NoReader, pullIntos := t.pullIntos, waiters := [], readIntos := [], answers := t.answers)
    requires Tells(s, s.waiters + s.readIntos, ReadFailed(Released), t)
    ensures Follows(s, ReleaseCall, t)
  {
    TellsKeep(s, ReleaseCall, s.waiters + s.readIntos, ReadFailed(Released), t);
    hide Kept, NewFollows, AllGet, Reads;
    assert s.supplied + [] == s.supplied;
  }

  lemma ReleaseGets(s: Stream)
    requires Reads(s) && !s.reader.NoReader?
    ensures AllGet(s.answers, s.waiters + s.readIntos, ReadFailed(Released), Release(s).answers)
  {
    var t := s.(reader := NoReader, pullIntos := OnlyReleased(s.pullIntos));
    if s.reader.ByobReader? {
      assert s.waiters + s.readIntos == s.readIntos;
      ReadIntosGet(t, ReadFailed(Released));
    } else {
      assert s.waiters + s.readIntos == s.waiters;
      WaitersGet(t, ReadFailed(Released));
    }
  }

  lemma ReleaseFollows(s: Stream)
    requires Inv(s)
    ensures Follows(s, ReleaseCall, Step(s, ReleaseCall))
  {
    if s.reader.NoReader? {
      assert s.waiters + s.readIntos == [];
      NobodyFollows(s);
    } else {
      ReleaseEffect(s);
      ReleaseGets(s);
      hide Follows, Release, Inv;
      ReleasedFollows(s, Release(s));
    }
  }

  lemma NobodyFollows(s: Stream)
    requires s.waiters == [] && s.readIntos == [] && s.reader.NoReader?
    ensures Follows(s, ReleaseCall, s)
  {
    assert AllGet(s.answers, [] + [], ReadFailed(Released), s.answers);
    QuietFollows(s, ReleaseCall, s);
    hide Kept, WaitingFollow, NewFollows, AskedFollow, SuppliedFollow;
  }

  lemma StartFollows(s: Stream, r: Settlement)
    requires Inv(s) && s.startOut
    ensures Follows(s, StartSettles(r), OnStart(s, r))
  {
    if r.Ok? || !s.state.Readable? {
      QuietFollows(s, StartSettles(r), OnStart(s, r));
      hide Kept, WaitingFollow, NewFollows, AskedFollow, SuppliedFollow, Core;
    } else {
      FailedFollows(s, StartSettles(r), s.(startOut := false), r.error);
    }
  }

  lemma PullDonePulls(s: Stream)
    requires Pulls(s) && s.pullsOut > 0 && (s.reader.NoReader? ==> s.waiters == [] && s.readIntos == [])
    ensures PullsFollow(s, PullSettles(Ok), OnPull(s, Ok))
  {}

  lemma PullDoneSame(s: Stream)
    requires s.pullsOut > 0
    ensures var t := OnPull(s, Ok);
            t == s.(pulling := t.pulling, pullAgain := t.pullAgain, pullsOut := t.pullsOut, pulls := t.pulls)
  {}

  lemma PullDoneFollows(s: Stream)
    requires Inv(s) && s.pullsOut > 0
    ensures Follows(s, PullSettles(Ok), OnPull(s, Ok))
  {
    hide Follows, PullsFollow, OnPull;
    PullDonePulls(s);
    PullDoneSame(s);
    hide Inv;
    PulledFollows(s, OnPull(s, Ok));
  }

  /** A pull that is done changes nothing but what there is to pull. */
  lemma PulledFollows(s: Stream, t: Stream)
    requires PullsFollow(s, PullSettles(Ok), t)
    requires t == s.(pulling := t.pulling, pullAgain := t.pullAgain, pullsOut := t.pullsOut, pulls := t.pulls)
    ensures Follows(s, PullSettles(Ok), t)
  {
    hide PullsFollow;
    QuietFollows(s, PullSettles(Ok), t);
    hide Kept, WaitingFollow, NewFollows, AskedFollow, SuppliedFollow;
  }

  lemma PullFollows(s: Stream, r: Settlement)
    requires Inv(s) && s.pullsOut > 0
    ensures Follows(s, PullSettles(r), OnPull(s, r))
  {
    match r
    case Ok => PullDoneFollows(s);
    case Failed(error) =>
      if s.state.Readable? {
        FailedFollows(s, PullSettles(r), s.(pullsOut := s.pullsOut - 1), error);
      } else {
        QuietFollows(s, PullSettles(r), s.(pullsOut := s.pullsOut - 1));
        hide Kept, WaitingFollow, NewFollows, AskedFollow, SuppliedFollow, Inv;
      }
  }

  // ------------------------------------------------------------------ default reads

  /** A read that leaves the others alone. */
  lemma IssuedFollows(s: Stream, e: Event, t: Stream, a: Answer)
    requires Issues(s, e) && t.answers == s.answers + [a] && t.supplied == s.supplied
    requires WaitingFollow(s, e, s.answers, t)
    requires e.ReadCall? ==> a == Finds(s)
    requires e.ReadIntoCall? ==> FindsInto(s, e, a)
    ensures Kept(s, e, t) && WaitingFollow(s, e, t.answers[..|s.answers|], t) && NewFollows(s, e, t)
    ensures SuppliedFollow(s, e, t)
  {
    assert t.answers[..|s.answers|] == s.answers;
    assert s.supplied + [] == s.supplied;
    hide WaitingFollow, FindsInto;
  }

  lemma WaitFollows(s: Stream)
    requires Pulls(s) && s.reader.DefaultReader? && s.state.Readable? && s.queue == []
    ensures Follows(s, ReadCall, Read(s))
  {
    IssuedFollows(s, ReadCall, Read(s), Waiting);
    hide Kept, WaitingFollow, NewFollows, SuppliedFollow;
  }

  lemma EndedReadFollows(s: Stream)
    requires s.reader.DefaultReader? && !s.state.Readable?
    ensures Follows(s, ReadCall, Read(s))
  {
    IssuedFollows(s, ReadCall, Read(s), Finds(s));
    hide Kept, WaitingFollow, NewFollows, SuppliedFollow;
  }

  lemma ReadFollows(s: Stream)
    requires Inv(s) && s.reader.DefaultReader?
    ensures Follows(s, ReadCall, Read(s))
  {
    hide Follows, Core;
    if !s.state.Readable? {
      EndedReadFollows(s);
    } else if s.queue == [] {
      WaitFollows(s);
    } else {
      TakeChunkFollows(s);
    }
  }

  lemma TakeChunkFollows(s: Stream)
    requires Inv(s) && s.reader.DefaultReader? && s.state.Readable? && s.queue != []
    ensures Follows(s, ReadCall, Read(s))
  {
    var t := NewRead(s.(queue := s.queue[1..]), Chunk(s.queue[0].item));
    if Drains(s, ReadCall) {
      hide Follows;
      LastChunkFollows(s, t);
    } else {
      IssuedFollows(s, ReadCall, Read(s), Finds(s));
      hide Kept, WaitingFollow, NewFollows, SuppliedFollow, Core;
    }
  }

  /** The stream closes behind this read, and for those that wait. */
  lemma LastChunkFollows(s: Stream, t: Stream)
    requires Inv(s) && s.state.Readable? && Drains(s, ReadCall)
    requires t == NewRead(s.(queue := []), Chunk(s.queue[0].item))
    ensures Follows(s, ReadCall, CloseStream(t))
  {
    TakeChunkLeaves(s, t);
    CloseStreamKeepsInv(t);
    WaitersGet(t.(state := Closed), Done);
    hide Inv, CloseStream, Follows;
    ClosedBehind(s, ReadCall, t, CloseStream(t), Chunk(s.queue[0].item));
  }

  lemma TakeChunkLeaves(s: Stream, t: Stream)
    requires Inv(s) && s.state.Readable? && Drains(s, ReadCall)
    requires t == NewRead(s.(queue := []), Chunk(s.queue[0].item))
    ensures Inv(t)
  {
    AskSettled(s.answers, s.waiters + s.readIntos, Chunk(s.queue[0].item));
    assert s.queue[1..] == [];
    TakeChunkConserves(s, t);
  }

  /** The listed reads are there. */
  lemma ListedAreReads(s: Stream)
    requires Reads(s)
    ensures forall id :: id in s.waiters ==> id < |s.answers| && s.answers[id].Waiting?
  {
    forall id | id in s.waiters
      ensures id < |s.answers| && s.answers[id].Waiting?
    {
      var k :| 0 <= k < |s.waiters| && s.waiters[k] == id;
      assert (s.waiters + s.readIntos)[k] == id;
    }
  }

  lemma ClosedBehind(s: Stream, e: Event, u: Stream, t: Stream, a: Answer)
    requires Reads(s) && s.state.Readable? && Failure(s, e).None? && Drains(s, e) && Issues(s, e)
    requires u.answers == s.answers + [a] && u.waiters == s.waiters && AllGet(u.answers, u.waiters, Done, t.answers)
    requires t == u.(state := Closed, waiters := [], answers := t.answers)
    requires u.supplied == s.supplied && u.pullsOut == s.pullsOut && u.pulls == s.pulls && u.reader == s.reader
    requires AskedFollow(s, e, u)
    requires e.ReadCall? ==> a == Finds(s)
    requires e.ReadIntoCall? ==> FindsInto(s, e, a)
    ensures Follows(s, e, t)
  {
    var after := t.answers[..|s.answers|];
    ListedAreReads(s);
    assert AllGet(s.answers, s.waiters, Done, after);
    assert t.answers[|s.answers|] == a;
    assert s.supplied + [] == s.supplied;
    assert Kept(s, e, t);
    hide AllGet, FindsInto, Reads, Drains;
  }

  // --------------------------------------------------------------------- BYOB reads

  lemma Multiple(n: nat, k: ElementSize)
    requires n % k == 0
    ensures n == (n / k) * k
  {}

  lemma NoMultipleBetween(a: nat, b: nat, k: ElementSize)
    requires a <= b < a + k && a % k == 0 && b % k == 0
    ensures a == b
  {
    Multiple(a, k);
    Multiple(b, k);
    MultiplesApart(a / k, b / k, k);
  }

  lemma MultiplesApart(p: int, q: int, k: nat)
    requires p * k <= q * k < p * k + k
    ensures p * k == q * k
  {
    if q > p {
      MulMonotone(p + 1, q, k);
    } else {
      MulMonotone(q, p, k);
    }
  }

  /** The descriptor a read asks with. */
  function Request(e: Event): PullInto
    requires e.ReadIntoCall?
  {
    PullInto([], e.length * e.elementSize, e.min * e.elementSize, e.elementSize, false)
  }

  lemma RequestUnfilled(e: Event)
    requires e.ReadIntoCall? && Proper(e.length, e.min)
    ensures Unfilled(Request(e))
  {
    MulMonotone(1, e.min, e.elementSize);
    MulMonotone(e.min, e.length, e.elementSize);
    MultipleMod(e.min, e.elementSize);
    MultipleMod(e.length, e.elementSize);
  }

  /** What filling from the queue comes to, for a read that asked with `d`. */
  ghost predicate Filled(total: nat, d: PullInto, f: Fill) {
    && (f.ready <==> d.minimumFill <= total)
    && (f.ready ==> Largest(f.desc.filled, Least(total, d.byteLength), d.elementSize))
    && (f.ready ==> (Total(f.queue) == 0 <==> total <= d.byteLength && total % d.elementSize == 0))
  }

  lemma FillIsLargest(q: seq<Entry<Bytes>>, d: PullInto)
    requires Sized(q) && Unfilled(d) && d.filled == []
    ensures Filled(Total(q), d, FillPullInto(q, d))
    ensures FillPullInto(q, d).ready ==> FillPullInto(q, d).desc.filled <= Flatten(q)
  {
    FillEffect(q, d);
    var f := FillPullInto(q, d);
    FlattenLength(q);
    FlattenLength(f.queue);
    assert [] + Flatten(q) == Flatten(q);
    hide FillPullInto;
    if f.ready {
      assert |f.desc.filled| + Total(f.queue) == Total(q);
      if Total(q) <= d.byteLength && Total(q) % d.elementSize == 0 {
        NoMultipleBetween(|f.desc.filled|, Total(q), d.elementSize);
      }
    }
  }

  lemma EnlistedFollows(s: Stream, e: Event, t: Stream)
    requires e.ReadIntoCall? && Issues(s, e) && Proper(e.length, e.min) && !s.state.Errored?
    requires FindsInto(s, e, Waiting) && Failure(s, e).None? && (s.state.Readable? ==> !Closes(s, e))
    requires t.answers == s.answers + [Waiting] && t.asked == s.asked + [Some(Request(e))]
    requires t.supplied == s.supplied && t.state == s.state && t.error == s.error && t.reader == s.reader
    requires t.closeRequested == s.closeRequested && PullsFollow(s, e, t)
    ensures Follows(s, e, t)
  {
    IssuedFollows(s, e, t, Waiting);
    hide Kept, WaitingFollow, NewFollows, SuppliedFollow, PullsFollow;
  }

  lemma CallPullPulls(s: Stream, e: Event, u: Stream)
    requires Pulls(s) && Left(s, e) == s.pullsOut
    requires u.pulling == s.pulling && u.pullAgain == s.pullAgain && u.pullsOut == s.pullsOut && u.pulls == s.pulls
    requires u.reader.NoReader? ==> u.waiters == [] && u.readIntos == []
    requires u.state.Readable? ==> s.state.Readable?
    ensures PullsFollow(s, e, CallPullIfNeeded(u))
  {}

  lemma NewWaitFollows(s: Stream, e: Event)
    requires Inv(s) && e.ReadIntoCall? && Issues(s, e) && Proper(e.length, e.min)
    requires s.pullIntos == [] && s.state.Readable? && Total(s.queue) == 0
    ensures Follows(s, e, CallPullIfNeeded(Enlist(s, Request(e), Request(e))))
  {
    RequestUnfilled(e);
    var u := Enlist(s, Request(e), Request(e));
    CallPullPulls(s, e, u);
    hide PullsFollow, Follows, Core;
    EnlistedFollows(s, e, CallPullIfNeeded(u));
  }

  lemma BehindOthersFollows(s: Stream, e: Event)
    requires Inv(s) && e.ReadIntoCall? && Issues(s, e) && Proper(e.length, e.min)
    requires s.pullIntos != [] && !s.state.Errored?
    ensures Follows(s, e, Enlist(s, Request(e), Request(e)))
  {
    hide Follows;
    EnlistedFollows(s, e, Enlist(s, Request(e), Request(e)));
  }

  lemma RefusedReadFollows(s: Stream, e: Event, a: Answer)
    requires e.ReadIntoCall? && Issues(s, e) && FindsInto(s, e, a) && a.ReadFailed?
    requires !Proper(e.length, e.min) || s.state.Errored?
    ensures Follows(s, e, NewRead(s, a))
  {
    IssuedFollows(s, e, NewRead(s, a), a);
    hide Kept, WaitingFollow, NewFollows, SuppliedFollow;
  }

  lemma EndViewFollows(s: Stream, e: Event)
    requires e.ReadIntoCall? && Issues(s, e) && Proper(e.length, e.min) && s.state.Closed? && s.pullIntos == []
    ensures Follows(s, e, NewReadInto(s, View([], true), Request(e)))
  {
    IssuedFollows(s, e, NewReadInto(s, View([], true), Request(e)), View([], true));
    hide Kept, WaitingFollow, NewFollows, SuppliedFollow;
  }

  /** A read that finds bytes queued: `f` is what the queue gave it. */
  ghost predicate Queued(s: Stream, e: Event, f: Fill) {
    && Inv(s) && ReadsQueue(s, e) && Issues(s, e) && f.missing == 0
    && Filled(Total(s.queue), Request(e), f)
    && (f.ready ==> f.desc.filled <= Flatten(s.queue))
    && (!f.ready ==> Total(f.queue) == 0)
  }

  lemma NobodyElse(s: Stream)
    requires Inv(s) && s.reader.ByobReader? && s.pullIntos == []
    ensures s.waiters == [] && s.readIntos == []
  {}

  lemma ShortFollows(s: Stream, e: Event, f: Fill)
    requires Queued(s, e, f) && !f.ready && !s.closeRequested
    ensures Follows(s, e, CallPullIfNeeded(Enlist(AfterFill(s, f), Request(e), f.desc)))
  {
    var u := Enlist(AfterFill(s, f), Request(e), f.desc);
    CallPullPulls(s, e, u);
    hide PullsFollow, Follows, Inv, Flatten;
    EnlistedFollows(s, e, CallPullIfNeeded(u));
  }

  lemma StarvedFollows(s: Stream, e: Event, f: Fill)
    requires Queued(s, e, f) && !f.ready && s.closeRequested
    ensures Follows(s, e, NewRead(ErrorStream(AfterFill(s, f), InvalidState), ReadFailed(InvalidState)))
  {
    NobodyElse(s);
    var u := ErrorStream(AfterFill(s, f), InvalidState);
    assert u == s.(state := Errored, error := InvalidState, queue := [], pullIntos := []);
    var t := NewRead(u, ReadFailed(InvalidState));
    assert AllGet(s.answers, s.waiters + s.readIntos, ReadFailed(InvalidState), s.answers);
    IssuedFollows(s, e, t, ReadFailed(InvalidState));
    hide Kept, WaitingFollow, NewFollows, SuppliedFollow, Inv, ErrorStream, Flatten;
  }

  lemma ReadyFollows(s: Stream, e: Event, f: Fill)
    requires Queued(s, e, f) && f.ready
    ensures Follows(s, e, HandleQueueDrain(NewReadInto(AfterFill(s, f), View(f.desc.filled, false), Request(e))))
  {
    NobodyElse(s);
    var a := View(f.desc.filled, false);
    var u := NewReadInto(AfterFill(s, f), a, Request(e));
    var t := HandleQueueDrain(u);
    assert Drains(s, e) <==> Total(u.queue) == 0 && u.closeRequested;
    if Drains(s, e) {
      assert t == u.(queue := [], state := Closed);
      assert AllGet(s.answers, s.waiters, Done, s.answers);
      AnsweredFollows(s, e, t, a);
    } else {
      CallPullPulls(s, e, u);
      hide PullsFollow, Follows, Inv, Flatten, CallPullIfNeeded;
      CallPullSame(u);
      AnsweredFollows(s, e, t, a);
    }
  }

  lemma CallPullSame(s: Stream)
    ensures var t := CallPullIfNeeded(s);
            t == s.(pulling := t.pulling, pullAgain := t.pullAgain, pullsOut := t.pullsOut, pulls := t.pulls)
  {}

  lemma AnsweredFollows(s: Stream, e: Event, t: Stream, a: Answer)
    requires ReadsQueue(s, e) && Issues(s, e) && FindsInto(s, e, a) && WaitingFollow(s, e, s.answers, t)
    requires t.answers == s.answers + [a] && t.asked == s.asked + [Some(Request(e))] && t.supplied == s.supplied
    requires t.reader == s.reader && t.closeRequested == s.closeRequested && Failure(s, e).None?
    requires t.state == (if Closes(s, e) then Closed else Readable) && PullsFollow(s, e, t)
    ensures Follows(s, e, t)
  {
    IssuedFollows(s, e, t, a);
    hide Kept, WaitingFollow, NewFollows, SuppliedFollow, PullsFollow, FindsInto, Closes;
  }

  lemma QueuedFollows(s: Stream, e: Event)
    requires Inv(s) && ReadsQueue(s, e)
    ensures Follows(s, e, AddPullInto(s, Request(e)))
  {
    RequestUnfilled(e);
    FillEffect(s.queue, Request(e));
    FillIsLargest(s.queue, Request(e));
    var f := FillPullInto(s.queue, Request(e));
    assert Queued(s, e, f);
    hide Inv, Queued, Follows, FillPullInto, Filled;
    if f.ready {
      ReadyFollows(s, e, f);
    } else if s.closeRequested {
      StarvedFollows(s, e, f);
    } else {
      ShortFollows(s, e, f);
    }
  }

  lemma ReadIntoFollows(s: Stream, e: Event)
    requires Inv(s) && e.ReadIntoCall? && Issues(s, e)
    ensures Follows(s, e, ReadInto(s, e.length, e.elementSize, e.min))
  {
    hide Inv, Follows, FillPullInto, Failure, CallPullIfNeeded;
    if !Proper(e.length, e.min) {
      RefusedReadFollows(s, e, ReadFailed(InvalidState));
    } else if s.state.Errored? {
      RefusedReadFollows(s, e, ReadFailed(s.error));
    } else if s.pullIntos != [] {
      BehindOthersFollows(s, e);
    } else if s.state.Closed? {
      EndViewFollows(s, e);
    } else if Total(s.queue) == 0 {
      NewWaitFollows(s, e);
    } else {
      QueuedFollows(s, e);
    }
  }

  // -------------------------------------------------------------- the source's bytes

  /** Answers given in order leave the settled ones alone. */
  lemma EachGetsKeeps(s: Stream, ids: seq<nat>, given: seq<Answer>, after: seq<Answer>)
    requires Reads(s) && EachGets(s.answers, ids, given, after)
    requires forall id :: id in ids ==> id in s.waiters + s.readIntos
    ensures forall i :: 0 <= i < |s.answers| && !s.answers[i].Waiting? ==> after[i] == s.answers[i]
  {
    forall i | 0 <= i < |s.answers| && !s.answers[i].Waiting?
      ensures after[i] == s.answers[i]
    {
      ListedWait(s, i);
      assert i !in ids[..|given|];
    }
  }

  /** `t` is the stream once `s` has its bytes: short of the pull. */
  lemma SuppliedFollows(s: Stream, e: Event, t: Stream)
    requires Enqueues(s, e) || Fills(s, e)
    requires Kept(s, e, t) && WaitingFollow(s, e, t.answers, t) && Pulls(s)
    requires SamePulls(s, t) && t.state.Readable?
    requires t.supplied == s.supplied + (if Enqueues(s, e) then e.chunk else e.data)
    requires t.reader.NoReader? ==> t.waiters == [] && t.readIntos == []
    ensures Follows(s, e, CallPullIfNeeded(t))
  {
    var u := CallPullIfNeeded(t);
    CallPullSame(t);
    CallPullPulls(s, e, t);
    assert u.answers[..|s.answers|] == t.answers;
    assert WaitingFollow(s, e, t.answers, u) by {
      SameWaiting(s, e, t.answers, t, u);
    }
    hide Kept, WaitingFollow, PullsFollow, CallPullIfNeeded;
  }

  lemma SameWaiting(s: Stream, e: Event, after: seq<Answer>, t: Stream, u: Stream)
    requires |after| == |s.answers| && WaitingFollow(s, e, after, t)
    requires u.waiters == t.waiters && u.queue == t.queue && u.readIntos == t.readIntos && u.order == t.order
    requires u.pullIntos == t.pullIntos
    ensures WaitingFollow(s, e, after, u)
  {
    hide EachGets, AllGet;
    if ViewsOut(s, after, t) {
      var ds :| HandedOut(s, ds, after, t);
      assert HandedOut(s, ds, after, u);
    }
  }

  // ----------------------------------------------------- bytes for default reads

  lemma DetachedIs(s: Stream, chunk: Bytes)
    ensures var t := Detached(s);
            && t == s.(queue := t.queue, pullIntos := Unreleased(s.pullIntos))
            && t.queue + [Entry(chunk, |chunk|)] == Offered(s, chunk)
  {
    if s.pullIntos == [] || !s.pullIntos[0].released {
      assert Unreleased(s.pullIntos) == s.pullIntos;
      assert s.queue + [] == s.queue;
    }
  }

  /** One more answer, for the read after those that have theirs. */
  lemma OneMoreGiven(before: seq<Answer>, ids: seq<nat>, given: seq<Answer>, mid: seq<Answer>, a: Answer)
    requires EachGets(before, ids, given, mid) && |given| < |ids| && NoDuplicates(ids) && ids[|given|] < |mid|
    ensures EachGets(before, ids, given + [a], mid[ids[|given|] := a])
  {
    var n := |given|;
    assert ids[..n + 1] == ids[..n] + [ids[n]];
  }

  lemma WaitersApart(s: Stream)
    requires Reads(s)
    ensures NoDuplicates(s.waiters) && (forall k :: 0 <= k < |s.waiters| ==> s.waiters[k] < |s.answers|)
    ensures NoDuplicates(s.readIntos)
  {
    var ids := s.waiters + s.readIntos;
    forall k | 0 <= k < |s.waiters|
      ensures s.waiters[k] == ids[k]
    {}
    forall k | 0 <= k < |s.readIntos|
      ensures s.readIntos[k] == ids[|s.waiters| + k]
    {}
  }

  /** What was queued goes to the waiting reads, then the chunk to the next, or to the queue. */
  lemma OfferedGets(s: Stream, t: Stream, chunk: Bytes)
    requires NoDuplicates(s.waiters) && (forall k :: 0 <= k < |s.waiters| ==> s.waiters[k] < |s.answers|)
    requires t.answers == s.answers && t.waiters == s.waiters && t.queue + [Entry(chunk, |chunk|)] == Offered(s, chunk)
    ensures var u := DrainToWaiters(t);
            var v := if u.waiters != [] then GiveToWaiter(u, chunk) else Push(u, chunk);
            var q := Offered(s, chunk);
            var n := Least(|q|, |s.waiters|);
            && EachGets(s.answers, s.waiters, ChunksOf(q[..n]), v.answers)
            && v.waiters == s.waiters[n..] && v.queue == q[n..]
  {
    hide DrainToWaiters, EachGets, NoDuplicates, Offered, ChunksOf;
    DrainGets(t);
    DrainLeaves(t);
    var u := DrainToWaiters(t);
    var q := Offered(s, chunk);
    var m := Least(|t.queue|, |s.waiters|);
    assert q[..m] == t.queue[..m];
    if u.waiters != [] {
      assert m == |t.queue| && t.queue[..m] == t.queue;
      GiveIs(u, chunk);
      assert |u.answers| == |s.answers| by {
        SameCount(s.answers, s.waiters, ChunksOf(t.queue[..m]), u.answers);
      }
      OneMoreGiven(s.answers, s.waiters, ChunksOf(t.queue), u.answers, Chunk(chunk));
      assert q[..m + 1] == q;
      OneMoreChunk(t.queue, chunk);
    }
  }

  lemma OneMoreChunk(q: seq<Entry<Bytes>>, chunk: Bytes)
    ensures ChunksOf(q + [Entry(chunk, |chunk|)]) == ChunksOf(q) + [Chunk(chunk)]
  {}

  lemma SameCount(before: seq<Answer>, ids: seq<nat>, given: seq<Answer>, after: seq<Answer>)
    requires EachGets(before, ids, given, after)
    ensures |after| == |before|
  {}

  lemma EnqueueDefaultFollows(s: Stream, chunk: Bytes)
    requires Inv(s) && Enqueues(s, EnqueueCall(chunk)) && !s.reader.ByobReader?
    ensures Follows(s, EnqueueCall(chunk), CallPullIfNeeded(EnqueueDefault(s, chunk)))
  {
    var t := EnqueueDefault(s, chunk);
    EnqueueDefaultCore(s, chunk);
    EnqueueDefaultGets(s, chunk);
    assert t.reader.NoReader? ==> t.waiters == [] && t.readIntos == [];
    assert Pulls(s);
    hide EnqueueDefault, EachGets, Follows, Core, Inv, Offered;
    SuppliedFollows(s, EnqueueCall(chunk), t);
  }

  lemma EnqueueDefaultGets(s: Stream, chunk: Bytes)
    requires Reads(s) && Enqueues(s, EnqueueCall(chunk)) && !s.reader.ByobReader?
    ensures var t := EnqueueDefault(s, chunk);
            Kept(s, EnqueueCall(chunk), t) && WaitingFollow(s, EnqueueCall(chunk), t.answers, t)
  {
    hide Offered, EachGets, Reads, Detached, DrainToWaiters, GiveToWaiter, NoDuplicates, Kept, WaitingFollow, ChunksOf;
    DetachedIs(s, chunk);
    WaitersApart(s);
    OfferedGets(s, Detached(s).(supplied := s.supplied + chunk), chunk);
    ChunksFollow(s, chunk, EnqueueDefault(s, chunk));
  }

  lemma ChunksFollow(s: Stream, chunk: Bytes, t: Stream)
    requires Reads(s) && Enqueues(s, EnqueueCall(chunk)) && !s.reader.ByobReader?
    requires var q := Offered(s, chunk);
             var n := Least(|q|, |s.waiters|);
             && EachGets(s.answers, s.waiters, ChunksOf(q[..n]), t.answers)
             && t.waiters == s.waiters[n..] && t.queue == q[n..]
    ensures Kept(s, EnqueueCall(chunk), t) && WaitingFollow(s, EnqueueCall(chunk), t.answers, t)
  {
    var q := Offered(s, chunk);
    SameCount(s.answers, s.waiters, ChunksOf(q[..Least(|q|, |s.waiters|)]), t.answers);
    EachGetsKeeps(s, s.waiters, ChunksOf(q[..Least(|q|, |s.waiters|)]), t.answers);
    hide Offered, EachGets, Reads, ChunksOf;
  }

  // ------------------------------------------------------- bytes for BYOB reads

  /** What filling the line gives. */
  ghost predicate Filling(u: Stream, p: Processed) {
    && p.faults == 0 && |p.filled| <= |u.readIntos|
    && SameAsked(u.pullIntos, p.filled + p.pullIntos)
    && AllComplete(p.filled) && AllFull(p.filled, |Held(p.pullIntos)| + Total(p.queue))
  }

  lemma ProcessFills(u: Stream)
    requires Unprocessed(u)
    ensures Filling(u, Process(u.queue, u.pullIntos))
  {
    ProcessEffect(u.queue, u.pullIntos);
    ProcessKeepsAsked(u.queue, u.pullIntos);
    hide Process, Flatten, AllFull, SameAsked, Complete;
  }

  /** Filling the line and handing over what is complete. */
  lemma ProcessHandsOut(u: Stream, p: Processed)
    requires Unprocessed(u) && p == Process(u.queue, u.pullIntos)
    ensures var t := ProcessAndCommit(u);
            && EachGets(u.answers, u.readIntos, Views(p.filled, false), t.answers)
            && t.readIntos == u.readIntos[|p.filled|..] && t.order == u.order + u.readIntos[..|p.filled|]
            && t.pullIntos == p.pullIntos && t.queue == p.queue && Filling(u, p)
  {
    ProcessFills(u);
    hide Process, EachGets, Asks, CommitAll, SameAsked, AllComplete, AllFull, Line, Sized;
    CommitsHandOut(u.(queue := p.queue, pullIntos := p.pullIntos, faults := u.faults + p.faults), p.filled);
  }

  lemma CommitsHandOut(t: Stream, ds: seq<PullInto>)
    requires t.faults == 0 && t.waiters == [] && Asks(t.answers, t.readIntos) && |ds| <= |t.readIntos|
    requires AllComplete(ds) && !t.state.Closed?
    ensures var v := CommitAll(t, ds);
            && EachGets(t.answers, t.readIntos, Views(ds, false), v.answers)
            && v.readIntos == t.readIntos[|ds|..] && v.order == t.order + t.readIntos[..|ds|]
            && v.pullIntos == t.pullIntos && v.queue == t.queue
  {
    CommitAllEffect(t, ds);
    CommitsGet(t, ds);
    CommitsOrder(t, ds);
  }

  /** The reads of `s` are handed `ds`. */
  lemma HandedOutFollows(s: Stream, e: Event, ds: seq<PullInto>, t: Stream)
    requires Reads(s) && (Enqueues(s, e) || Fills(s, e)) && (Enqueues(s, e) ==> s.reader.ByobReader?)
    requires HandedOut(s, ds, t.answers, t)
    ensures Kept(s, e, t) && WaitingFollow(s, e, t.answers, t)
  {
    EachGetsKeeps(s, s.readIntos, Views(ds, false), t.answers);
    SameCount(s.answers, s.readIntos, Views(ds, false), t.answers);
    hide EachGets, Reads, HandedOut;
  }

  /** `u` is `s` with its bytes in the queue, not yet in its descriptors. */
  lemma ProcessedFollows(s: Stream, e: Event, u: Stream)
    requires Reads(s) && (Enqueues(s, e) || Fills(s, e)) && (Enqueues(s, e) ==> s.reader.ByobReader?)
    requires Unprocessed(u) && u.pullIntos == Unreleased(s.pullIntos)
    requires u.answers == s.answers && u.readIntos == s.readIntos && u.order == s.order
    ensures var t := ProcessAndCommit(u);
            Kept(s, e, t) && WaitingFollow(s, e, t.answers, t)
  {
    hide Kept, WaitingFollow, ProcessAndCommit, Process, EachGets, Reads, Unprocessed, SameAsked, AllComplete, AllFull;
    var p := Process(u.queue, u.pullIntos);
    ProcessHandsOut(u, p);
    HandedOutFollows(s, e, p.filled, ProcessAndCommit(u));
  }

  lemma EnqueueByobFollows(s: Stream, chunk: Bytes)
    requires Inv(s) && Enqueues(s, EnqueueCall(chunk)) && s.reader.ByobReader?
    ensures Follows(s, EnqueueCall(chunk),
                    CallPullIfNeeded(ProcessAndCommit(Push(Detached(s).(supplied := s.supplied + chunk), chunk))))
  {
    EnqueueByobCore(s, chunk);
    DetachedEffect(s);
    DetachedIs(s, chunk);
    assert s.waiters + s.readIntos == s.readIntos;
    var u := Push(Detached(s).(supplied := s.supplied + chunk), chunk);
    ProcessedFollows(s, EnqueueCall(chunk), u);
    assert Pulls(s);
    hide ProcessAndCommit, Detached, Follows, Core, Inv;
    SuppliedFollows(s, EnqueueCall(chunk), ProcessAndCommit(u));
  }

  lemma NotReleased(ds: seq<PullInto>)
    requires ds == [] || !ds[0].released
    ensures Unreleased(ds) == ds
  {}

  /** The bytes are not enough for the first pending read. */
  lemma PartialFollows(s: Stream, e: Event)
    requires Inv(s) && Fills(s, e) && !s.pullIntos[0].released
    ensures var t := WithData(s, e.data); Kept(s, e, t) && WaitingFollow(s, e, t.answers, t)
  {
    var t := WithData(s, e.data);
    NotReleased(s.pullIntos);
    assert EachGets(s.answers, s.readIntos, Views([], false), t.answers);
    assert [] + t.pullIntos == t.pullIntos && SameAsked(s.pullIntos, t.pullIntos);
    assert s.order + s.readIntos[..0] == s.order;
    assert HandedOut(s, [], t.answers, t);
    hide Inv, HandedOut;
    HandedOutFollows(s, e, [], t);
  }

  /** A released descriptor's bytes, with these, go to the reads behind it. */
  lemma ReleasedBytesFollow(s: Stream, e: Event)
    requires Inv(s) && Fills(s, e) && s.pullIntos[0].released
    ensures var t := ProcessAndCommit(DetachFirst(WithData(s, e.data)));
            Kept(s, e, t) && WaitingFollow(s, e, t.answers, t)
  {
    WithDataDetached(s, e.data);
    var u := DetachFirst(WithData(s, e.data));
    assert u.pullIntos == Unreleased(s.pullIntos);
    if s.readIntos == [] {
      assert ProcessAndCommit(u) == u;
      assert EachGets(s.answers, s.readIntos, Views([], false), u.answers);
      assert [] + u.pullIntos == u.pullIntos && s.order + s.readIntos[..0] == s.order;
      assert HandedOut(s, [], u.answers, u);
      hide Inv, HandedOut, ProcessAndCommit, DetachFirst;
      HandedOutFollows(s, e, [], u);
    } else {
      WithDataUnprocessed(s, u);
      hide Inv, ProcessAndCommit, DetachFirst, Unprocessed;
      ProcessedFollows(s, e, u);
    }
  }

  lemma CompleteFirstHandsOut(s: Stream)
    requires Completing(s)
    ensures exists ds :: && EachGets(s.answers, s.readIntos, Views(ds, false), CompleteFirst(s).answers)
                         && HandedFrom(s, ds, CompleteFirst(s))
  {
    TakeFirstEffect(s);
    TakeFirstLeaves(s);
    var (t, first) := TakeFirst(s);
    ProcessEffect(t.queue, t.pullIntos);
    ProcessKeepsAsked(t.queue, t.pullIntos);
    var p := Process(t.queue, t.pullIntos);
    FlattenLength(t.queue);
    FlattenLength(p.queue);
    FirstBehind(s, t, first, p);
  }

  ghost predicate HandedFrom(s: Stream, ds: seq<PullInto>, t: Stream) {
    && |ds| <= |s.readIntos|
    && t.readIntos == s.readIntos[|ds|..] && t.order == s.order + s.readIntos[..|ds|]
    && SameAsked(s.pullIntos, ds + t.pullIntos)
    && AllComplete(ds) && AllFull(ds, |Held(t.pullIntos)| + Total(t.queue))
  }

  /** What is not whole elements is less than one. */
  lemma RestOfElement(n: nat, k: ElementSize)
    ensures 0 <= n % k < k && n % k <= n
  {}

  /** What the first descriptor does not keep is less than an element of it. */
  lemma TakeFirstLeaves(s: Stream)
    requires Completing(s)
    ensures var (t, first) := TakeFirst(s);
            && first == s.pullIntos[0].(filled := first.filled)
            && |Flatten(t.queue)| < s.pullIntos[0].elementSize
  {
    var d := s.pullIntos[0];
    RestOfElement(|d.filled|, d.elementSize);
    Requeued(s, d, |d.filled| - |d.filled| % d.elementSize);
  }

  lemma Requeued(s: Stream, d: PullInto, whole: int)
    requires s.pullIntos != [] && d == s.pullIntos[0] && Sized(s.queue) && Total(s.queue) == 0
    requires 0 <= whole <= |d.filled| < whole + d.elementSize
    requires whole == |d.filled| - |d.filled| % d.elementSize
    ensures TakeFirst(s).1 == d.(filled := d.filled[..whole])
    ensures |Flatten(TakeFirst(s).0.queue)| == |d.filled| - whole
  {
    RequeueEffect(s.queue, d.filled[whole..]);
    hide Flatten;
  }

  lemma CompleteFirstIs(s: Stream, t: Stream, first: PullInto, p: Processed)
    requires s.pullIntos != [] && (t, first) == TakeFirst(s) && p == Process(t.queue, t.pullIntos)
    ensures CompleteFirst(s) ==
              CommitAll(t.(queue := p.queue, pullIntos := p.pullIntos, faults := t.faults + p.faults),
                        [first] + p.filled)
  {
    hide TakeFirst, Process, CommitAll;
  }

  lemma FirstBehind(s: Stream, t: Stream, first: PullInto, p: Processed)
    requires Completing(s) && t == s.(pullIntos := s.pullIntos[1..], queue := t.queue)
    requires (t, first) == TakeFirst(s) && p == Process(t.queue, t.pullIntos)
    requires first == s.pullIntos[0].(filled := first.filled) && Complete(first)
    requires |Flatten(t.queue)| < s.pullIntos[0].elementSize && Processes(t.queue, t.pullIntos, p)
    requires SameAsked(t.pullIntos, p.filled + p.pullIntos) && |Flatten(p.queue)| == Total(p.queue)
    ensures exists ds :: && EachGets(s.answers, s.readIntos, Views(ds, false), CompleteFirst(s).answers)
                         && HandedFrom(s, ds, CompleteFirst(s))
  {
    hide TakeFirst, Process, CompleteFirst, EachGets, Asks, Flatten, Line, SameAsked, Complete, AllFull,
         CommitAll, Held,
         Sized, WellFormed, HandedFrom, NoneReleased, Total;
    CompleteFirstIs(s, t, first, p);
    FirstIsFull(t, first, p);
    FirstAndFilled(s.pullIntos, first, p.filled, p.pullIntos);
    HandsOutBehind(s, t.(queue := p.queue, pullIntos := p.pullIntos, faults := t.faults + p.faults),
                   [first] + p.filled);
  }

  lemma HandsOutBehind(s: Stream, u: Stream, ds: seq<PullInto>)
    requires u.faults == 0 && u.waiters == [] && u.state.Readable? && Asks(u.answers, u.readIntos)
    requires u.answers == s.answers && u.readIntos == s.readIntos && u.order == s.order
    requires |ds| <= |u.readIntos| && AllComplete(ds) && AllFull(ds, |Held(u.pullIntos)| + Total(u.queue))
    requires SameAsked(s.pullIntos, ds + u.pullIntos)
    ensures EachGets(s.answers, s.readIntos, Views(ds, false), CommitAll(u, ds).answers)
    ensures HandedFrom(s, ds, CommitAll(u, ds))
  {
    hide CommitAll, EachGets, SameAsked, AllComplete, AllFull, Asks, Total;
    CommitsHandOut(u, ds);
  }

  lemma FirstIsFull(t: Stream, first: PullInto, p: Processed)
    requires |Flatten(t.queue)| < first.elementSize && Held(t.pullIntos) == [] && Processes(t.queue, t.pullIntos, p)
    requires |Flatten(p.queue)| == Total(p.queue)
    ensures AllFull([first] + p.filled, |Held(p.pullIntos)| + Total(p.queue))
  {
    assert ([first] + p.filled)[1..] == p.filled;
    assert |ByteProofs.Fills(p.filled) + Held(p.pullIntos) + Flatten(p.queue)| == |Flatten(t.queue)|;
    hide Flatten, Line, Complete;
  }

  lemma CompleteFollows(s: Stream, e: Event)
    requires Inv(s) && Fills(s, e) && !s.pullIntos[0].released
    requires s.pullIntos[0].minimumFill <= |s.pullIntos[0].filled| + |e.data|
    ensures var t := CompleteFirst(WithData(s, e.data)); Kept(s, e, t) && WaitingFollow(s, e, t.answers, t)
  {
    var u := WithData(s, e.data);
    WithDataCompleting(s, e.data);
    CompleteFirstHandsOut(u);
    NotReleased(s.pullIntos);
    assert SameAsked(s.pullIntos, u.pullIntos);
    assert Reads(s);
    hide CompleteFirst, EachGets, Inv, AllComplete, AllFull, Completing, Reads;
    var t := CompleteFirst(u);
    var ds :| EachGets(u.answers, u.readIntos, Views(ds, false), t.answers) && HandedFrom(u, ds, t);
    assert HandedOut(s, ds, t.answers, t);
    HandedOutFollows(s, e, ds, t);
  }

  lemma FillsFollow(s: Stream, e: Event)
    requires Inv(s) && Fills(s, e)
    ensures Follows(s, e, CallPullIfNeeded(RespondInReadableState(s, e.data)))
  {
    var t := RespondInReadableState(s, e.data);
    RespondInReadableStateKeepsInv(s, e.data);
    assert t.reader.NoReader? ==> t.waiters == [] && t.readIntos == [];
    assert Pulls(s);
    hide Inv, Follows, Kept, WaitingFollow, ProcessAndCommit, CompleteFirst, CallPullIfNeeded;
    if s.pullIntos[0].released {
      ReleasedBytesFollow(s, e);
    } else if |s.pullIntos[0].filled| + |e.data| < s.pullIntos[0].minimumFill {
      PartialFollows(s, e);
    } else {
      CompleteFollows(s, e);
    }
    SuppliedFollows(s, e, t);
  }

  // ----------------------------------------------------------------- every step

  /** The pending views end the stream for their reads. */
  lemma HandsOverFollows(s: Stream, e: Event)
    requires Inv(s) && HandsOver(s, e)
    ensures Follows(s, e, RespondInClosedState(s))
  {
    var u := if s.pullIntos[0].released then s.(pullIntos := s.pullIntos[1..]) else s;
    assert u.pullIntos == Unreleased(s.pullIntos);
    if s.pullIntos[0].released {
      DropReleasedKeepsInv(s);
    }
    hide Inv, Follows, Flatten;
    PendingOverFollows(s, e, u);
  }

  lemma PendingOverFollows(s: Stream, e: Event, u: Stream)
    requires Inv(s) && HandsOver(s, e) && Inv(u) && NoneReleased(u.pullIntos)
    requires u == s.(pullIntos := Unreleased(s.pullIntos))
    ensures Follows(s, e, CommitPending(u))
  {
    PendingViews(u);
    CommitPendingIs(u);
    var v := u.(pullIntos := []);
    var t := CommitPending(u);
    WaitersApart(s);
    CommitsGet(v, u.pullIntos);
    CommitAllEffect(v, u.pullIntos);
    EachGetsKeeps(s, s.readIntos, Views(u.pullIntos, true), t.answers);
    OverFollows(s, e, u, t);
  }

  lemma OverFollows(s: Stream, e: Event, u: Stream, t: Stream)
    requires HandsOver(s, e) && u == s.(pullIntos := Unreleased(s.pullIntos))
    requires EachGets(s.answers, s.readIntos, Views(u.pullIntos, true), t.answers) && Kept(s, e, t)
    requires t == s.(pullIntos := [], readIntos := t.readIntos, answers := t.answers, order := t.order,
                     delivered := t.delivered)
    ensures Follows(s, e, t)
  {
    assert t.answers[..|s.answers|] == t.answers;
    assert s.supplied + [] == s.supplied;
    hide EachGets, Kept;
  }

  /** A call that is refused, or comes when nobody waits for it. */
  lemma NothingFollows(s: Stream, e: Event, t: Stream)
    requires !Issues(s, e) && t == s.(reader := t.reader, pullIntos := t.pullIntos)
    requires t.reader == if e.AcquireCall? && s.reader.NoReader? then (if e.byob then ByobReader else DefaultReader)
                         else s.reader
    requires match e
             case AcquireCall(_) => true
             case ReadCall => true
             case ReadIntoCall(_, _, _) => true
             case EnqueueCall(_) => !Enqueues(s, e)
             case RespondCall(_) => !Fills(s, e) && !HandsOver(s, e)
             case NewViewCall(_, _) => !Fills(s, e) && !HandsOver(s, e)
             case ErrorCall(_) => !s.state.Readable?
             case StartSettles(_) => !s.startOut
             case PullSettles(_) => s.pullsOut == 0
             case _ => false
    ensures Follows(s, e, t)
  {
    QuietFollows(s, e, t);
    hide Kept, WaitingFollow, NewFollows, AskedFollow, SuppliedFollow;
  }

  lemma EnqueueFollows(s: Stream, chunk: Bytes)
    requires Inv(s)
    ensures Follows(s, EnqueueCall(chunk), ControllerEnqueue(s, chunk))
  {
    hide Inv, Follows, ProcessAndCommit, DrainToWaiters, GiveToWaiter, CallPullIfNeeded, EnqueueDefault;
    if !Enqueues(s, EnqueueCall(chunk)) {
      NothingFollows(s, EnqueueCall(chunk), s);
    } else {
      ByteAnswers.EnqueueIs(s, chunk);
      if s.reader.ByobReader? {
        EnqueueByobFollows(s, chunk);
      } else {
        EnqueueDefaultFollows(s, chunk);
      }
    }
  }

  lemma RespondFollows(s: Stream, e: Event, data: Bytes)
    requires Inv(s) && (e == RespondCall(data) || (e.NewViewCall? && e.data == data))
    ensures Follows(s, e, if e.NewViewCall? then RespondWithNewView(s, e.at, data) else Respond(s, data))
  {
    hide Follows, CommitPending, RespondInReadableState, CallPullIfNeeded, Fills, HandsOver;
    assert s.state.Errored? ==> s.pullIntos == [];
    hide Inv;
    var t := if e.NewViewCall? then RespondWithNewView(s, e.at, data) else Respond(s, data);
    RespondIs(s, e, data, t);
    if Fills(s, e) {
      FillsFollow(s, e);
    } else if HandsOver(s, e) {
      HandsOverFollows(s, e);
    } else {
      NothingFollows(s, e, t);
    }
  }

  /** What a response comes to: bytes counted, views handed over, or nothing. */
  lemma RespondIs(s: Stream, e: Event, data: Bytes, t: Stream)
    requires e == RespondCall(data) || (e.NewViewCall? && e.data == data)
    requires s.state.Errored? ==> s.pullIntos == []
    requires t == if e.NewViewCall? then RespondWithNewView(s, e.at, data) else Respond(s, data)
    ensures Fills(s, e) ==> t == CallPullIfNeeded(RespondInReadableState(s, data))
    ensures !Fills(s, e) && HandsOver(s, e) ==> t == RespondInClosedState(s)
    ensures !Fills(s, e) && !HandsOver(s, e) ==> t == s.(pullIntos := t.pullIntos)
  {
    hide CommitPending, RespondInReadableState, CallPullIfNeeded;
  }

  lemma ErrorFollows(s: Stream, reason: Reason)
    requires Inv(s)
    ensures Follows(s, ErrorCall(reason), ErrorStream(s, reason))
  {
    hide Follows, SettleReadIntos, SettleWaiters;
    if s.state.Readable? {
      FailedFollows(s, ErrorCall(reason), s, reason);
    } else {
      NothingFollows(s, ErrorCall(reason), s);
    }
  }

  /** Every step, from every state that keeps the invariant. */
  lemma StepFollows(s: Stream, e: Event)
    requires Inv(s)
    ensures Follows(s, e, Step(s, e))
  {
    hide Inv, Follows, Release, Read, ReadInto, Cancel, ControllerEnqueue, Respond, ControllerClose,
         ErrorStream, OnStart, OnPull;
    match e
    case AcquireCall(byob) => NothingFollows(s, e, Step(s, e));
    case ReleaseCall => ReleaseFollows(s);
    case ReadCall => if s.reader.DefaultReader? { ReadFollows(s); } else { NothingFollows(s, e, s); }
    case ReadIntoCall(_, _, _) =>
      if s.reader.ByobReader? { ReadIntoFollows(s, e); } else { NothingFollows(s, e, s); }
    case CancelCall => CancelFollows(s);
    case EnqueueCall(chunk) => EnqueueFollows(s, chunk);
    case RespondCall(data) => RespondFollows(s, e, data);
    case NewViewCall(_, data) => RespondFollows(s, e, data);
    case CloseCall => CloseFollows(s);
    case ErrorCall(reason) => ErrorFollows(s, reason);
    case StartSettles(r) => if s.startOut { StartFollows(s, r); } else { NothingFollows(s, e, s); }
    case PullSettles(r) => if s.pullsOut > 0 { PullFollows(s, r); } else { NothingFollows(s, e, s); }
  }

  // ------------------------------------------------------------------ every run

  /** A read that was told the end is one of a closed stream; one that failed did so for the
      stream's error, because its reader was released, or because it asked for an impossible view. */
  ghost predicate IsTrue(s: Stream, a: Answer) {
    && (a.Done? || (a.View? && a.done) ==> s.state.Closed?)
    && (a.ReadFailed? ==>
          a.reason == Released || a.reason == InvalidState || (s.state.Errored? && a.reason == s.error))
  }

  ghost predicate Truthful(s: Stream) {
    forall i :: 0 <= i < |s.answers| ==> IsTrue(s, s.answers[i])
  }

  /** What a waiting read is answered with is true. */
  lemma AnsweredTrue(s: Stream, e: Event, after: seq<Answer>, t: Stream, i: nat)
    requires |after| == |s.answers| && i < |after| && s.answers[i].Waiting?
    requires WaitingFollow(s, e, after, t) && StateFollows(s, e, t)
    ensures IsTrue(t, after[i])
  {
    if s.state.Readable? && (Failure(s, e).Some? || Closes(s, e)) {
    } else if e.ReleaseCall? {
    } else if Enqueues(s, e) && !s.reader.ByobReader? {
      var q := Offered(s, e.chunk);
      GivenTrue(s.answers, s.waiters, ChunksOf(q[..Least(|q|, |s.waiters|)]), after, t, i);
    } else if Enqueues(s, e) || Fills(s, e) {
      var ds :| HandedOut(s, ds, after, t);
      GivenTrue(s.answers, s.readIntos, Views(ds, false), after, t, i);
    } else if HandsOver(s, e) {
      GivenTrue(s.answers, s.readIntos, Views(Unreleased(s.pullIntos), true), after, t, i);
    }
  }

  lemma GivenTrue(before: seq<Answer>, ids: seq<nat>, given: seq<Answer>, after: seq<Answer>, t: Stream, i: nat)
    requires EachGets(before, ids, given, after) && i < |before| && before[i].Waiting?
    requires forall k :: 0 <= k < |given| ==> IsTrue(t, given[k])
    ensures IsTrue(t, after[i])
  {
    if i in ids[..|given|] {
      var k :| 0 <= k < |given| && ids[..|given|][k] == i;
      assert after[ids[k]] == given[k];
    }
  }

  lemma FollowsTruthful(s: Stream, e: Event, t: Stream)
    requires Truthful(s) && Follows(s, e, t)
    ensures Truthful(t)
  {
    var after := t.answers[..|s.answers|];
    forall i | 0 <= i < |t.answers|
      ensures IsTrue(t, t.answers[i])
    {
      if i < |s.answers| {
        assert t.answers[i] == after[i];
        if s.answers[i].Waiting? {
          AnsweredTrue(s, e, after, t, i);
        } else {
          assert IsTrue(s, s.answers[i]);
        }
      }
    }
  }

  lemma StepTruthful(s: Stream, e: Event)
    requires Inv(s) && Truthful(s)
    ensures Truthful(Step(s, e))
  {
    StepFollows(s, e);
    hide Step, Inv;
    FollowsTruthful(s, e, Step(s, e));
  }

  lemma {:induction false} RunTruthful(highWaterMark: nat, events: seq<Event>)
    ensures Truthful(Run(Init(highWaterMark), events))
    decreases |events|
  {
    if events != [] {
      RunTruthful(highWaterMark, events[..|events| - 1]);
      RunKeepsInv(highWaterMark, events[..|events| - 1]);
      StepTruthful(Run(Init(highWaterMark), events[..|events| - 1]), events[|events| - 1]);
    }
  }

  lemma AnswersAreTrue(s: Stream)
    requires Reachable(s)
    ensures Truthful(s)
  {
    var highWaterMark: nat, events: seq<Event> :| s == Run(Init(highWaterMark), events);
    RunTruthful(highWaterMark, events);
  }
}
