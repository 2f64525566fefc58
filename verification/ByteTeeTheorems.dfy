/** The byte tee over every run: any interleaving of what the users of the two branches do,
    what the source does, and the microtasks and error callbacks of the tee itself. */
module ByteTeeTheorems {
  import opened Base
  import opened ByteSpec
  import opened ByteProofs
  import opened ByteRequests
  import opened ByteEnds
  import opened BytePromises
  import opened ByteTeeSpec
  import opened ByteTeeProofs

  // ------------------------------------------------------------- the invariant

  /** The branch was not cancelled and has not errored. */
  predicate Fine(t: Tee, second: bool) {
    !Canceled(t, second) && !Branch(t, second).state.Errored?
  }

  /** What was read from the source and not forwarded yet. */
  function InTransit(p: Phase): Bytes {
    if p.Scheduled? then p.chunk else []
  }

  ghost predicate AllGood(t: Tee) {
    Good(t.source) && Good(t.branch1) && Good(t.branch2) && !t.source.reader.NoReader?
  }

  /** The tee's read `id` was made through the source's reader, as its kind says. */
  ghost predicate MadeAs(s: Stream, kind: Kind, id: nat) {
    && id < |s.asked|
    && match kind
       case ViaDefault => s.reader.DefaultReader? && s.asked[id].None?
       case ViaByob(_, _) => s.reader.ByobReader? && s.asked[id].Some? && s.asked[id].value.minimumFill == 1
  }

  /** At most one source read is outstanding, the tee's own. */
  ghost predicate OneRead(t: Tee) {
    && (!t.reading ==> t.phase.Idle?)
    && (if t.phase.Outstanding? then Waits(t.source) == [t.phase.id] && MadeAs(t.source, t.phase.kind, t.phase.id)
        else Waits(t.source) == [])
  }

  /** A branch that has failed did so with the error of the source, or could not close. */
  predicate FailsWith(t: Tee, second: bool) {
    var b := Branch(t, second);
    b.state.Errored? ==> b.error == InvalidState || (t.source.state.Errored? && b.error == t.source.error)
  }

  /** What the branch accepted, then `extra`, is what the source delivered since it was teed;
      what a branch accepted until it was cancelled or failed is a prefix of that. */
  ghost predicate LevelOf(t: Tee, second: bool, extra: Bytes) {
    && FailsWith(t, second)
    && if Fine(t, second) then t.before + Branch(t, second).supplied + extra == t.source.delivered
       else t.before + Branch(t, second).supplied <= t.source.delivered
  }

  ghost predicate Level(t: Tee, extra: Bytes) {
    LevelOf(t, false, extra) && LevelOf(t, true, extra)
  }

  /** The branches close together, but for a cancelled one, which is closed, and one that could
      not close and has failed. */
  ghost predicate OpenTogether(t: Tee) {
    && (Open(t.branch1) ==> !t.canceled1 && (Open(t.branch2) || !Fine(t, true)))
    && (Open(t.branch2) ==> !t.canceled2 && (Open(t.branch1) || !Fine(t, false)))
  }

  /** One branch has failed while the other is still open. */
  predicate Split(t: Tee) {
    || (Open(t.branch1) && !t.canceled2 && t.branch2.state.Errored?)
    || (Open(t.branch2) && !t.canceled1 && t.branch1.state.Errored?)
  }

  /** That happens only once there is nothing more to read. */
  ghost predicate SplitAtEnd(t: Tee) {
    Split(t) ==> !t.source.state.Readable? && !t.phase.Scheduled?
  }

  /** Both branches are open, but for what was cancelled or has failed. */
  ghost predicate AllOpen(t: Tee) {
    (Fine(t, false) ==> Open(t.branch1)) && (Fine(t, true) ==> Open(t.branch2))
  }

  /** The branches do not close while a read is under way. */
  ghost predicate Busy(t: Tee) {
    !t.phase.Idle? ==> AllOpen(t)
  }

  /** A read into a branch's view is a read into that branch's first pending view. */
  ghost predicate Viewing(t: Tee) {
    !t.phase.Idle? && t.phase.kind.ViaByob? && Fine(t, t.phase.kind.second) ==>
      var b := Branch(t, t.phase.kind.second);
      && b.pullIntos != [] && |b.pullIntos[0].filled| == t.phase.kind.at
      && (t.phase.Outstanding? ==>
            t.phase.id < |t.source.asked| && t.source.asked[t.phase.id] == Some(Room(b.pullIntos[0])))
      && (t.phase.Scheduled? ==>
            0 < |t.phase.chunk| && t.phase.kind.at + |t.phase.chunk| <= b.pullIntos[0].byteLength)
  }

  ghost predicate TeeInv(t: Tee) {
    && AllGood(t) && OneRead(t) && Level(t, InTransit(t.phase))
    && OpenTogether(t) && SplitAtEnd(t) && Busy(t) && Viewing(t)
  }

  /** A branch that accepted nothing more stays level, even if it is cancelled or fails. */
  lemma LevelKept(t: Tee, u: Tee, second: bool, extra: Bytes)
    requires LevelOf(t, second, extra) && (Fine(u, second) ==> Fine(t, second))
    requires u.before == t.before && u.source.delivered == t.source.delivered && KeepsError(t.source, u.source)
    requires Branch(u, second).supplied == Branch(t, second).supplied && Mild(Branch(t, second), Branch(u, second))
    ensures LevelOf(u, second, extra)
  {}

  lemma LevelGrows(t: Tee, s: Stream, bytes: Bytes)
    requires Level(t, []) && s.delivered == t.source.delivered + bytes && KeepsError(t.source, s)
    ensures Level(t.(source := s), bytes)
  {
    LevelGrowsOf(t, s, bytes, false);
    LevelGrowsOf(t, s, bytes, true);
  }

  lemma LevelGrowsOf(t: Tee, s: Stream, bytes: Bytes, second: bool)
    requires LevelOf(t, second, []) && s.delivered == t.source.delivered + bytes && KeepsError(t.source, s)
    ensures LevelOf(t.(source := s), second, bytes)
  {
    var a := t.before + Branch(t, second).supplied;
    assert a + [] == a;
    assert a <= t.source.delivered + bytes;
  }

  // ---------------------------------------------------------- the source is done

  /** The tee is done with its source, and the branches may still have to be told. */
  ghost predicate Ending(t: Tee) {
    && AllGood(t) && Waits(t.source) == [] && t.phase.Idle? && Level(t, []) && OpenTogether(t)
    && !t.source.state.Readable?
  }

  ghost predicate BothClosed(t: Tee) {
    && AllGood(t) && Waits(t.source) == [] && t.phase.Idle? && Level(t, [])
    && !Open(t.branch1) && !Open(t.branch2)
  }

  lemma EndingInv(t: Tee)
    requires Ending(t) || BothClosed(t)
    ensures TeeInv(t)
  {}

  /** A branch the tee closes, or that cancelling has closed. */
  ghost predicate ClosesTo(t: Tee, u: Tee, second: bool) {
    && u == SetBranch(t, second, Branch(u, second))
    && Good(Branch(u, second)) && !Open(Branch(u, second))
    && Branch(u, second).supplied == Branch(t, second).supplied && Mild(Branch(t, second), Branch(u, second))
    && (Fine(u, second) ==> Fine(t, second))
  }

  lemma CloseBranchCloses(t: Tee, second: bool)
    requires AllGood(t) && (Canceled(t, second) ==> !Open(Branch(t, second)))
    ensures ClosesTo(t, CloseBranch(t, second), second)
    ensures CloseThrows(t, second) ==> Branch(CloseBranch(t, second), second).state.Errored?
  {
    CloseLeaf(Branch(t, second));
    if CloseThrows(t, second) {
      PartialFails(Branch(t, second));
    }
  }

  lemma PartialFails(b: Stream)
    requires Good(b) && CanCloseOrEnqueue(b) && b.queue == []
    requires b.pullIntos != [] && |b.pullIntos[0].filled| % b.pullIntos[0].elementSize != 0
    ensures ControllerClose(b).state.Errored?
  {
    ErrorLeaf(b, InvalidState);
  }

  lemma ClosedBoth(t: Tee, u: Tee, v: Tee, second: bool)
    requires Ending(t) && ClosesTo(t, u, second) && ClosesTo(u, v, !second)
    ensures BothClosed(v)
  {
    LevelKept(t, v, false, []);
    LevelKept(t, v, true, []);
  }

  /** The other branch stays open if it was: the one that failed does not count. */
  lemma FailedEnding(t: Tee, u: Tee, second: bool)
    requires Ending(t) && ClosesTo(t, u, second) && Branch(u, second).state.Errored?
    ensures Ending(u)
  {
    LevelKept(t, u, false, []);
    LevelKept(t, u, true, []);
  }

  lemma CloseBothEnds(t: Tee, first: bool)
    requires Ending(t)
    ensures if CloseThrows(t, first) then Ending(CloseBoth(t, first)) else BothClosed(CloseBoth(t, first))
  {
    CloseBranchCloses(t, first);
    var u := CloseBranch(t, first);
    if CloseThrows(t, first) {
      FailedEnding(t, u, first);
    } else {
      CloseBranchCloses(u, !first);
      ClosedBoth(t, u, CloseBranch(u, !first), first);
    }
  }

  lemma StillClosed(t: Tee, second: bool, c: Stream)
    requires BothClosed(t) && Told(Branch(t, second), c, []) && !Open(c)
    ensures BothClosed(SetBranch(t, second, c))
  {
    LevelKept(t, SetBranch(t, second, c), false, []);
    LevelKept(t, SetBranch(t, second, c), true, []);
  }

  lemma EndBranchStays(t: Tee, second: bool)
    requires BothClosed(t)
    ensures BothClosed(EndBranch(t, second))
  {
    RespondEmptyLeaf(Branch(t, second));
    StillClosed(t, second, Respond(Branch(t, second), []));
  }

  lemma EndDefaultInv(t: Tee)
    requires Ending(t)
    ensures TeeInv(EndDefault(t))
  {
    CloseBothEnds(t, false);
    var u := CloseBoth(t, false);
    hide CloseBoth, EndBranch, Ending, BothClosed, TeeInv;
    EndingInv(u);
    if !CloseBothThrows(t, false) && !EndThrows(u.branch1) {
      EndBranchStays(u, false);
      EndBranchStays(EndBranch(u, false), true);
      EndingInv(EndDefault(t));
    }
  }

  lemma LastViewStays(t: Tee, second: bool, at: nat)
    requires BothClosed(t)
    ensures BothClosed(SetBranch(t, second, RespondWithNewView(Branch(t, second), at, [])))
  {
    NewViewLeaf(Branch(t, second), at, []);
    StillClosed(t, second, RespondWithNewView(Branch(t, second), at, []));
  }

  lemma EndByobInv(t: Tee, second: bool, at: nat, view: Option<Bytes>)
    requires Ending(t) && (view.Some? ==> view.value == [])
    ensures TeeInv(EndByob(t, second, at, view))
  {
    CloseBothEnds(t, second);
    var u := CloseBoth(t, second);
    hide CloseBoth, EndBranch, Ending, BothClosed, TeeInv;
    EndingInv(u);
    if !CloseBothThrows(t, second) && view.Some? {
      LastViewStays(u, second, at);
      var v := if Canceled(u, second) then u
               else SetBranch(u, second, RespondWithNewView(Branch(u, second), at, view.value));
      EndingInv(v);
      EndBranchStays(v, !second);
      EndingInv(EndBranch(v, !second));
    }
  }

  // ----------------------------------------------------------------------- polling

  /** The invariant when the outstanding read may have been answered without the tee having
      noticed yet. */
  ghost predicate Polling(t: Tee) {
    && AllGood(t) && t.phase.Outstanding? && t.reading
    && MadeAs(t.source, t.phase.kind, t.phase.id)
    && t.phase.id < |t.source.answers|
    && Waits(t.source) == (if t.source.answers[t.phase.id].Waiting? then [t.phase.id] else [])
    && Fits(t.source.answers[t.phase.id], t.source.asked[t.phase.id])
    && Level(t, Carried(t.source.answers[t.phase.id]))
    && OpenTogether(t) && Busy(t) && Viewing(t)
    && (Ends(t.source.answers[t.phase.id]) || t.source.answers[t.phase.id].ReadFailed? ==> !t.source.state.Readable?)
    && (Split(t) ==> !t.source.state.Readable? && !Feeds(t.source.answers[t.phase.id]))
  }

  lemma ScheduleInv(t: Tee, bytes: Bytes)
    requires Polling(t)
    requires t.source.answers[t.phase.id] == Chunk(bytes) || t.source.answers[t.phase.id] == View(bytes, false)
    ensures TeeInv(t.(phase := Scheduled(t.phase.kind, bytes)))
  {}

  lemma FinishEnding(t: Tee)
    requires Polling(t) && Ends(t.source.answers[t.phase.id]) && Carried(t.source.answers[t.phase.id]) == []
    ensures Ending(Finish(t))
  {}

  lemma EndInv(t: Tee, view: Option<Bytes>)
    requires Polling(t) && Ends(t.source.answers[t.phase.id]) && Carried(t.source.answers[t.phase.id]) == []
    requires view.Some? ==> view.value == [] && t.phase.kind.ViaByob?
    ensures if t.phase.kind.ViaByob? then TeeInv(EndByob(Finish(t), t.phase.kind.second, t.phase.kind.at, view))
            else TeeInv(EndDefault(Finish(t)))
  {
    FinishEnding(t);
    match t.phase.kind
    case ViaDefault => EndDefaultInv(Finish(t));
    case ViaByob(second, at) => EndByobInv(Finish(t), second, at, view);
  }

  lemma PollInv(t: Tee)
    requires Polling(t)
    ensures TeeInv(Poll(t))
  {
    hide EndByob, EndDefault, Level, AllGood, OpenTogether, Viewing, Busy;
    match t.source.answers[t.phase.id]
    case Waiting =>
    case Chunk(bytes) => ScheduleInv(t, bytes);
    case View(bytes, done) =>
      if !done {
        ScheduleInv(t, bytes);
      } else {
        EndInv(t, Some(bytes));
      }
    case Done => EndInv(t, None);
    case ReadFailed(_) => FinishEndingInv(t);
  }

  lemma FinishEndingInv(t: Tee)
    requires Polling(t) && t.source.answers[t.phase.id].ReadFailed?
    ensures TeeInv(Finish(t))
  {}

  // ----------------------------------------------------------------------- pulling

  /** A tee that is about to read its source. */
  ghost predicate Ready(t: Tee) {
    && AllGood(t) && Waits(t.source) == [] && t.phase.Idle? && t.reading
    && Level(t, []) && OpenTogether(t) && AllOpen(t)
    && (Split(t) ==> !t.source.state.Readable?)
  }

  lemma IssuedPolling(t: Tee, s: Stream, u: Stream, kind: Kind, ask: Option<PullInto>)
    requires Ready(t) && Good(u) && Issued(s, u, ask) && !u.reader.NoReader?
    requires |s.asked| == |s.answers| && s.delivered == t.source.delivered
    requires s.state == t.source.state && s.error == t.source.error
    requires MadeAs(u, kind, |s.answers|)
    requires kind.ViaByob? ==>
               var b := Branch(t, kind.second);
               b.pullIntos != [] && |b.pullIntos[0].filled| == kind.at && ask == Some(Room(b.pullIntos[0]))
    ensures Polling(t.(source := u, phase := Outstanding(kind, |s.answers|)))
  {
    LevelGrows(t, u, Carried(u.answers[|s.answers|]));
    IssuedLevel(t, u, Outstanding(kind, |s.answers|), Carried(u.answers[|s.answers|]));
    hide Good, Fits, Level;
  }

  lemma IssuedLevel(t: Tee, u: Stream, phase: Phase, extra: Bytes)
    requires Level(t.(source := u), extra)
    ensures Level(t.(source := u, phase := phase), extra)
  {}

  lemma DefaultPolling(t: Tee)
    requires Ready(t)
    ensures var s := SwapTo(t.source, DefaultReader);
            Polling(t.(source := Read(s), phase := Outstanding(ViaDefault, |s.answers|)))
  {
    SwapLeaf(t.source, DefaultReader);
    var s := SwapTo(t.source, DefaultReader);
    hide SwapTo, Poll, Read, Level, AllOpen;
    ReadLeaf(s);
    IssuedPolling(t, s, Read(s), ViaDefault, None);
  }

  lemma PullDefaultInv(t: Tee)
    requires Ready(t)
    ensures TeeInv(PullWithDefaultReader(t))
  {
    DefaultPolling(t);
    var s := SwapTo(t.source, DefaultReader);
    hide SwapTo, Poll, Read, Ready, Polling;
    PollInv(t.(source := Read(s), phase := Outstanding(ViaDefault, |s.answers|)));
  }

  lemma ByobPolling(t: Tee, second: bool, d: PullInto, s: Stream)
    requires Ready(t) && |d.filled| < d.byteLength && s == SwapTo(t.source, ByobReader) && !s.state.Errored?
    requires Branch(t, second).pullIntos != [] && Branch(t, second).pullIntos[0] == d
    ensures Polling(t.(source := AddPullInto(s, Room(d)),
                       phase := Outstanding(ViaByob(second, |d.filled|), |s.answers|)))
  {
    hide Good, Poll, AddPullInto, SwapTo, Level, AllOpen, OpenTogether, Split, Polling, Fits, Waits;
    SwapLeaf(t.source, ByobReader);
    AsksMatchAnswers(s);
    PullIntoLeaf(s, Room(d));
    IssuedPolling(t, s, AddPullInto(s, Room(d)), ViaByob(second, |d.filled|), Some(Room(d)));
  }

  lemma PullByobInv(t: Tee, second: bool, d: PullInto)
    requires Ready(t) && |d.filled| < d.byteLength
    requires Branch(t, second).pullIntos != [] && Branch(t, second).pullIntos[0] == d
    ensures TeeInv(PullWithByobReader(t, second, d))
  {
    SwapLeaf(t.source, ByobReader);
    var s := SwapTo(t.source, ByobReader);
    if s.state.Errored? {
      RefusedInv(t, s);
    } else {
      ByobPolling(t, second, d, s);
      hide SwapTo, Poll, AddPullInto, Ready, Polling;
      PollInv(t.(source := AddPullInto(s, Room(d)), phase := Outstanding(ViaByob(second, |d.filled|), |s.answers|)));
    }
  }

  lemma AsksMatchAnswers(s: Stream)
    requires Good(s)
    ensures |s.asked| == |s.answers|
  {
    Unseal(s);
  }

  lemma RefusedInv(t: Tee, s: Stream)
    requires Ready(t) && Good(s) && !s.reader.NoReader? && Waits(s) == [] && s.delivered == t.source.delivered
    requires s.state == t.source.state && s.error == t.source.error
    ensures TeeInv(t.(source := s, reading := false))
  {
    LevelGrows(t, s, []);
  }

  lemma FirstHasRoom(b: Stream)
    requires Good(b) && b.pullIntos != []
    ensures |b.pullIntos[0].filled| < b.pullIntos[0].byteLength
  {
    Unseal(b);
  }

  lemma ReadyToRead(t: Tee)
    requires TeeInv(t) && !t.reading && AllOpen(t)
    ensures Ready(t.(reading := true))
  {}

  lemma AgainInv(t: Tee, second: bool)
    requires TeeInv(t)
    ensures TeeInv(if second then t.(again2 := true) else t.(again1 := true))
  {
    var u := if second then t.(again2 := true) else t.(again1 := true);
    LevelKept(t, u, false, InTransit(t.phase));
    LevelKept(t, u, true, InTransit(t.phase));
  }

  lemma BranchGood(t: Tee, second: bool)
    requires TeeInv(t)
    ensures Good(Branch(t, second))
  {}

  lemma PullInv(t: Tee, second: bool)
    requires TeeInv(t) && (!t.reading ==> AllOpen(t))
    ensures TeeInv(Pull(t, second))
  {
    hide PullWithDefaultReader, PullWithByobReader, TeeInv, AllOpen;
    if t.reading {
      AgainInv(t, second);
    } else {
      var u := t.(reading := true);
      ReadyToRead(t);
      var b := Branch(t, second);
      if b.pullIntos == [] {
        PullDefaultInv(u);
      } else {
        BranchGood(t, second);
        FirstHasRoom(b);
        PullByobInv(u, second, b.pullIntos[0]);
      }
    }
  }

  // ------------------------------------------------------------- the microtask

  /** Tees that differ only in the requests to read again. */
  predicate SameButAgain(t: Tee, u: Tee) {
    u == t.(again1 := u.again1, again2 := u.again2)
  }

  lemma FeedEffect(t: Tee, second: bool, chunk: Bytes)
    requires AllGood(t) && t.reading
    ensures var u := Feed(t, second, chunk);
            var c := Branch(u, second);
            && AllGood(u) && SameButAgain(SetBranch(t, second, c), u)
            && (Branch(t, second).state.Errored? ==> c.state.Errored?) && Mild(Branch(t, second), c)
            && (!Canceled(t, second) && Open(Branch(t, second)) ==>
                  c.supplied == Branch(t, second).supplied + chunk && Open(c))
            && (Canceled(t, second) || !Open(Branch(t, second)) ==> c == Branch(t, second))
  {
    EnqueueLeaf(Branch(t, second), chunk);
  }

  lemma AnswerViewEffect(t: Tee, second: bool, at: nat, chunk: Bytes)
    requires AllGood(t) && t.reading
    ensures var u := AnswerView(t, second, at, chunk);
            var c := Branch(u, second);
            && AllGood(u) && SameButAgain(SetBranch(t, second, c), u)
            && (Branch(t, second).state.Errored? ==> c.state.Errored?) && Mild(Branch(t, second), c)
            && (!Canceled(t, second) && Open(Branch(t, second)) && !NewViewThrows(Branch(t, second), at, chunk) ==>
                  c.supplied == Branch(t, second).supplied + chunk && Open(c))
            && (Canceled(t, second) ==> c == Branch(t, second))
  {
    NewViewLeaf(Branch(t, second), at, chunk);
  }

  lemma ReadAgainInv(t: Tee)
    requires TeeInv(t) && (!t.reading ==> AllOpen(t))
    ensures TeeInv(ReadAgain(t))
  {
    if t.again1 {
      PullInv(t, false);
    } else if t.again2 {
      PullInv(t, true);
    }
  }

  /** The branch has got the chunk, or takes none any more. */
  ghost predicate Got(t: Tee, u: Tee, second: bool, chunk: Bytes) {
    && (Canceled(u, second) <==> Canceled(t, second)) && Mild(Branch(t, second), Branch(u, second))
    && if Fine(t, second) then
         Branch(u, second).supplied == Branch(t, second).supplied + chunk && Open(Branch(u, second))
       else Branch(u, second) == Branch(t, second)
  }

  lemma GotLevel(t: Tee, u: Tee, second: bool, chunk: Bytes)
    requires LevelOf(t, second, chunk) && Got(t, u, second, chunk)
    requires u.source == t.source && u.before == t.before
    ensures LevelOf(u, second, [])
  {
    var a, b := t.before, Branch(t, second).supplied;
    assert a + (b + chunk) + [] == a + b + chunk;
  }

  lemma DeliveredInv(t: Tee, u: Tee, chunk: Bytes)
    requires TeeInv(t) && t.phase.Scheduled? && t.phase.chunk == chunk
    requires AllGood(u) && u.source == t.source && u.before == t.before
    requires Got(t, u, false, chunk) && Got(t, u, true, chunk)
    ensures TeeInv(Finish(u)) && AllOpen(Finish(u))
  {
    GotLevel(t, u, false, chunk);
    GotLevel(t, u, true, chunk);
  }

  /** An errored branch has no view left to answer. */
  lemma ErroredThrows(b: Stream, at: nat, data: Bytes)
    requires Good(b) && b.state.Errored?
    ensures NewViewThrows(b, at, data)
  {
    Unseal(b);
  }

  lemma ForwardDefaultInv(t: Tee)
    requires TeeInv(t) && t.phase.Scheduled? && t.phase.kind.ViaDefault?
    ensures TeeInv(Forward(t))
  {
    var chunk := t.phase.chunk;
    var u := t.(again1 := false, again2 := false);
    FeedEffect(u, false, chunk);
    var v := Feed(u, false, chunk);
    FeedEffect(v, true, chunk);
    var w := Feed(v, true, chunk);
    DeliveredInv(t, w, chunk);
    ReadAgainInv(Finish(w));
  }

  lemma ForwardByobInv(t: Tee)
    requires TeeInv(t) && t.phase.Scheduled? && t.phase.kind.ViaByob?
    ensures TeeInv(Forward(t))
  {
    var chunk, second, at := t.phase.chunk, t.phase.kind.second, t.phase.kind.at;
    var u := t.(again1 := false, again2 := false);
    if Branch(u, second).state.Errored? {
      ErroredThrows(Branch(u, second), at, chunk);
    }
    if Canceled(u, second) || !NewViewThrows(Branch(u, second), at, chunk) {
      AnswerViewEffect(u, second, at, chunk);
      var v := AnswerView(u, second, at, chunk);
      FeedEffect(v, !second, chunk);
      var w := Feed(v, !second, chunk);
      DeliveredInv(t, w, chunk);
      ReadAgainInv(Finish(w));
    } else {
      ThrownInv(t, u, chunk);
    }
  }

  /** The view's branch has failed, and so has the other or it is cancelled: nobody misses the
      chunk. */
  lemma ThrownInv(t: Tee, u: Tee, chunk: Bytes)
    requires TeeInv(t) && t.phase.Scheduled? && t.phase.kind.ViaByob? && t.phase.chunk == chunk
    requires u == t.(again1 := false, again2 := false)
    requires !Canceled(t, t.phase.kind.second)
    requires NewViewThrows(Branch(t, t.phase.kind.second), t.phase.kind.at, chunk)
    ensures TeeInv(u.(phase := Idle))
  {
    assert !Fine(t, t.phase.kind.second);
    assert !Fine(t, !t.phase.kind.second);
  }

  // ---------------------------------------------------------------------- runs

  lemma SteadyBranchInv(t: Tee, second: bool, c: Stream)
    requires TeeInv(t) && Good(c) && Steady(Branch(t, second), c)
    ensures TeeInv(SetBranch(t, second, c))
  {
    LevelKept(t, SetBranch(t, second, c), false, InTransit(t.phase));
    LevelKept(t, SetBranch(t, second, c), true, InTransit(t.phase));
  }

  lemma BranchEventInv(t: Tee, second: bool, e: Event)
    requires TeeInv(t) && UserEvent(e)
    ensures TeeInv(TeeStep(t, BranchEvent(second, e)))
  {
    var b := Branch(t, second);
    UserLeaf(b, e);
    SteadyBranchInv(t, second, Step(b, e));
    if Step(b, e).pulls > b.pulls {
      PullInv(SetBranch(t, second, Step(b, e)), second);
    }
  }

  lemma SourcePolling(t: Tee, s: Stream)
    requires TeeInv(t) && t.phase.Outstanding?
    requires Good(s) && Reported(t.source, s, t.phase.id)
    ensures Polling(t.(source := s))
  {
    LevelGrows(t, s, Carried(s.answers[t.phase.id]));
  }

  lemma SourceStepInv(t: Tee, e: Event)
    requires TeeInv(t) && (SourceEvent(e) || e.CancelCall?)
    ensures TeeInv(Poll(t.(source := Step(t.source, e))))
  {
    var s := Step(t.source, e);
    if t.phase.Outstanding? {
      SourceLeaf(t.source, e, t.phase.id);
      SourcePolling(t, s);
      PollInv(t.(source := s));
    } else {
      IdleSourceLeaf(t.source, e);
    }
  }

  lemma CanceledInv(t: Tee, second: bool, c: Stream)
    requires TeeInv(t) && Told(Branch(t, second), c, []) && !Open(c)
    ensures var u := SetBranch(t, second, c);
            TeeInv(if second then u.(canceled2 := true) else u.(canceled1 := true))
  {
    var u := SetBranch(t, second, c);
    var v := if second then u.(canceled2 := true) else u.(canceled1 := true);
    LevelKept(t, v, false, InTransit(t.phase));
    LevelKept(t, v, true, InTransit(t.phase));
  }

  lemma CancelBranchInv(t: Tee, second: bool)
    requires TeeInv(t)
    ensures TeeInv(CancelBranch(t, second))
  {
    var b := Branch(t, second);
    if b.state.Readable? {
      CancelLeaf(b);
      CanceledInv(t, second, Cancel(b));
      var u := SetBranch(t, second, Cancel(b));
      var v := if second then u.(canceled2 := true) else u.(canceled1 := true);
      if v.canceled1 && v.canceled2 {
        SourceStepInv(v, CancelCall);
      }
    }
  }

  /** The error reaches a branch that is still readable. */
  lemma ErroredLevel(t: Tee, u: Tee, second: bool, extra: Bytes)
    requires LevelOf(t, second, extra) && t.source.state.Errored? && u.source == t.source && u.before == t.before
    requires Canceled(u, second) == Canceled(t, second)
    requires Good(Branch(t, second)) && Branch(u, second) == ErrorStream(Branch(t, second), t.source.error)
    ensures LevelOf(u, second, extra) && Good(Branch(u, second)) && !Open(Branch(u, second))
    ensures Branch(u, second).state.Errored? || Branch(u, second) == Branch(t, second)
  {
    ErrorLeaf(Branch(t, second), t.source.error);
  }

  lemma ForwardErrorInv(t: Tee)
    requires TeeInv(t)
    ensures TeeInv(TeeStep(t, ForwardError))
  {
    var u := TeeStep(t, ForwardError);
    if t.source.state.Errored? {
      ErroredLevel(t, u, false, InTransit(t.phase));
      ErroredLevel(t, u, true, InTransit(t.phase));
    }
  }

  lemma TeeStepInv(t: Tee, e: TeeEvent)
    requires TeeInv(t)
    ensures TeeInv(TeeStep(t, e))
  {
    match e
    case BranchEvent(second, e) => if UserEvent(e) { BranchEventInv(t, second, e); }
    case BranchCancel(second) => CancelBranchInv(t, second);
    case SourceStep(e) => if SourceEvent(e) { SourceStepInv(t, e); }
    case Microtask =>
      if t.phase.Scheduled? {
        match t.phase.kind
        case ViaDefault => ForwardDefaultInv(t);
        case ViaByob(_, _) => ForwardByobInv(t);
      }
    case ForwardError => ForwardErrorInv(t);
  }

  /** A stream that may be teed: reachable, and not locked to a reader. */
  ghost predicate Teeable(s: Stream) {
    Reachable(s) && s.reader.NoReader?
  }

  lemma StartInv(s: Stream)
    requires Teeable(s)
    ensures TeeInv(Start(s))
  {
    var highWaterMark: nat, events: seq<Event> :| s == Run(Init(highWaterMark), events);
    RunGood(highWaterMark, events);
    StartFrom(s);
  }

  lemma {:induction false} RunGood(highWaterMark: nat, events: seq<Event>)
    ensures Good(Run(Init(highWaterMark), events))
    decreases |events|
  {
    if events == [] {
      Seal(Init(highWaterMark));
    } else {
      RunGood(highWaterMark, events[..|events| - 1]);
      StepGood(Run(Init(highWaterMark), events[..|events| - 1]), events[|events| - 1]);
    }
  }

  lemma UnlockedIdle(s: Stream)
    requires Good(s) && s.reader.NoReader?
    ensures Waits(s) == []
  {
    Unseal(s);
  }

  lemma StartFrom(s: Stream)
    requires Good(s) && s.reader.NoReader?
    ensures TeeInv(Start(s))
  {
    StepGood(s, AcquireCall(false));
    UnlockedIdle(s);
    RunGood(0, []);
    assert s.delivered + [] + [] == s.delivered;
  }

  lemma {:induction false} TeeRunInv(s: Stream, events: seq<TeeEvent>)
    requires Teeable(s)
    ensures TeeInv(TeeRun(Start(s), events))
    decreases |events|
  {
    if events == [] {
      StartInv(s);
    } else {
      TeeRunInv(s, events[..|events| - 1]);
      TeeStepInv(TeeRun(Start(s), events[..|events| - 1]), events[|events| - 1]);
    }
  }

  // ---------------------------------------------------------- what users may rely on

  ghost predicate ReachableTee(t: Tee) {
    exists s: Stream, events: seq<TeeEvent> :: Teeable(s) && t == TeeRun(Start(s), events)
  }

  lemma ReachableTeeInv(t: Tee)
    requires ReachableTee(t)
    ensures TeeInv(t)
  {
    var s: Stream, events: seq<TeeEvent> :| Teeable(s) && t == TeeRun(Start(s), events);
    TeeRunInv(s, events);
  }

  /** A branch that is not cancelled or errored has accepted the bytes the source delivered
      since it was teed, but for a chunk on its way, whatever became of the other branch. */
  lemma BranchSeesTheSource(t: Tee, second: bool)
    requires ReachableTee(t) && Fine(t, second)
    ensures t.before + Branch(t, second).supplied + InTransit(t.phase) == t.source.delivered
  {
    ReachableTeeInv(t);
  }

  lemma SameMiddle(a: Bytes, b: Bytes, c: Bytes, d: Bytes)
    requires a + b + d == a + c + d
    ensures b == c
  {
    assert |b| == |c|;
    assert b == (a + b + d)[|a|..|a| + |b|] && c == (a + c + d)[|a|..|a| + |c|];
  }

  /** Two such branches have accepted the same bytes. */
  lemma BranchesAgree(t: Tee)
    requires ReachableTee(t) && Fine(t, false) && Fine(t, true)
    ensures t.branch1.supplied == t.branch2.supplied
  {
    BranchSeesTheSource(t, false);
    BranchSeesTheSource(t, true);
    SameMiddle(t.before, t.branch1.supplied, t.branch2.supplied, InTransit(t.phase));
  }

  /** The source never has more than the tee's one read outstanding, and one only while the
      tee says it is reading. */
  lemma OneSourceRead(t: Tee)
    requires ReachableTee(t)
    ensures |t.source.waiters + t.source.readIntos| <= 1
    ensures t.source.waiters + t.source.readIntos != [] ==> t.reading && t.phase.Outstanding?
  {
    ReachableTeeInv(t);
  }

  /** What the reads of either branch were handed is a prefix of what the source delivered
      since it was teed, also after an error or a cancel. */
  lemma ReadsSeeTheSource(t: Tee, second: bool)
    requires ReachableTee(t)
    ensures t.before + Branch(t, second).delivered <= t.source.delivered
  {
    ReachableTeeInv(t);
    var b := Branch(t, second);
    Unseal(b);
    PrefixOfPrefix(b.delivered, Held(b.pullIntos), b.supplied);
    assert t.before + b.supplied <= t.source.delivered;
  }

  /** The reader is swapped between default and BYOB only when no source read is outstanding,
      so no such read is ever lost to a swap. */
  lemma NoSwapWhileReading(t: Tee, e: TeeEvent)
    requires ReachableTee(t) && t.source.waiters + t.source.readIntos != []
    ensures TeeStep(t, e).source.reader == t.source.reader
  {
    ReachableTeeInv(t);
    ReaderStays(t, e);
  }

  lemma EndDefaultKeepsSource(t: Tee)
    ensures EndDefault(t).source == t.source
  {}

  lemma EndByobKeepsSource(t: Tee, second: bool, at: nat, view: Option<Bytes>)
    ensures EndByob(t, second, at, view).source == t.source
  {}

  lemma ResolveKeepsSource(t: Tee, kind: Kind, a: Answer)
    ensures Resolve(t, kind, a).source == t.source
  {
    EndDefaultKeepsSource(Finish(t));
    if kind.ViaByob? {
      EndByobKeepsSource(Finish(t), kind.second, kind.at, if a.View? then Some(a.bytes) else None);
    }
  }

  lemma PollKeepsSource(t: Tee)
    ensures Poll(t).source == t.source
  {
    if t.phase.Outstanding? && t.phase.id < |t.source.answers| {
      ResolveKeepsSource(t, t.phase.kind, t.source.answers[t.phase.id]);
    }
  }

  lemma ReaderStays(t: Tee, e: TeeEvent)
    requires AllGood(t) && t.reading && t.phase.Outstanding?
    ensures TeeStep(t, e).source.reader == t.source.reader
  {
    hide Good, Inv, Poll, CancelBranch, Steps.Follows;
    match e
    case BranchEvent(second, e) =>
    case BranchCancel(second) =>
      Unseal(t.source);
      SourceEventFrame(t.source, CancelCall);
      CancelBranchSource(t, second);
    case SourceStep(e) =>
      if SourceEvent(e) {
        Unseal(t.source);
        SourceEventFrame(t.source, e);
        PollKeepsSource(t.(source := Step(t.source, e)));
      }
    case Microtask =>
    case ForwardError =>
  }

  lemma CancelBranchSource(t: Tee, second: bool)
    ensures CancelBranch(t, second).source == t.source || CancelBranch(t, second).source == Cancel(t.source)
  {
    var b := Branch(t, second);
    var u := SetBranch(t, second, Cancel(b));
    var v := if second then u.(canceled2 := true) else u.(canceled1 := true);
    PollKeepsSource(v.(source := Cancel(v.source)));
  }
}
