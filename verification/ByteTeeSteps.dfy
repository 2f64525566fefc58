/** How a byte tee reacts: what it reads for a branch, and that no branch's read is forgotten;
    how the end and the error of the source reach the branches; and when the source is cancelled. */
module ByteTeeSteps {
  import opened Base
  import opened Fifo
  import opened ByteSpec
  import opened ByteProofs
  import opened ByteEnds
  import opened BytePromises
  import opened ByteTeeSpec
  import opened ByteTeeProofs
  import opened ByteTeeTheorems
  import Steps = ByteSteps
  import Settles = ByteSettles

  // ------------------------------------------------------------- no read is forgotten

  /** A read waits on an open branch, and not behind one whose reader was released. */
  predicate Wants(b: Stream) {
    && Open(b) && b.started
    && (b.waiters != [] || (b.readIntos != [] && b.pullIntos != [] && !b.pullIntos[0].released))
  }

  /** Then the tee is reading, or the branch will pull again, or there is nothing more to read. */
  ghost predicate Served(t: Tee, second: bool) {
    Wants(Branch(t, second)) ==> t.reading || Branch(t, second).pullAgain || !t.source.state.Readable?
  }

  /** A tee that says it is reading is, unless neither branch could be given anything. */
  ghost predicate Awake(t: Tee) {
    t.reading && t.phase.Idle? ==> !Fine(t, false) && !Fine(t, true)
  }

  ghost predicate Attends(t: Tee) {
    Served(t, false) && Served(t, true) && Awake(t)
  }

  /** What a step of a branch that pulls on demand leaves to the tee. */
  lemma Prompted(b: Stream, e: Event, c: Stream)
    requires Steps.Follows(b, e, c) && Steps.Prompts(b, e) && !e.PullSettles?
    ensures Wants(c) ==> c.pulls > b.pulls || c.pullAgain
  {
    hide Steps.Kept, Steps.WaitingFollow, Steps.NewFollows, Steps.AskedFollow, Steps.StateFollows;
  }

  /** A user's step: a read that is new gets a pull, or one that waited still has what it had. */
  lemma UserServed(b: Stream, e: Event)
    requires Inv(b) && UserEvent(e)
    ensures var c := Step(b, e); Wants(c) ==> c.pulls > b.pulls || c.pullAgain || (Wants(b) && !b.pullAgain)
  {
    Steps.StepFollows(b, e);
    if Steps.Prompts(b, e) {
      if e.PullSettles? {
        hide Step, Inv, Steps.Kept, Steps.WaitingFollow, Steps.NewFollows, Steps.AskedFollow, Steps.StateFollows;
      } else {
        hide Step, Inv, Steps.Follows;
        Prompted(b, e, Step(b, e));
      }
    } else if e.ReleaseCall? {
      if !b.reader.NoReader? {
        ReleaseEffect(b);
      }
      hide Release;
    } else {
      hide Steps.Follows;
      UnpromptedServed(b, e);
    }
  }

  lemma UnpromptedServed(b: Stream, e: Event)
    requires Inv(b) && UserEvent(e) && !e.ReleaseCall? && !Steps.Prompts(b, e)
    ensures var c := Step(b, e); Wants(c) ==> c.pullAgain || (Wants(b) && !b.pullAgain)
  {
    match e
    case ReadIntoCall(length, elementSize, min) => UnpromptedRead(b, length, elementSize, min);
    case _ => hide Read, ReadInto, CallPullIfNeeded, Flatten;
  }

  /** A view with nothing in it is refused; any other read joins the line. */
  lemma UnpromptedRead(b: Stream, length: nat, elementSize: ElementSize, min: nat)
    requires Inv(b) && !Steps.Prompts(b, ReadIntoCall(length, elementSize, min))
    ensures var c := Step(b, ReadIntoCall(length, elementSize, min));
            Wants(c) ==> c.pullAgain || (Wants(b) && !b.pullAgain)
  {
    var d := PullInto([], length * elementSize, min * elementSize, elementSize, false);
    if Steps.Proper(length, min) && b.pullIntos != [] {
      JoinsTheLine(b, d);
    }
    hide AddPullInto, Inv, Enlist;
    assert b.pullIntos != [] ==> AddPullInto(b, d) == Enlist(b, d, d) by { AddsBehind(b, d); }
  }

  lemma AddsBehind(b: Stream, d: PullInto)
    ensures b.pullIntos != [] ==> AddPullInto(b, d) == Enlist(b, d, d)
  {
    hide FillPullInto, CallPullIfNeeded, AnswerFill, Enlist;
  }

  lemma JoinsTheLine(b: Stream, d: PullInto)
    requires Inv(b) && b.pullIntos != []
    ensures var c := Enlist(b, d, d); (Wants(c) ==> Wants(b)) && c.pullAgain == b.pullAgain
  {}

  // ------------------------------------------------------------------ the tee's part

  /** Once it polls, the tee goes on reading, or the source has no more. */
  lemma PollAttends(t: Tee)
    requires Polling(t)
    ensures var u := Poll(t);
            && (u.reading || !u.source.state.Readable?) && (u.reading ==> !u.phase.Idle?)
  {
    PollKeepsSource(t);
    hide AllGood, Level, OpenTogether, Busy, Viewing, Waits, MadeAs;
    match t.source.answers[t.phase.id]
    case View(bytes, done) => EndsIdle(t, Some(bytes));
    case Done => EndsIdle(t, None);
    case _ =>
  }

  lemma CloseBothFrame(t: Tee, first: bool)
    ensures var u := CloseBoth(t, first); u == t.(branch1 := u.branch1, branch2 := u.branch2)
  {
    hide ControllerClose;
  }

  lemma EndsIdle(t: Tee, view: Option<Bytes>)
    ensures var u := EndDefault(Finish(t)); u.phase.Idle? && !u.reading
    ensures t.phase.Outstanding? && t.phase.kind.ViaByob? ==>
              var u := EndByob(Finish(t), t.phase.kind.second, t.phase.kind.at, view); u.phase.Idle? && !u.reading
  {
    CloseBothFrame(Finish(t), false);
    CloseBothFrame(Finish(t), true);
    hide CloseBoth, CloseBothThrows, Respond, RespondWithNewView, NewViewThrows, EndThrows;
  }

  lemma PullAttends(t: Tee, second: bool)
    requires TeeInv(t) && !t.reading && AllOpen(t)
    ensures var u := Pull(t, second);
            && (u.reading || !u.source.state.Readable?) && (u.reading ==> !u.phase.Idle?)
  {
    ReadyToRead(t);
    BranchGood(t, second);
    var v, b := t.(reading := true), Branch(t, second);
    hide TeeInv, AllOpen, Poll;
    if b.pullIntos == [] {
      var s := SwapTo(v.source, DefaultReader);
      DefaultPolling(v);
      PollAttends(v.(source := Read(s), phase := Outstanding(ViaDefault, |s.answers|)));
    } else {
      var s, d := SwapTo(v.source, ByobReader), b.pullIntos[0];
      FirstHasRoom(b);
      if !s.state.Errored? {
        ByobPolling(v, second, d, s);
        PollAttends(v.(source := AddPullInto(s, Room(d)),
                       phase := Outstanding(ViaByob(second, |d.filled|), |s.answers|)));
      }
    }
  }

  // ----------------------------------------------------------------- the microtask

  predicate Again(t: Tee, second: bool) {
    if second then t.again2 else t.again1
  }

  /** A branch that was just given something has asked again, or will. */
  ghost predicate Asks(t: Tee, second: bool) {
    Wants(Branch(t, second)) ==> Branch(t, second).pullAgain || Again(t, second)
  }

  lemma EnqueueServed(b: Stream, chunk: Bytes)
    requires Good(b) && Open(b)
    ensures var c := ControllerEnqueue(b, chunk); Wants(c) ==> c.pulls > b.pulls || c.pullAgain
  {
    Unseal(b);
    Steps.EnqueueFollows(b, chunk);
    hide ControllerEnqueue, Inv, Good, Steps.Follows;
    Prompted(b, EnqueueCall(chunk), ControllerEnqueue(b, chunk));
  }

  lemma NewViewServed(b: Stream, at: nat, data: Bytes)
    requires Good(b) && Open(b) && !NewViewThrows(b, at, data)
    ensures var c := RespondWithNewView(b, at, data); Wants(c) ==> c.pulls > b.pulls || c.pullAgain
  {
    Unseal(b);
    Steps.RespondFollows(b, NewViewCall(at, data), data);
    hide RespondWithNewView, Inv, Good, Steps.Follows;
    Prompted(b, NewViewCall(at, data), RespondWithNewView(b, at, data));
  }

  lemma FeedAsks(t: Tee, second: bool, chunk: Bytes)
    requires AllGood(t) && t.reading && (Open(Branch(t, second)) ==> !Canceled(t, second))
    ensures var u := Feed(t, second, chunk);
            Asks(u, second) && (Again(t, !second) ==> Again(u, !second)) && Branch(u, !second) == Branch(t, !second)
  {
    if Open(Branch(t, second)) {
      EnqueueServed(Branch(t, second), chunk);
      hide Enqueue;
    }
  }

  lemma AnswerViewAsks(t: Tee, second: bool, at: nat, chunk: Bytes)
    requires AllGood(t) && t.reading && (Open(Branch(t, second)) ==> !Canceled(t, second))
    requires !Canceled(t, second) ==> Open(Branch(t, second)) && !NewViewThrows(Branch(t, second), at, chunk)
    ensures var u := AnswerView(t, second, at, chunk);
            Asks(u, second) && (Again(t, !second) ==> Again(u, !second)) && Branch(u, !second) == Branch(t, !second)
  {
    if Open(Branch(t, second)) {
      NewViewServed(Branch(t, second), at, chunk);
      hide RespondWithNewView;
    }
  }

  lemma ReadAgainAttends(t: Tee)
    requires TeeInv(t) && AllOpen(t) && !t.reading && Asks(t, false) && Asks(t, true)
    ensures Attends(ReadAgain(t))
  {
    hide TeeInv, AllOpen, Pull;
    if t.again1 {
      PullAttends(t, false);
    } else if t.again2 {
      PullAttends(t, true);
    }
  }

  lemma ForwardDefaultAttends(t: Tee)
    requires TeeInv(t) && t.phase.Scheduled? && t.phase.kind.ViaDefault?
    ensures Attends(Forward(t))
  {
    var chunk := t.phase.chunk;
    var u := t.(again1 := false, again2 := false);
    FeedEffect(u, false, chunk);
    FeedAsks(u, false, chunk);
    var v := Feed(u, false, chunk);
    FeedEffect(v, true, chunk);
    FeedAsks(v, true, chunk);
    var w := Feed(v, true, chunk);
    DeliveredInv(t, w, chunk);
    hide TeeInv, AllOpen, Feed, ReadAgain, Attends, AllGood;
    ReadAgainAttends(Finish(w));
  }

  lemma ForwardByobAttends(t: Tee)
    requires TeeInv(t) && t.phase.Scheduled? && t.phase.kind.ViaByob?
    ensures Attends(Forward(t))
  {
    var chunk, second, at := t.phase.chunk, t.phase.kind.second, t.phase.kind.at;
    var u := t.(again1 := false, again2 := false);
    if Branch(u, second).state.Errored? {
      ErroredThrows(Branch(u, second), at, chunk);
    }
    if Canceled(u, second) || !NewViewThrows(Branch(u, second), at, chunk) {
      AnswerViewEffect(u, second, at, chunk);
      AnswerViewAsks(u, second, at, chunk);
      var v := AnswerView(u, second, at, chunk);
      FeedEffect(v, !second, chunk);
      FeedAsks(v, !second, chunk);
      var w := Feed(v, !second, chunk);
      DeliveredInv(t, w, chunk);
      hide TeeInv, AllOpen, Feed, AnswerView, ReadAgain, Attends, AllGood;
      ReadAgainAttends(Finish(w));
    } else {
      assert !Fine(t, second) && !Fine(t, !second);
    }
  }

  // ------------------------------------------------------------------------ runs

  lemma BranchEventAttends(t: Tee, second: bool, e: Event)
    requires TeeInv(t) && Attends(t) && UserEvent(e)
    ensures Attends(TeeStep(t, BranchEvent(second, e)))
  {
    var b := Branch(t, second);
    BranchGood(t, second);
    Unseal(b);
    UserServed(b, e);
    UserLeaf(b, e);
    hide TeeInv, Attends, Step, Steady, Wants, Inv, AfterBranch;
    BranchAttends(t, second, Step(b, e));
  }

  lemma BranchAttends(t: Tee, second: bool, c: Stream)
    requires TeeInv(t) && Attends(t) && Good(c) && Steady(Branch(t, second), c)
    requires var b := Branch(t, second);
             Wants(c) ==> c.pulls > b.pulls || c.pullAgain || (Wants(b) && !b.pullAgain)
    ensures Attends(AfterBranch(SetBranch(t, second, c), second, Branch(t, second).pulls))
  {
    SteadyBranchInv(t, second, c);
    if c.pulls > Branch(t, second).pulls && !t.reading {
      hide Pull;
      PullAttends(SetBranch(t, second, c), second);
    }
  }

  lemma SourceStepAttends(t: Tee, e: Event)
    requires TeeInv(t) && Attends(t) && (SourceEvent(e) || e.CancelCall?)
    ensures Attends(Poll(t.(source := Step(t.source, e))))
  {
    var s := Step(t.source, e);
    if t.phase.Outstanding? {
      SourceLeaf(t.source, e, t.phase.id);
      SourcePolling(t, s);
      PollAttends(t.(source := s));
    } else {
      IdleSourceLeaf(t.source, e);
    }
  }

  lemma CancelAttends(t: Tee, second: bool)
    requires TeeInv(t) && Attends(t)
    ensures Attends(CancelBranch(t, second))
  {
    var b := Branch(t, second);
    if b.state.Readable? {
      hide Cancel, Poll, TeeInv, Attends, Good;
      BranchGood(t, second);
      CancelLeaf(b);
      CanceledInv(t, second, Cancel(b));
      CanceledAttends(t, second, Cancel(b));
      var u := SetBranch(t, second, Cancel(b));
      var v := if second then u.(canceled2 := true) else u.(canceled1 := true);
      if v.canceled1 && v.canceled2 {
        assert Step(v.source, CancelCall) == Cancel(v.source);
        SourceStepAttends(v, CancelCall);
      }
    }
  }

  lemma CanceledAttends(t: Tee, second: bool, c: Stream)
    requires Attends(t) && !c.state.Readable?
    ensures var u := SetBranch(t, second, c);
            Attends(if second then u.(canceled2 := true) else u.(canceled1 := true))
  {}

  lemma ForwardErrorAttends(t: Tee)
    requires TeeInv(t) && Attends(t)
    ensures Attends(TeeStep(t, ForwardError))
  {
    if t.source.state.Errored? {
      ErrorLeaf(t.branch1, t.source.error);
      ErrorLeaf(t.branch2, t.source.error);
    }
  }

  lemma StepAttends(t: Tee, e: TeeEvent)
    requires TeeInv(t) && Attends(t)
    ensures Attends(TeeStep(t, e))
  {
    hide TeeInv, Attends, Forward, CancelBranch, Poll;
    match e
    case BranchEvent(second, e) => if UserEvent(e) { BranchEventAttends(t, second, e); }
    case BranchCancel(second) => CancelAttends(t, second);
    case SourceStep(e) => if SourceEvent(e) { SourceStepAttends(t, e); }
    case Microtask =>
      if t.phase.Scheduled? {
        match t.phase.kind
        case ViaDefault => ForwardDefaultAttends(t);
        case ViaByob(_, _) => ForwardByobAttends(t);
      }
    case ForwardError => ForwardErrorAttends(t);
  }

  lemma {:induction false} RunAttends(s: Stream, events: seq<TeeEvent>)
    requires Teeable(s)
    ensures Attends(TeeRun(Start(s), events))
    decreases |events|
  {
    if events != [] {
      RunAttends(s, events[..|events| - 1]);
      TeeRunInv(s, events[..|events| - 1]);
      StepAttends(TeeRun(Start(s), events[..|events| - 1]), events[|events| - 1]);
    }
  }

  /** No read of a branch is forgotten: while one waits on an open branch that has started, the
      tee has a read of its source under way for it, or the branch has a pull in flight and will
      pull again after it, or the source has nothing more to give.  Only the reads behind a view
      whose reader was released are not covered. */
  lemma NoReadForgotten(t: Tee, second: bool)
    requires ReachableTee(t) && Wants(Branch(t, second))
    ensures || (t.reading && !t.phase.Idle?)
            || (Branch(t, second).pulling && Branch(t, second).pullAgain)
            || !t.source.state.Readable?
  {
    var s: Stream, events: seq<TeeEvent> :| Teeable(s) && t == TeeRun(Start(s), events);
    RunAttends(s, events);
    TeeRunInv(s, events);
    Unseal(Branch(t, second));
  }

  // ------------------------------------------------------------------ the end

  lemma LastAnswer(b: Stream)
    requires Good(b) && b.state.Closed?
    ensures Respond(b, []).readIntos == []
  {
    Unseal(b);
    if b.pullIntos != [] {
      hide RespondInClosedState;
      RespondInClosedStateKeepsInv(b);
    }
  }

  /** A branch stays open only if the other failed, and no read waits once both have closed. */
  ghost predicate Ended(t: Tee, second: bool) {
    && (Open(Branch(t, second)) ==> Branch(t, !second).state.Errored?)
    && (t.branch1.state.Closed? && t.branch2.state.Closed? && !Canceled(t, second) ==>
          Branch(t, second).waiters == [] && Branch(t, second).readIntos == [])
  }

  lemma ClosedReads(b: Stream)
    requires Good(b) && b.state.Closed?
    ensures b.waiters == []
  {
    Unseal(b);
  }

  lemma CloseBothFails(t: Tee, first: bool)
    requires Ending(t) && CloseBothThrows(t, first)
    ensures var u := CloseBoth(t, first);
            Branch(u, first).state.Errored? || (Branch(u, !first).state.Errored? && !Open(Branch(u, first)))
  {
    CloseBranchCloses(t, first);
    if !CloseThrows(t, first) {
      CloseBranchCloses(CloseBranch(t, first), !first);
    }
  }

  lemma EndDefaultReaches(t: Tee, second: bool)
    requires Ending(t)
    ensures Ended(EndDefault(t), second)
  {
    CloseBothEnds(t, false);
    var u := CloseBoth(t, false);
    if CloseBothThrows(t, false) {
      CloseBothFails(t, false);
    }
    hide CloseBoth, CloseBothThrows, Respond, Ending;
    if !CloseBothThrows(t, false) && !EndThrows(u.branch1) {
      BranchEnds(u, second);
    }
  }

  /** A branch that is told that its views end. */
  lemma BranchEnds(t: Tee, second: bool)
    requires BothClosed(t)
    ensures var c := Respond(Branch(t, second), []);
            && !Open(c) && c.state == Branch(t, second).state
            && (c.state.Closed? ==> c.waiters == [] && c.readIntos == [])
  {
    RespondEmptyLeaf(Branch(t, second));
    hide Respond;
    if Branch(t, second).state.Closed? {
      LastAnswer(Branch(t, second));
      ClosedReads(Respond(Branch(t, second), []));
    }
  }

  lemma {:induction false} SettledKeepViews(s: Stream, a: Answer)
    ensures var t := SettleWaiters(s, a); t.pullIntos == s.pullIntos && t.state == s.state
    decreases |s.waiters|
  {
    if s.waiters != [] {
      SettledKeepViews(Settle(s.(waiters := s.waiters[1..]), s.waiters[0], a), a);
    }
  }

  /** A branch that closes keeps its pending views until it is told how they end. */
  lemma ClosesOverViews(b: Stream)
    requires Good(b)
    ensures var c := ControllerClose(b); c.state.Closed? ==> c.pullIntos == b.pullIntos
  {
    if CanCloseOrEnqueue(b) && b.queue == [] {
      if b.pullIntos != [] && |b.pullIntos[0].filled| % b.pullIntos[0].elementSize != 0 {
        PartialFails(b);
      } else {
        SettledKeepViews(b.(state := Closed), Done);
      }
    }
    hide SettleWaiters, Good;
  }

  lemma EndByobReaches(t: Tee, k: bool, at: nat, second: bool)
    requires Ending(t)
    requires Fine(t, k) ==> Branch(t, k).pullIntos != [] && |Branch(t, k).pullIntos[0].filled| == at
    ensures Ended(EndByob(t, k, at, Some([])), second)
  {
    CloseBothEnds(t, k);
    var u := CloseBoth(t, k);
    if CloseBothThrows(t, k) {
      CloseBothFails(t, k);
    } else {
      ClosesOverViews(Branch(t, k));
      CloseBranchCloses(t, k);
      assert Branch(u, k) == Branch(CloseBranch(t, k), k);
      hide CloseBoth, CloseBothThrows, Ending, EndByob, Ended, Good;
      ByobToldReaches(t, u, k, at, second);
    }
  }

  /** The empty view that ends a read is taken by a branch that has closed, and by no other. */
  lemma LastViewTaken(b: Stream, at: nat)
    requires Good(b) && (b.state.Closed? ==> b.pullIntos != [] && |b.pullIntos[0].filled| == at)
    ensures NewViewThrows(b, at, []) == !b.state.Closed?
    ensures b.state.Closed? ==> RespondWithNewView(b, at, []) == Respond(b, [])
  {
    if b.state.Closed? {
      FirstHasRoom(b);
    }
  }

  lemma ByobToldReaches(t: Tee, u: Tee, k: bool, at: nat, second: bool)
    requires BothClosed(u) && !CloseBothThrows(t, k) && u == CloseBoth(t, k)
    requires !Canceled(u, k) && Branch(u, k).state.Closed? ==>
               Branch(u, k).pullIntos != [] && |Branch(u, k).pullIntos[0].filled| == at
    ensures Ended(EndByob(t, k, at, Some([])), second)
  {
    hide CloseBoth, CloseBothThrows, Respond, RespondWithNewView, NewViewThrows, Good, Level;
    if !Canceled(u, k) {
      LastViewTaken(Branch(u, k), at);
    }
    BranchEnds(u, k);
    BranchEnds(u, !k);
  }

  lemma EndReaches(t: Tee, second: bool)
    requires Polling(t) && Ends(t.source.answers[t.phase.id])
    requires t.source.answers[t.phase.id].Done? ==> t.phase.kind.ViaDefault?
    ensures var u := Poll(t); u.phase.Idle? && !u.reading && Ended(u, second)
  {
    FinishEnding(t);
    EndsIdle(t, Some([]));
    hide Ending, Ended, EndDefault, EndByob, AllGood, OpenTogether, Level;
    match t.phase.kind
    case ViaDefault => EndDefaultReaches(Finish(t), second);
    case ViaByob(k, at) => EndByobReaches(Finish(t), k, at, second);
  }

  /** A pending view is never answered with Done by what the source does itself. */
  lemma SourceEndsViews(s: Stream, e: Event, t: Stream, id: nat)
    requires Steps.Follows(s, e, t) && SourceEvent(e)
    requires s.waiters == [] && id < |s.answers| && s.answers[id].Waiting?
    ensures !t.answers[id].Done?
  {
    var after := t.answers[..|s.answers|];
    assert after[id] == t.answers[id];
    if (Steps.Enqueues(s, e) && s.reader.ByobReader?) || Steps.Fills(s, e) {
      var ds :| Steps.HandedOut(s, ds, after, t);
      NotDone(s.answers, s.readIntos, Settles.Views(ds, false), after, id);
    }
  }

  lemma NotDone(before: seq<Answer>, ids: seq<nat>, given: seq<Answer>, after: seq<Answer>, i: nat)
    requires Settles.EachGets(before, ids, given, after) && i < |before| && before[i].Waiting?
    requires forall k :: 0 <= k < |given| ==> !given[k].Done?
    ensures !after[i].Done?
  {
    if i in ids[..|given|] {
      var k :| 0 <= k < |given| && ids[..|given|][k] == i;
      assert after[ids[k]] == given[k];
    }
  }

  lemma ViewAnswered(s: Stream, e: Event, id: nat)
    requires Good(s) && Waits(s) == [id] && s.reader.ByobReader? && SourceEvent(e)
    ensures var a := Step(s, e).answers; id < |a| ==> !a[id].Done?
  {
    Unseal(s);
    hide Step, Steps.Follows;
    Steps.StepFollows(s, e);
    assert id in s.waiters + s.readIntos;
    Steps.ListedWait(s, id);
    SourceEndsViews(s, e, Step(s, e), id);
  }

  lemma SourcePolled(t: Tee, e: Event)
    requires TeeInv(t) && t.phase.Outstanding? && SourceEvent(e)
    ensures var u := t.(source := Step(t.source, e));
            Polling(u) && (u.source.answers[t.phase.id].Done? ==> t.phase.kind.ViaDefault?)
  {
    hide Step, Good, Level, OpenTogether, Polling;
    SourceLeaf(t.source, e, t.phase.id);
    SourcePolling(t, Step(t.source, e));
    if t.phase.kind.ViaByob? {
      ViewAnswered(t.source, e, t.phase.id);
    }
  }

  /** The end of the source reaches both branches: with the answer to the tee's read neither
      stays open, unless the other could not close and failed; and once both have closed no
      read waits on them. */
  lemma EndReachesBranches(t: Tee, e: Event, second: bool)
    requires ReachableTee(t) && t.phase.Outstanding? && SourceEvent(e)
    requires var s := Step(t.source, e);
             t.phase.id < |s.answers| && Ends(s.answers[t.phase.id])
    ensures var u := TeeStep(t, SourceStep(e)); u.phase.Idle? && !u.reading && Ended(u, second)
  {
    hide Step, Ended, Poll, TeeInv, Polling;
    ReachableTeeInv(t);
    SourcePolled(t, e);
    EndReaches(t.(source := Step(t.source, e)), second);
  }

  // ---------------------------------------------------------------- what is read

  /** What the tee asks its source for when branch `b` wants bytes: a chunk, or as many bytes as
      its first pending view has room for, one at least. */
  function Request(b: Stream): Option<PullInto> {
    if b.pullIntos == [] then None
    else Some(PullInto([], FloorAtZero(b.pullIntos[0].byteLength - |b.pullIntos[0].filled|), 1, 1, false))
  }

  lemma DefaultAsks(t: Tee)
    requires Good(t.source) && Waits(t.source) == [] && !t.source.reader.NoReader?
    ensures PullWithDefaultReader(t).source.asked == t.source.asked + [None]
  {
    hide Good, Poll, Read, SwapTo, Waits;
    var s := SwapTo(t.source, DefaultReader);
    SwapLeaf(t.source, DefaultReader);
    ReadLeaf(s);
    PollKeepsSource(t.(source := Read(s), phase := Outstanding(ViaDefault, |s.answers|)));
  }

  lemma ByobAsks(t: Tee, second: bool, d: PullInto)
    requires Good(t.source) && Waits(t.source) == [] && !t.source.reader.NoReader?
    requires !t.source.state.Errored? && |d.filled| < d.byteLength
    ensures PullWithByobReader(t, second, d).source.asked == t.source.asked + [Some(Room(d))]
  {
    hide Good, Poll, AddPullInto, SwapTo, Waits;
    var s := SwapTo(t.source, ByobReader);
    SwapLeaf(t.source, ByobReader);
    PullIntoLeaf(s, Room(d));
    PollKeepsSource(t.(source := AddPullInto(s, Room(d)),
                       phase := Outstanding(ViaByob(second, |d.filled|), |s.answers|)));
  }

  lemma PullAsks(t: Tee, second: bool)
    requires TeeInv(t) && !t.reading && !t.source.state.Errored?
    ensures Pull(t, second).source.asked == t.source.asked + [Request(Branch(t, second))]
  {
    hide Good, PullWithDefaultReader, PullWithByobReader, Waits, Level;
    var b := Branch(t, second);
    DefaultAsks(t.(reading := true));
    if b.pullIntos != [] {
      FirstHasRoom(b);
      ByobAsks(t.(reading := true), second, b.pullIntos[0]);
    }
  }

  /** A branch that pulls makes a tee that is not reading ask its source, for what that branch
      wants, in the same step. */
  lemma BranchAsks(t: Tee, second: bool, e: Event)
    requires ReachableTee(t) && !t.reading && !t.source.state.Errored? && UserEvent(e)
    requires Step(Branch(t, second), e).pulls > Branch(t, second).pulls
    ensures TeeStep(t, BranchEvent(second, e)).source.asked
            == t.source.asked + [Request(Step(Branch(t, second), e))]
  {
    ReachableTeeInv(t);
    var b := Branch(t, second);
    BranchGood(t, second);
    UserLeaf(b, e);
    SteadyBranchInv(t, second, Step(b, e));
    hide Step, Pull, Request, Good;
    PullAsks(SetBranch(t, second, Step(b, e)), second);
  }

  // --------------------------------------------------------- errors and cancelling

  /** A branch fails with the error of the source, or because it could not close. */
  lemma BranchFailsWithTheSource(t: Tee, second: bool)
    requires ReachableTee(t) && Branch(t, second).state.Errored?
    ensures Branch(t, second).error == InvalidState
            || (t.source.state.Errored? && Branch(t, second).error == t.source.error)
  {
    ReachableTeeInv(t);
  }

  /** The error of the source reaches both branches. */
  lemma ErrorReachesBranches(t: Tee, second: bool)
    requires ReachableTee(t) && t.source.state.Errored?
    ensures var u := TeeStep(t, ForwardError);
            && u.source == t.source
            && Steps.Follows(Branch(t, second), ErrorCall(t.source.error), Branch(u, second))
  {
    ReachableTeeInv(t);
    BranchGood(t, second);
    Unseal(Branch(t, second));
    Steps.ErrorFollows(Branch(t, second), t.source.error);
    hide Steps.Follows, Inv, TeeInv, ErrorStream;
  }

  /** The source is cancelled when the second of its branches is, and not before; the other
      branch does not notice. */
  lemma CancelsWithBoth(t: Tee, second: bool)
    requires ReachableTee(t) && Branch(t, second).state.Readable?
    ensures var u := TeeStep(t, BranchCancel(second));
            if Canceled(t, !second) then Steps.Follows(t.source, CancelCall, u.source)
            else
              && u.source == t.source && Branch(u, !second) == Branch(t, !second)
              && Steps.Follows(Branch(t, second), CancelCall, Branch(u, second))
  {
    hide Steps.Follows, Cancel, Good, CancelBranch;
    ReachableTeeInv(t);
    CancelFollows(t.source);
    CancelFollows(Branch(t, second));
    CanceledSource(t, second);
  }

  lemma CancelFollows(b: Stream)
    requires Good(b)
    ensures Steps.Follows(b, CancelCall, Cancel(b))
  {
    Unseal(b);
    hide Steps.Follows, Cancel;
    Steps.StepFollows(b, CancelCall);
  }

  lemma CanceledSource(t: Tee, second: bool)
    requires Branch(t, second).state.Readable?
    ensures var u := CancelBranch(t, second);
            if Canceled(t, !second) then u.source == Cancel(t.source)
            else
              && u.source == t.source && Branch(u, !second) == Branch(t, !second)
              && Branch(u, second) == Cancel(Branch(t, second))
  {
    hide Cancel, Poll;
    var u := SetBranch(t, second, Cancel(Branch(t, second)));
    var v := if second then u.(canceled2 := true) else u.(canceled1 := true);
    PollKeepsSource(v.(source := Cancel(v.source)));
  }
}
