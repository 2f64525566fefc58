/** What every interleaving of the workers keeps, and what the rows then say. */
module PoolProofs {
  import opened Base
  import opened PoolSpec

  // ------------------------------------------------------------ the invariant

  /** A worker and its cell agree; a case in a cell was pulled by that worker. */
  ghost predicate WorkerInv(p: Pool, i: nat)
    requires Sized(p) && i < |p.workers|
  {
    && (InCase(p, i) ==>
          p.cells[i].value < |p.pulledBy| && p.pulledBy[p.cells[i].value] == i)
    && (i < p.joined ==> Ended(p.workers[i]))
    && match p.workers[i]
       case Between => p.cells[i].None?
       case Running(s) => s < |p.names| && p.cells[i] == Some(s) && p.slots[s].None? && p.ran[s].None?
       case Filed(s) => s < |p.names| && p.cells[i] == Some(s) && p.ran[s].Some?
       case Returned => p.cells[i].None? || p.cells[i].value >= |p.names|
       case Panicked(text) =>
         if i < p.joined then Reported(p, i, text) else InCase(p, i) ==> Unblamed(p, p.cells[i].value)
  }

  /** The worker's cell names a case. */
  predicate InCase(p: Pool, i: nat)
    requires Sized(p) && i < |p.workers|
  {
    p.cells[i].Some? && p.cells[i].value < |p.names|
  }

  predicate Unblamed(p: Pool, s: nat)
    requires Sized(p) && s < |p.names|
  {
    p.ran[s].None? ==> p.slots[s].None?
  }

  /** A joined worker's panic is stray, or in the slot of its case unless that had a verdict. */
  ghost predicate Reported(p: Pool, i: nat, text: string)
    requires Sized(p) && i < |p.workers|
  {
    if InCase(p, i) then
      var s := p.cells[i].value;
      p.ran[s].None? ==> p.slots[s] == Some(Harness(RunningText(i, p.names[s], text)))
    else Panic(i, text) in p.stray
  }

  /** A stray panic is that of a joined worker which was at no case. */
  ghost predicate IsStray(p: Pool, panic: Panic)
    requires Sized(p)
  {
    panic.worker < p.joined && p.workers[panic.worker] == Panicked(panic.text) && !InCase(p, panic.worker)
  }

  /** A slot holds what its own run filed, or a harness error, or nothing; if nothing although
      the case was pulled, then its worker is still at it or is not joined. */
  ghost predicate SlotInv(p: Pool, s: nat)
    requires Sized(p) && s < |p.names|
  {
    && p.starts[s] == (if s < |p.pulledBy| then 1 else 0)
    && (p.ran[s].Some? ==> p.slots[s] == p.ran[s] && IsVerdict(p.ran[s].value))
    && (p.ran[s].None? && p.slots[s].Some? ==> p.slots[s].value.Harness?)
    && (s >= |p.pulledBy| ==> p.slots[s].None?)
    && (s < |p.pulledBy| && p.slots[s].None? ==> Held(p, s))
  }

  ghost predicate Held(p: Pool, s: nat)
    requires Sized(p) && s < |p.pulledBy|
  {
    var i := p.pulledBy[s];
    && i < |p.workers| && p.cells[i] == Some(s)
    && (p.workers[i] == Running(s) || (p.workers[i].Panicked? && p.joined <= i))
  }

  ghost predicate Inv(p: Pool) {
    && Sized(p) && |p.pulledBy| == (if p.next < |p.names| then p.next else |p.names|)
    && (forall i :: 0 <= i < |p.workers| ==> WorkerInv(p, i))
    && (forall s :: 0 <= s < |p.names| ==> SlotInv(p, s))
    && (forall k :: 0 <= k < |p.stray| ==> IsStray(p, p.stray[k]))
    && (forall j, k :: 0 <= j < k < |p.stray| ==> p.stray[j].worker < p.stray[k].worker)
  }

  // ---------------------------------------------------------------- the steps

  lemma PullKeepsInv(p: Pool, i: nat)
    requires Inv(p) && Enabled(p, Pull(i))
    ensures Inv(Step(p, Pull(i)))
  {
    var q := Step(p, Pull(i));
    assert p.next < |p.names| ==> SlotInv(p, p.next);
    forall j | 0 <= j < |q.workers|
      ensures WorkerInv(q, j)
    {
      assert WorkerInv(p, j);
    }
    forall s | 0 <= s < |q.names|
      ensures SlotInv(q, s)
    {
      assert SlotInv(p, s);
    }
  }

  lemma FileKeepsInv(p: Pool, i: nat, o: PoolSpec.Outcome)
    requires Inv(p) && Enabled(p, File(i, o))
    ensures Inv(Step(p, File(i, o)))
  {
    var q := Step(p, File(i, o));
    assert WorkerInv(p, i);
    forall j | 0 <= j < |q.workers|
      ensures WorkerInv(q, j)
    {
      assert WorkerInv(p, j);
    }
    forall s | 0 <= s < |q.names|
      ensures SlotInv(q, s)
    {
      assert SlotInv(p, s);
    }
  }

  lemma FinishKeepsInv(p: Pool, i: nat)
    requires Inv(p) && Enabled(p, Finish(i))
    ensures Inv(Step(p, Finish(i)))
  {
    var q := Step(p, Finish(i));
    assert WorkerInv(p, i);
    forall j | 0 <= j < |q.workers|
      ensures WorkerInv(q, j)
    {
      assert WorkerInv(p, j);
    }
    forall s | 0 <= s < |q.names|
      ensures SlotInv(q, s)
    {
      assert SlotInv(p, s);
    }
  }

  lemma ErrorKeepsInv(p: Pool, i: nat, error: string)
    requires Inv(p) && Enabled(p, Error(i, error))
    ensures Inv(Step(p, Error(i, error)))
  {
    var q := Step(p, Error(i, error));
    assert WorkerInv(p, i);
    forall j | 0 <= j < |q.workers|
      ensures WorkerInv(q, j)
    {
      assert WorkerInv(p, j);
    }
    forall s | 0 <= s < |q.names|
      ensures SlotInv(q, s)
    {
      assert SlotInv(p, s);
    }
  }

  lemma UnwindKeepsInv(p: Pool, i: nat, text: string)
    requires Inv(p) && Enabled(p, Unwind(i, text))
    ensures Inv(Step(p, Unwind(i, text)))
  {
    var q := Step(p, Unwind(i, text));
    assert WorkerInv(p, i);
    forall j | 0 <= j < |q.workers|
      ensures WorkerInv(q, j)
    {
      assert WorkerInv(p, j);
    }
    forall s | 0 <= s < |q.names|
      ensures SlotInv(q, s)
    {
      assert SlotInv(p, s);
    }
  }

  lemma JoinKeepsWorkers(p: Pool, j: nat)
    requires Inv(p) && Enabled(p, Join) && j < |p.workers|
    ensures WorkerInv(Step(p, Join), j)
  {
    assert WorkerInv(p, p.joined) && WorkerInv(p, j);
  }

  lemma JoinKeepsSlots(p: Pool, s: nat)
    requires Inv(p) && Enabled(p, Join) && s < |p.names|
    ensures SlotInv(Step(p, Join), s)
  {
    assert WorkerInv(p, p.joined) && SlotInv(p, s);
  }

  lemma JoinKeepsStray(p: Pool)
    requires Inv(p) && Enabled(p, Join)
    ensures var q := Step(p, Join);
            && (forall k :: 0 <= k < |q.stray| ==> IsStray(q, q.stray[k]))
            && (forall j, k :: 0 <= j < k < |q.stray| ==> q.stray[j].worker < q.stray[k].worker)
  {
    assert forall k :: 0 <= k < |p.stray| ==> IsStray(p, p.stray[k]);
  }

  lemma JoinKeepsInv(p: Pool)
    requires Inv(p) && Enabled(p, Join)
    ensures Inv(Step(p, Join))
  {
    var q := Step(p, Join);
    JoinKeepsStray(p);
    forall j | 0 <= j < |q.workers|
      ensures WorkerInv(q, j)
    {
      JoinKeepsWorkers(p, j);
    }
    forall s | 0 <= s < |q.names|
      ensures SlotInv(q, s)
    {
      JoinKeepsSlots(p, s);
    }
  }

  lemma StepKeepsInv(p: Pool, e: Event)
    requires Inv(p)
    ensures Inv(Step(p, e))
  {
    if Enabled(p, e) {
      match e
      case Pull(i) => PullKeepsInv(p, i);
      case File(i, o) => FileKeepsInv(p, i, o);
      case Finish(i) => FinishKeepsInv(p, i);
      case Error(i, error) => ErrorKeepsInv(p, i, error);
      case Unwind(i, text) => UnwindKeepsInv(p, i, text);
      case Join => JoinKeepsInv(p);
    }
  }

  lemma {:induction false} RunKeepsInv(names: seq<string>, workers: nat, events: seq<Event>)
    ensures Inv(Run(Init(names, workers), events))
    decreases |events|
  {
    if events != [] {
      RunKeepsInv(names, workers, events[..|events| - 1]);
      StepKeepsInv(Run(Init(names, workers), events[..|events| - 1]), events[|events| - 1]);
    }
  }

  // ----------------------------------------------------------- what the rows say

  lemma RowsAppend(rows: seq<Row>, row: Row)
    ensures RealErrors(rows + [row]) ==
              RealErrors(rows)
              + if row.status.HarnessRow? && !EndsWith(row.status.error, NOT_RUN) then [row.status.error] else []
    ensures NotRun(rows + [row]) ==
              NotRun(rows) + if row.status.HarnessRow? && EndsWith(row.status.error, NOT_RUN) then 1 else 0
  {
    assert (rows + [row])[..|rows|] == rows;
  }

  /** There is no problem to report exactly when there is no stray panic and no harness row. */
  lemma {:induction false} NoProblems(stray: seq<string>, rows: seq<Row>)
    ensures Problems(stray, rows) == [] <==>
              stray == [] && forall i :: 0 <= i < |rows| ==> !rows[i].status.HarnessRow?
    decreases |rows|
  {
    if rows != [] {
      var n := |rows| - 1;
      NoProblems(stray, rows[..n]);
      RowsAppend(rows[..n], rows[n]);
      assert rows == rows[..n] + [rows[n]];
      assert forall i :: 0 <= i < n ==> rows[..n][i] == rows[i];
    }
  }

  /** Every case has a verdict: its own run filed it. */
  ghost predicate AllJudged(p: Pool)
    requires Sized(p)
  {
    forall s :: 0 <= s < |p.names| ==> p.starts[s] == 1 && p.ran[s].Some? && IsVerdict(p.ran[s].value)
  }

  lemma ReportedMeans(p: Pool)
    requires Inv(p)
    ensures RunProblems(p) == None <==> p.stray == [] && AllJudged(p)
    ensures AllJudged(p) ==> p.slots == p.ran
  {
    var rows := Rows(p.names, p.slots);
    NoProblems(StrayTexts(p.stray), rows);
    forall s | 0 <= s < |p.names|
      ensures !rows[s].status.HarnessRow? <==> p.starts[s] == 1 && p.ran[s].Some? && IsVerdict(p.ran[s].value)
    {
      assert SlotInv(p, s);
    }
    if AllJudged(p) {
      forall s | 0 <= s < |p.names|
        ensures p.slots[s] == p.ran[s]
      {
        assert SlotInv(p, s);
      }
    }
  }

  /** After any interleaving: no case is started twice; the harness reports nothing exactly
      when no panic is stray and every case was run once to a verdict, and then the rows
      are those verdicts in case order. */
  lemma CleanMeansEveryCaseJudged(names: seq<string>, workers: nat, events: seq<Event>)
    ensures var p := Run(Init(names, workers), events);
            && p.names == names
            && (forall s :: 0 <= s < |p.names| ==> p.starts[s] <= 1)
            && (RunProblems(p) == None <==> p.stray == [] && AllJudged(p))
            && (AllJudged(p) ==> Rows(names, p.slots) == Rows(names, p.ran))
  {
    var p := Run(Init(names, workers), events);
    RunKeepsInv(names, workers, events);
    RunKeepsNames(names, workers, events);
    ReportedMeans(p);
    forall s | 0 <= s < |p.names|
      ensures p.starts[s] <= 1
    {
      assert SlotInv(p, s);
    }
  }

  lemma {:induction false} RunKeepsNames(names: seq<string>, workers: nat, events: seq<Event>)
    ensures Run(Init(names, workers), events).names == names
    decreases |events|
  {
    if events != [] {
      RunKeepsNames(names, workers, events[..|events| - 1]);
      StepKeepsNames(Run(Init(names, workers), events[..|events| - 1]), events[|events| - 1]);
    }
  }

  lemma StepKeepsNames(p: Pool, e: Event)
    requires Sized(p)
    ensures Step(p, e).names == p.names
  {}

  // ------------------------------------------------------ the rows do not depend on the run

  /** Whenever a worker files an outcome it is the verdict of the case it is running. */
  ghost predicate FilesVerdicts(names: seq<string>, workers: nat, events: seq<Event>,
                                verdicts: seq<PoolSpec.Outcome>)
    requires |verdicts| == |names|
  {
    forall k :: 0 <= k < |events| ==> FilesVerdict(Run(Init(names, workers), events[..k]), events[k], verdicts)
  }

  ghost predicate FilesVerdict(p: Pool, e: Event, verdicts: seq<PoolSpec.Outcome>) {
    e.File? && Enabled(p, e) && p.workers[e.worker].slot < |verdicts| ==>
      e.outcome == verdicts[p.workers[e.worker].slot]
  }

  lemma StepFilesVerdict(p: Pool, e: Event, verdicts: seq<PoolSpec.Outcome>, s: nat)
    requires Sized(p) && s < |p.names| == |verdicts| && FilesVerdict(p, e, verdicts)
    requires p.ran[s].Some? ==> p.ran[s].value == verdicts[s]
    ensures Sized(Step(p, e)) && Step(p, e).names == p.names
    ensures Step(p, e).ran[s].Some? ==> Step(p, e).ran[s].value == verdicts[s]
  {}

  lemma {:induction false} RunsFileVerdicts(names: seq<string>, workers: nat, events: seq<Event>,
                                            verdicts: seq<PoolSpec.Outcome>, s: nat)
    requires |verdicts| == |names| && FilesVerdicts(names, workers, events, verdicts) && s < |names|
    ensures var p := Run(Init(names, workers), events);
            p.names == names && (p.ran[s].Some? ==> p.ran[s].value == verdicts[s])
    decreases |events|
  {
    if events != [] {
      var n := |events| - 1;
      assert forall k :: 0 <= k < n ==> events[..n][..k] == events[..k];
      RunsFileVerdicts(names, workers, events[..n], verdicts, s);
      var q := Run(Init(names, workers), events[..n]);
      assert FilesVerdict(q, events[n], verdicts);
      StepFilesVerdict(q, events[n], verdicts, s);
    }
  }

  lemma RowReports(name: string, o: Option<PoolSpec.Outcome>)
    ensures Reports(RowOf(name, o), name, o)
  {
    if o.None? {
      var text := name + ": " + NOT_RUN;
      assert text[|text| - |NOT_RUN|..] == NOT_RUN;
    }
  }

  /** One more row. */
  lemma PassRowsNext(rows: seq<Row>, row: Row)
    ensures |PassRows(rows + [row])| == |PassRows(rows)| + if row.status.PassRow? then 1 else 0
  {
    var more := rows + [row];
    assert forall i :: 0 <= i < |rows| ==> more[i] == rows[i];
    if row.status.PassRow? {
      assert PassRows(more) == PassRows(rows) + {|rows|};
    } else {
      assert PassRows(more) == PassRows(rows);
    }
  }

  /** A run that reports nothing has the rows of its cases' verdicts, however many workers
      there are and however they interleave. */
  lemma RowsIgnoreInterleaving(names: seq<string>, workers: nat, events: seq<Event>,
                               verdicts: seq<PoolSpec.Outcome>)
    requires |verdicts| == |names| && FilesVerdicts(names, workers, events, verdicts)
    requires RunProblems(Run(Init(names, workers), events)) == None
    ensures var p := Run(Init(names, workers), events);
            && p.names == names
            && Rows(names, p.slots)
               == seq(|names|, s requires 0 <= s < |names| => RowOf(names[s], Some(verdicts[s])))
            && forall s :: 0 <= s < |names| ==> Reports(Rows(names, p.slots)[s], names[s], Some(verdicts[s]))
  {
    var p := Run(Init(names, workers), events);
    RunKeepsInv(names, workers, events);
    RunKeepsNames(names, workers, events);
    ReportedMeans(p);
    forall s | 0 <= s < |names|
      ensures p.slots[s] == Some(verdicts[s]) && Reports(RowOf(names[s], p.slots[s]), names[s], Some(verdicts[s]))
    {
      RunsFileVerdicts(names, workers, events, verdicts, s);
      RowReports(names[s], p.slots[s]);
    }
  }

  /** No two workers are at one case. */
  lemma NoSlotHeldTwice(names: seq<string>, workers: nat, events: seq<Event>, i: nat, j: nat)
    requires var p := Run(Init(names, workers), events);
             && i < |p.workers| && j < |p.workers| && p.cells[i] == p.cells[j]
             && p.cells[i].Some? && p.cells[i].value < |p.names|
    ensures i == j
  {
    var p := Run(Init(names, workers), events);
    RunKeepsInv(names, workers, events);
    assert WorkerInv(p, i) && WorkerInv(p, j);
  }

  lemma SlotStays(p: Pool, e: Event, s: nat)
    requires Inv(p) && s < |p.names| && p.slots[s].Some?
    ensures Step(p, e).names == p.names && Step(p, e).slots[s] == p.slots[s]
  {
    if Enabled(p, e) && (e.File? || e.Error?) {
      assert WorkerInv(p, e.worker);
    }
  }

  lemma {:induction false} FiledStays(p: Pool, events: seq<Event>, s: nat)
    requires Inv(p) && s < |p.names| && p.slots[s].Some?
    ensures var q := Run(p, events); Inv(q) && q.names == p.names && q.slots[s] == p.slots[s]
    decreases |events|
  {
    if events != [] {
      var m := |events| - 1;
      FiledStays(p, events[..m], s);
      SlotStays(Run(p, events[..m]), events[m], s);
      StepKeepsInv(Run(p, events[..m]), events[m]);
    }
  }

  lemma {:induction false} ReturnedStays(p: Pool, events: seq<Event>, i: nat)
    requires Sized(p) && i < |p.workers| && p.workers[i].Returned?
    ensures var q := Run(p, events); |q.workers| == |p.workers| && q.workers[i].Returned?
    decreases |events|
  {
    if events != [] {
      ReturnedStays(p, events[..|events| - 1], i);
    }
  }

  /** A verdict or an error that a case's run ends with is in the case's slot from then on, and
      a worker that met an error pulls no further case. */
  lemma FiledForGood(names: seq<string>, workers: nat, events: seq<Event>, e: Event, more: seq<Event>)
    requires Enabled(Run(Init(names, workers), events), e) && (e.File? || e.Error?)
    ensures var p := Run(Init(names, workers), events);
            var s, q := p.workers[e.worker].slot, Run(Step(p, e), more);
            && s < |q.slots| && q.slots[s] == Some(if e.File? then e.outcome else Harness(e.error))
            && (e.Error? ==> e.worker < |q.workers| && q.workers[e.worker].Returned?)
  {
    var p := Run(Init(names, workers), events);
    RunKeepsInv(names, workers, events);
    StepKeepsInv(p, e);
    FiledStays(Step(p, e), more, p.workers[e.worker].slot);
    if e.Error? {
      ReturnedStays(Step(p, e), more, e.worker);
    }
  }

  /** Once every worker is joined, a slot is empty exactly if no worker ever pulled its case. */
  lemma EmptyMeansNeverPulled(names: seq<string>, workers: nat, events: seq<Event>, s: nat)
    requires var p := Run(Init(names, workers), events); p.joined == |p.workers| && s < |p.names|
    ensures var p := Run(Init(names, workers), events); p.slots[s].None? <==> p.starts[s] == 0
  {
    var p := Run(Init(names, workers), events);
    RunKeepsInv(names, workers, events);
    assert SlotInv(p, s);
    if s < |p.pulledBy| && p.slots[s].None? {
      HeldIsNotJoined(p, s);
    }
  }

  lemma HeldIsNotJoined(p: Pool, s: nat)
    requires Inv(p) && s < |p.pulledBy| && Held(p, s)
    ensures p.joined < |p.workers|
  {
    assert WorkerInv(p, p.pulledBy[s]);
  }

  /** Once every worker is joined: if a worker unwound while its cell named a case, that case
      shows the panic and its text exactly if it had filed no verdict; every other panic, and
      only such, is reported as stray, once. */
  lemma PanicsAreAccountedFor(names: seq<string>, workers: nat, events: seq<Event>, i: nat)
    requires var p := Run(Init(names, workers), events);
             p.joined == |p.workers| && i < |p.workers| && p.workers[i].Panicked?
    ensures var p := Run(Init(names, workers), events);
            if InCase(p, i) then
              var s := p.cells[i].value;
              && p.slots[s].Some? && (p.slots[s].value.Harness? <==> p.ran[s].None?)
              && (p.ran[s].None? ==>
                    p.slots[s] == Some(Harness(RunningText(i, p.names[s], p.workers[i].text))))
              && (forall k :: 0 <= k < |p.stray| ==> p.stray[k].worker != i)
            else
              && Panic(i, p.workers[i].text) in p.stray
              && (forall j, k :: 0 <= j < k < |p.stray| ==> p.stray[j].worker != p.stray[k].worker)
  {
    var p := Run(Init(names, workers), events);
    RunKeepsInv(names, workers, events);
    assert WorkerInv(p, i);
    if InCase(p, i) {
      assert SlotInv(p, p.cells[i].value);
      assert forall k :: 0 <= k < |p.stray| ==> IsStray(p, p.stray[k]);
    }
  }

  lemma RunNext(p: Pool, events: seq<Event>, e: Event)
    requires Sized(p)
    ensures Run(p, events + [e]) == Step(Run(p, events), e)
  {
    assert (events + [e])[..|events|] == events;
  }

  lemma RunOfFour(p: Pool, a: Event, b: Event, c: Event, d: Event)
    requires Sized(p)
    ensures Sized(Step(p, a)) && Sized(Step(Step(p, a), b)) && Sized(Step(Step(Step(p, a), b), c))
    ensures Run(p, [a, b, c, d]) == Step(Step(Step(Step(p, a), b), c), d)
  {
    hide Step;
    var one := [] + [a];
    var two := one + [b];
    var three := two + [c];
    RunNext(p, [], a);
    RunNext(p, one, b);
    RunNext(p, two, c);
    RunNext(p, three, d);
    assert three + [d] == [a, b, c, d];
  }

  /** A run in which a panic leaves no trace: the worker unwinds after its case has passed. */
  lemma APanicIsLost()
    ensures var p := Run(Init(["a.mjs"], 1), [Pull(0), File(0, Pass), Unwind(0, "boom"), Join]);
            && p.joined == |p.workers| == 1 && p.workers[0] == Panicked("boom") && p.cells[0] == Some(0)
            && p.slots == [Some(Pass)] && RunProblems(p) == None
  {
    var p0 := Init(["a.mjs"], 1);
    RunOfFour(p0, Pull(0), File(0, Pass), Unwind(0, "boom"), Join);
    var p := Pool(["a.mjs"], 1, [Panicked("boom")], [Some(0)], [Some(Pass)], 1, [], [1], [Some(Pass)], [0]);
    LosingSteps(p0, p);
    NoProblems(StrayTexts(p.stray), Rows(p.names, p.slots));
  }

  lemma LosingSteps(p0: Pool, p: Pool)
    requires p0 == Init(["a.mjs"], 1)
    requires p == Pool(["a.mjs"], 1, [Panicked("boom")], [Some(0)], [Some(Pass)], 1, [], [1], [Some(Pass)], [0])
    ensures Step(Step(Step(Step(p0, Pull(0)), File(0, Pass)), Unwind(0, "boom")), Join) == p
  {
    assert p0 == Pool(["a.mjs"], 0, [Between], [None], [None], 0, [], [0], [None], []);
    assert Step(p0, Pull(0)) == Pool(["a.mjs"], 1, [Running(0)], [Some(0)], [None], 0, [], [1], [None], [0]);
  }
}
