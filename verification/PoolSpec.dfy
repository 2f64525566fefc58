/** The conformance run's worker pool: threads that pull case numbers from a shared counter,
    file an outcome per case, and may stop on an error or panic at any point. */
module PoolSpec {
  import opened Base

  datatype Outcome = Pass | Watchdog | Timeout | Fail(detail: string) | Harness(error: string)

  predicate IsVerdict(o: Outcome) {
    !o.Harness?
  }

  /** A worker: between cases; running the case it pulled; back from a case whose outcome is
      filed; returned; or unwound. */
  datatype Worker =
    | Between
    | Running(slot: nat)
    | Filed(slot: nat)
    | Returned
    | Panicked(text: string)

  /** A panic for which no case is to blame. */
  datatype Panic = Panic(worker: nat, text: string)

  /** The per-worker cell that says which case is in flight: None for the sentinel. */
  datatype Pool = Pool(
    names: seq<string>,
    next: nat,
    workers: seq<Worker>,
    cells: seq<Option<nat>>,
    slots: seq<Option<Outcome>>,
    joined: nat,
    stray: seq<Panic>,
    // history: how often each case was started, what its own run filed, and who pulled it
    starts: seq<nat>,
    ran: seq<Option<Outcome>>,
    pulledBy: seq<nat>)

  function Init(names: seq<string>, workers: nat): Pool {
    Pool(names, 0, seq(workers, i => Between), seq(workers, i => None), seq(|names|, i => None), 0, [],
         seq(|names|, i => 0), seq(|names|, i => None), [])
  }

  datatype Event =
    | Pull(worker: nat)
    | File(worker: nat, outcome: Outcome)
    | Finish(worker: nat)
    | Error(worker: nat, error: string)
    | Unwind(worker: nat, text: string)
    | Join

  predicate Sized(p: Pool) {
    |p.cells| == |p.workers| && |p.slots| == |p.starts| == |p.ran| == |p.names| && p.joined <= |p.workers|
  }

  function SetWorker(p: Pool, i: nat, w: Worker, cell: Option<nat>): Pool
    requires Sized(p) && i < |p.workers|
  {
    p.(workers := p.workers[i := w], cells := p.cells[i := cell])
  }

  function SetSlot(p: Pool, s: nat, o: Outcome): Pool
    requires Sized(p) && s < |p.names|
  {
    p.(slots := p.slots[s := Some(o)])
  }

  /** Take the next number; past the last case the worker returns with the number in its cell. */
  function PullNext(p: Pool, i: nat): Pool
    requires Sized(p) && i < |p.workers|
  {
    var s := p.next;
    var q := SetWorker(p.(next := s + 1), i, if s < |p.names| then Running(s) else Returned, Some(s));
    if s < |p.names| then q.(starts := q.starts[s := q.starts[s] + 1], pulledBy := q.pulledBy + [i]) else q
  }

  function Decimal(n: nat): string {
    if n < 10 then ["0123456789"[n]] else Decimal(n / 10) + ["0123456789"[n % 10]]
  }

  function RunningText(worker: nat, name: string, text: string): string {
    "worker " + Decimal(worker) + " panicked running " + name + ": " + text
  }

  function StrayText(panic: Panic): string {
    "worker " + Decimal(panic.worker) + " panicked between cases: " + panic.text
  }

  /** A joined worker that unwound is blamed on the case in its cell, unless that has an
      outcome, or reported by itself. */
  function JoinNext(p: Pool): Pool
    requires Sized(p) && p.joined < |p.workers|
  {
    var q := p.(joined := p.joined + 1);
    match p.workers[p.joined]
    case Panicked(text) =>
      var cell := p.cells[p.joined];
      if cell.Some? && cell.value < |p.names| then
        if p.slots[cell.value].Some? then q
        else SetSlot(q, cell.value, Harness(RunningText(p.joined, p.names[cell.value], text)))
      else q.(stray := q.stray + [Panic(p.joined, text)])
    case Between => q
    case Running(_) => q
    case Filed(_) => q
    case Returned => q
  }

  predicate Ended(w: Worker) {
    w.Returned? || w.Panicked?
  }

  predicate Enabled(p: Pool, e: Event) {
    match e
    case Pull(i) => i < |p.workers| && p.workers[i].Between?
    case File(i, o) => i < |p.workers| && p.workers[i].Running? && p.workers[i].slot < |p.names| && IsVerdict(o)
    case Finish(i) => i < |p.workers| && p.workers[i].Filed?
    case Error(i, _) => i < |p.workers| && p.workers[i].Running? && p.workers[i].slot < |p.names|
    case Unwind(i, _) => i < |p.workers| && !Ended(p.workers[i])
    case Join => p.joined < |p.workers| && Ended(p.workers[p.joined])
  }

  function Step(p: Pool, e: Event): Pool
    requires Sized(p)
  {
    if !Enabled(p, e) then p
    else match e
      case Pull(i) => PullNext(p, i)
      case File(i, o) =>
        var s := p.workers[i].slot;
        SetWorker(SetSlot(p, s, o), i, Filed(s), p.cells[i]).(ran := p.ran[s := Some(o)])
      case Finish(i) => SetWorker(p, i, Between, None)
      case Error(i, error) => SetWorker(SetSlot(p, p.workers[i].slot, Harness(error)), i, Returned, None)
      case Unwind(i, text) => SetWorker(p, i, Panicked(text), p.cells[i])
      case Join => JoinNext(p)
  }

  lemma StepSized(p: Pool, e: Event)
    requires Sized(p)
    ensures Sized(Step(p, e))
  {}

  function Run(p: Pool, events: seq<Event>): (q: Pool)
    requires Sized(p)
    ensures Sized(q)
    decreases |events|
  {
    if events == [] then p
    else
      var q := Run(p, events[..|events| - 1]);
      StepSized(q, events[|events| - 1]);
      Step(q, events[|events| - 1])
  }

  // ------------------------------------------------------------------- the rows

  datatype Status = PassRow | WatchdogRow | TimeoutRow | FailRow(detail: string) | HarnessRow(error: string)

  datatype Row = Row(case_: string, status: Status)

  const NOT_RUN := "not run (a worker stopped on an earlier harness error)"

  function RowOf(name: string, o: Option<Outcome>): Row {
    Row(name,
        match o
        case None => HarnessRow(name + ": " + NOT_RUN)
        case Some(Pass) => PassRow
        case Some(Watchdog) => WatchdogRow
        case Some(Timeout) => TimeoutRow
        case Some(Fail(detail)) => FailRow(detail)
        case Some(Harness(error)) => HarnessRow(error))
  }

  function Rows(names: seq<string>, slots: seq<Option<Outcome>>): (r: seq<Row>)
    requires |names| == |slots|
    ensures |r| == |slots|
  {
    seq(|slots|, i requires 0 <= i < |slots| => RowOf(names[i], slots[i]))
  }

  /** What a row says of its case: the verdict, with its detail, or that there is none. */
  ghost predicate Reports(row: Row, name: string, o: Option<Outcome>) {
    && row.case_ == name
    && (row.status.PassRow? <==> o == Some(Pass))
    && (row.status.WatchdogRow? <==> o == Some(Watchdog))
    && (row.status.TimeoutRow? <==> o == Some(Timeout))
    && (row.status.FailRow? <==> o.Some? && o.value.Fail?)
    && (row.status.FailRow? ==> o == Some(Fail(row.status.detail)))
    && (row.status.HarnessRow? <==> o.None? || o.value.Harness?)
    && (row.status.HarnessRow? && o.Some? ==> o == Some(Harness(row.status.error)))
    && (o.None? ==> EndsWith(row.status.error, NOT_RUN))
  }

  /** The rows of cases that passed. */
  function PassRows(rows: seq<Row>): set<int> {
    set i | 0 <= i < |rows| && rows[i].status.PassRow?
  }

  // --------------------------------------------------------------- the problems

  predicate EndsWith(s: string, end: string) {
    |end| <= |s| && s[|s| - |end|..] == end
  }

  function RealErrors(rows: seq<Row>): seq<string> {
    if rows == [] then []
    else
      var last := rows[|rows| - 1].status;
      RealErrors(rows[..|rows| - 1])
      + if last.HarnessRow? && !EndsWith(last.error, NOT_RUN) then [last.error] else []
  }

  function NotRun(rows: seq<Row>): nat {
    if rows == [] then 0
    else
      var last := rows[|rows| - 1].status;
      NotRun(rows[..|rows| - 1]) + if last.HarnessRow? && EndsWith(last.error, NOT_RUN) then 1 else 0
  }

  /** The stray panics, the real errors, then the cases nobody ran as one count. */
  function Problems(stray: seq<string>, rows: seq<Row>): seq<string> {
    stray + RealErrors(rows) + if NotRun(rows) > 0 then [Decimal(NotRun(rows)) + " case(s) not run"] else []
  }

  function StrayTexts(stray: seq<Panic>): (r: seq<string>)
    ensures |r| == |stray|
  {
    seq(|stray|, i requires 0 <= i < |stray| => StrayText(stray[i]))
  }

  /** The text a run fails with; None for a clean run. */
  function RunProblems(p: Pool): Option<string>
    requires Sized(p)
  {
    HarnessProblems(StrayTexts(p.stray), Rows(p.names, p.slots))
  }

  function JoinTexts(texts: seq<string>): string {
    if texts == [] then ""
    else if |texts| == 1 then texts[0]
    else JoinTexts(texts[..|texts| - 1]) + "; " + texts[|texts| - 1]
  }

  function HarnessProblems(stray: seq<string>, rows: seq<Row>): Option<string> {
    var problems := Problems(stray, rows);
    if problems == [] then None else Some(JoinTexts(problems))
  }
}
