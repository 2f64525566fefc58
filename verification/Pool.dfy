/** Turning the pool's slots into rows, and the text a run ends with if something went wrong. */
module PoolMethods {
  import opened Base
  import opened PoolSpec
  import opened PoolProofs

  /** The cases the watchdog cut on both sides. */
  function Watched(names: seq<string>, slots: seq<Option<PoolSpec.Outcome>>): seq<string>
    requires |names| == |slots|
  {
    if slots == [] then []
    else
      Watched(names[..|names| - 1], slots[..|slots| - 1])
      + if slots[|slots| - 1] == Some(Watchdog) then [names[|names| - 1]] else []
  }

  /** Each slot is taken, leaving it empty, and becomes the row of its case. */
  method Reassemble(slots: array<Option<PoolSpec.Outcome>>, names: seq<string>)
    returns (rows: seq<Row>, pass: nat, watchdog: seq<string>)
    requires slots.Length == |names|
    modifies slots
    ensures rows == Rows(names, old(slots[..]))
    ensures forall i :: 0 <= i < |names| ==> Reports(rows[i], names[i], old(slots[i]))
    ensures pass == |PassRows(rows)| && watchdog == Watched(names, old(slots[..]))
    ensures forall i :: 0 <= i < slots.Length ==> slots[i].None?
  {
    rows, pass, watchdog := [], 0, [];
    ghost var was := slots[..];
    for i := 0 to slots.Length
      invariant was == old(slots[..])
      invariant rows == Rows(names[..i], was[..i])
      invariant forall k :: 0 <= k < i ==> Reports(rows[k], names[k], was[k])
      invariant pass == |PassRows(rows)| && watchdog == Watched(names[..i], was[..i])
      invariant forall k :: 0 <= k < i ==> slots[k].None?
      invariant forall k :: i <= k < slots.Length ==> slots[k] == was[k]
    {
      var outcome := slots[i];
      slots[i] := None;
      assert was[..i + 1][..i] == was[..i] && names[..i + 1][..i] == names[..i];
      RowReports(names[i], outcome);
      PassRowsNext(rows, RowOf(names[i], outcome));
      rows := rows + [RowOf(names[i], outcome)];
      if outcome == Some(Pass) {
        pass := pass + 1;
      } else if outcome == Some(Watchdog) {
        watchdog := watchdog + [names[i]];
      }
    }
    assert was[..slots.Length] == was && names[..slots.Length] == names;
  }

  /** The real errors after the stray ones, and how many cases nobody ran. */
  method CollectErrors(stray: seq<string>, rows: seq<Row>) returns (problems: seq<string>, notRun: nat)
    ensures problems == stray + RealErrors(rows) && notRun == NotRun(rows)
  {
    problems, notRun := stray, 0;
    for i := 0 to |rows|
      invariant problems == stray + RealErrors(rows[..i]) && notRun == NotRun(rows[..i])
    {
      RowsAppend(rows[..i], rows[i]);
      assert rows[..i + 1] == rows[..i] + [rows[i]];
      if rows[i].status.HarnessRow? {
        if EndsWith(rows[i].status.error, NOT_RUN) {
          notRun := notRun + 1;
        } else {
          problems := problems + [rows[i].status.error];
        }
      }
    }
    assert rows[..|rows|] == rows;
  }

  /** The text the run fails with; None for a clean run. */
  method FindProblems(stray: seq<string>, rows: seq<Row>) returns (r: Option<string>)
    ensures r == HarnessProblems(stray, rows)
    ensures r.None? <==> stray == [] && forall i :: 0 <= i < |rows| ==> !rows[i].status.HarnessRow?
  {
    var problems, notRun := CollectErrors(stray, rows);
    assert problems + [] == problems;
    if notRun > 0 {
      problems := problems + [Decimal(notRun) + " case(s) not run"];
    }
    assert problems == Problems(stray, rows);
    NoProblems(stray, rows);
    r := if problems == [] then None else Some(JoinTexts(problems));
  }
}
