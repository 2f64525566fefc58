/** ModuleJob._link() and SafePromiseAllReturnArrayLike(): a job is found for each request of a
    module, its module awaited, and once all are there the module is linked; in any order. */
module LinkSpec {
  import opened Base

  type Job = nat
  type Module = string

  datatype Result = Open | Linked(jobs: seq<Job>) | LinkFails(reason: Reason)

  /** `modules` is the array the promise helper fills, `pending` its counter. */
  datatype Linking = Linking(
    jobs: seq<Option<Job>>,
    modules: seq<Option<Module>>,
    failed: seq<bool>,
    pending: nat,
    all: Result,
    // the lists the host's link was called with, once per call
    calls: seq<seq<Module>>,
    result: Result)

  function Blank<T>(n: nat): (r: seq<Option<T>>)
    ensures |r| == n
  {
    seq(n, i => None)
  }

  function Values<T>(s: seq<Option<T>>): (r: seq<T>)
    requires forall i :: 0 <= i < |s| ==> s[i].Some?
    ensures |r| == |s|
  {
    seq(|s|, i requires 0 <= i < |s| => s[i].value)
  }

  /** No requests: the helper's promise is resolved from the start. */
  function Init(requests: nat): Linking {
    Linking(Blank(requests), Blank(requests), seq(requests, i => false), requests,
            if requests == 0 then Linked([]) else Open, [], Open)
  }

  predicate Full<T>(s: seq<Option<T>>) {
    forall i :: 0 <= i < |s| ==> s[i].Some?
  }

  datatype Event =
    | JobFound(request: nat, job: Job)
    | ModuleReady(request: nat, module_: Module)
    | RequestFails(request: nat, reason: Reason)
    | AllSeen(link: Settlement)

  predicate Sized(l: Linking) {
    |l.jobs| == |l.modules| == |l.failed|
  }

  /** Each request's promise settles once, and its module comes after its job. */
  predicate Enabled(l: Linking, e: Event, moduleOf: Job -> Module)
    requires Sized(l)
  {
    match e
    case JobFound(i, _) => i < |l.jobs| && l.jobs[i].None? && !l.failed[i]
    case ModuleReady(i, m) =>
      i < |l.jobs| && l.jobs[i].Some? && l.modules[i].None? && !l.failed[i] && m == moduleOf(l.jobs[i].value)
    case RequestFails(i, _) => i < |l.jobs| && l.modules[i].None? && !l.failed[i]
    case AllSeen(_) => l.result.Open? && !l.all.Open?
  }

  /** A module arrives: it is filed under its request, and the last one resolves the helper's
      promise, unless a failure was first. */
  function FileModule(l: Linking, i: nat, m: Module): Linking
    requires Sized(l) && i < |l.jobs|
  {
    var modules := l.modules[i := Some(m)];
    var pending := if l.pending == 0 then 0 else l.pending - 1;
    l.(modules := modules, pending := pending,
       all := if pending == 0 && l.all.Open? && Full(l.jobs) then Linked(Values(l.jobs)) else l.all)
  }

  function Step(l: Linking, e: Event, moduleOf: Job -> Module): Linking
    requires Sized(l)
  {
    if !Enabled(l, e, moduleOf) then l
    else match e
      case JobFound(i, job) => l.(jobs := l.jobs[i := Some(job)])
      case ModuleReady(i, m) => FileModule(l, i, m)
      case RequestFails(i, reason) =>
        l.(failed := l.failed[i := true], all := if l.all.Open? then LinkFails(reason) else l.all)
      case AllSeen(link) =>
        if l.all.LinkFails? then l.(result := l.all)
        else if Full(l.modules) then
          l.(calls := l.calls + [Values(l.modules)], result := if link.Ok? then l.all else LinkFails(link.error))
        else l
  }

  function Run(l: Linking, events: seq<Event>, moduleOf: Job -> Module): (r: Linking)
    requires Sized(l)
    ensures Sized(r)
    decreases |events|
  {
    if events == [] then l
    else Step(Run(l, events[..|events| - 1], moduleOf), events[|events| - 1], moduleOf)
  }

  // ------------------------------------------------------------- what holds

  function Missing(s: seq<Option<Module>>): nat {
    if s == [] then 0 else Missing(s[..|s| - 1]) + if s[|s| - 1].None? then 1 else 0
  }

  lemma {:induction false} FiledOne(s: seq<Option<Module>>, i: nat, m: Module)
    requires i < |s| && s[i].None?
    ensures Missing(s[i := Some(m)]) == Missing(s) - 1
    decreases |s|
  {
    var n := |s| - 1;
    if i < n {
      FiledOne(s[..n], i, m);
      assert s[i := Some(m)][..n] == s[..n][i := Some(m)];
    } else {
      assert s[i := Some(m)][..n] == s[..n];
    }
  }

  lemma {:induction false} NoneMissing(s: seq<Option<Module>>)
    ensures Missing(s) == 0 <==> Full(s)
  {
    if s != [] {
      var n := |s| - 1;
      NoneMissing(s[..n]);
      assert Full(s) <==> Full(s[..n]) && s[n].Some? by {
        assert forall i :: 0 <= i < n ==> s[..n][i] == s[i];
      }
    }
  }

  lemma {:induction false} AllMissing(n: nat)
    ensures Missing(Blank(n)) == n
  {
    if n > 0 {
      AllMissing(n - 1);
      assert Blank<Module>(n)[..n - 1] == Blank<Module>(n - 1);
    }
  }

  /** Each module filed is that of the job found for the same request. */
  ghost predicate Inv(l: Linking, moduleOf: Job -> Module) {
    && Sized(l)
    && l.pending == Missing(l.modules)
    && (forall i :: 0 <= i < |l.jobs| && l.modules[i].Some? ==>
          l.jobs[i].Some? && l.modules[i].value == moduleOf(l.jobs[i].value) && !l.failed[i])
    && (true in l.failed <==> l.all.LinkFails?)
    && (l.all.Linked? ==> Full(l.modules) && Full(l.jobs) && l.all.jobs == Values(l.jobs))
    && (l.all.Open? ==> l.pending > 0)
    && (!l.result.Open? ==> !l.all.Open? && (l.result == l.all || l.result.LinkFails?))
    && (if l.all.Linked? && !l.result.Open? then l.calls == [ModulesOf(l.all.jobs, moduleOf)] else l.calls == [])
  }

  function ModulesOf(jobs: seq<Job>, moduleOf: Job -> Module): (r: seq<Module>)
    ensures |r| == |jobs|
  {
    seq(|jobs|, i requires 0 <= i < |jobs| => moduleOf(jobs[i]))
  }

  lemma InitInv(requests: nat, moduleOf: Job -> Module)
    ensures Inv(Init(requests), moduleOf)
  {
    AllMissing(requests);
  }

  lemma FileModuleKeepsInv(l: Linking, i: nat, m: Module, moduleOf: Job -> Module)
    requires Inv(l, moduleOf) && Enabled(l, ModuleReady(i, m), moduleOf)
    ensures Inv(FileModule(l, i, m), moduleOf)
  {
    FiledOne(l.modules, i, m);
    NoneMissing(l.modules[i := Some(m)]);
    NoneMissing(l.modules);
  }

  lemma StepKeepsInv(l: Linking, e: Event, moduleOf: Job -> Module)
    requires Inv(l, moduleOf)
    ensures Inv(Step(l, e, moduleOf), moduleOf)
  {
    if Enabled(l, e, moduleOf) {
      match e
      case JobFound(i, job) => assert !l.all.Linked?;
      case ModuleReady(i, m) => FileModuleKeepsInv(l, i, m, moduleOf);
      case RequestFails(i, reason) =>
        assert !l.all.Linked?;
        assert l.failed[i := true][i];
      case AllSeen(_) =>
        if l.all.Linked? {
          assert Values(l.modules) == ModulesOf(l.all.jobs, moduleOf);
        }
    }
  }

  lemma {:induction false} RunKeepsInv(requests: nat, events: seq<Event>, moduleOf: Job -> Module)
    ensures Inv(Run(Init(requests), events, moduleOf), moduleOf)
    decreases |events|
  {
    if events == [] {
      InitInv(requests, moduleOf);
    } else {
      RunKeepsInv(requests, events[..|events| - 1], moduleOf);
      StepKeepsInv(Run(Init(requests), events[..|events| - 1], moduleOf), events[|events| - 1], moduleOf);
    }
  }

  /** In whatever order jobs are found and modules arrive: the host's link is called at most
      once, only with every module there, in the order of the requests and each that of its
      request's job, and never after a failure; the job is then linked to those jobs, unless
      that call threw. */
  lemma LinksInRequestOrder(requests: nat, events: seq<Event>, moduleOf: Job -> Module)
    ensures var l := Run(Init(requests), events, moduleOf);
            && (l.calls == [] || (Full(l.jobs) && l.calls == [ModulesOf(Values(l.jobs), moduleOf)]))
            && (true in l.failed ==> l.calls == [])
            && (l.result.Linked? ==> l.calls != [] && l.result.jobs == Values(l.jobs))
            && (l.calls != [] ==> !l.result.Open?)
  {
    RunKeepsInv(requests, events, moduleOf);
  }

  /** How the linking ends is how that call ended, or the first failure. */
  lemma LinkDecides(requests: nat, events: seq<Event>, moduleOf: Job -> Module, link: Settlement)
    requires var l := Run(Init(requests), events, moduleOf); Enabled(l, AllSeen(link), moduleOf)
    ensures var l := Run(Init(requests), events, moduleOf);
            var next := Step(l, AllSeen(link), moduleOf);
            && !next.result.Open?
            && (next.calls != [] <==> true !in l.failed)
            && (next.result.Linked? <==> true !in l.failed && link.Ok?)
  {
    RunKeepsInv(requests, events, moduleOf);
  }

  /** The linking has failed so: because a request did, or the host's link threw. */
  ghost predicate FailedSo(l: Linking, events: seq<Event>) {
    && (l.all.LinkFails? ==>
          exists k :: 0 <= k < |events| && events[k].RequestFails? && events[k].reason == l.all.reason)
    && (l.result.LinkFails? && l.all.LinkFails? ==> l.result == l.all)
    && (l.result.LinkFails? && l.all.Linked? ==>
          exists k :: 0 <= k < |events| && events[k] == AllSeen(Failed(l.result.reason)))
  }

  /** A linking that fails does so with the reason of a request that failed, or of the host's
      link if that was called. */
  lemma {:induction false} FailsWithItsCause(requests: nat, events: seq<Event>, moduleOf: Job -> Module)
    ensures FailedSo(Run(Init(requests), events, moduleOf), events)
    decreases |events|
  {
    if events != [] {
      var n := |events| - 1;
      FailsWithItsCause(requests, events[..n], moduleOf);
      var l := Run(Init(requests), events[..n], moduleOf);
      RunKeepsInv(requests, events[..n], moduleOf);
      StepFailsSo(l, events[..n], events[n], moduleOf);
      assert events[..n] + [events[n]] == events;
    }
  }

  lemma StepFailsSo(l: Linking, events: seq<Event>, e: Event, moduleOf: Job -> Module)
    requires Inv(l, moduleOf) && FailedSo(l, events)
    ensures FailedSo(Step(l, e, moduleOf), events + [e])
  {
    var all := events + [e];
    assert all[|events|] == e;
    assert forall k :: 0 <= k < |events| ==> all[k] == events[k];
  }

  /** What the helper's promise and the linking have settled with stays. */
  lemma {:induction false} LinkingSettlesOnce(l: Linking, events: seq<Event>, moduleOf: Job -> Module)
    requires Sized(l)
    ensures !l.all.Open? ==> Run(l, events, moduleOf).all == l.all
    ensures !l.result.Open? ==> Run(l, events, moduleOf).result == l.result
    decreases |events|
  {
    if events != [] {
      LinkingSettlesOnce(l, events[..|events| - 1], moduleOf);
    }
  }
}
