/** Instantiating a module graph: what holds after any sequence of link settlements and
    callbacks, for every dependency graph, cycles included. */
module GraphTheorems {
  import opened Base
  import opened GraphSpec
  import opened GraphProofs

  lemma FinishedJobLinked(g: Graph, j: Job)
    requires Inv(g) && g.calls[g.root].Added? && j in g.jobs
    ensures LinkOf(g, j).Linked?
    ensures forall d :: d in LinkOf(g, j).deps ==> d in g.jobs
  {
    var i := IndexOf(g.jobs, j);
    AllAdded(g, i);
    assert CallInv(g, i);
    var deps := LinkOf(g, j).deps;
    forall d | d in deps
      ensures d in g.jobs
    {
      var k := IndexOf(deps, d);
      assert g.calls[j].children[k].job == d;
    }
  }

  /** Every job reachable from the root is linked, and the list holds exactly those jobs. */
  ghost predicate Complete(g: Graph) {
    && NoDuplicates(g.jobs)
    && (forall j :: j in g.jobs ==> Reachable(g, j))
    && (forall j :: Reachable(g, j) ==> j in g.jobs && LinkOf(g, j).Linked?)
  }

  lemma FinishedComplete(g: Graph)
    requires Inv(g) && g.calls[g.root].Added?
    ensures Complete(g)
  {
    forall j, d | j in g.jobs && LinkOf(g, j).Linked? && d in LinkOf(g, j).deps
      ensures d in g.jobs
    {
      FinishedJobLinked(g, j);
    }
    forall j | Reachable(g, j)
      ensures j in g.jobs && LinkOf(g, j).Linked?
    {
      var path :| Path(g, path) && path[|path| - 1] == j;
      ClosedHoldsPath(g, g.jobs, path);
      FinishedJobLinked(g, j);
    }
    forall j | j in g.jobs
      ensures Reachable(g, j)
    {
      var i := IndexOf(g.jobs, j);
    }
  }

  /** The host's instantiate is called at most once, and only when every reachable job has
      linked; the jobs then marked are the reachable ones, each listed once. */
  lemma InstantiatesTheLinkedGraph(root: Job, events: seq<Event>)
    ensures var g := Run(Init(root), events);
            && g.instantiations <= 1
            && (g.instantiations == 1 ==> Complete(g))
            && (g.result.Instantiated? ==> g.instantiations == 1 && g.instantiated == JobSet(g.jobs))
            && (!g.result.Instantiated? ==> g.instantiated == {})
  {
    var g := Run(Init(root), events);
    RunKeepsInv(root, events);
    if g.instantiations == 1 {
      FinishedComplete(g);
    }
  }

  /** A reachable job that failed to link rules the call out, before and ever after. */
  lemma FailedLinkNeverInstantiates(root: Job, events: seq<Event>, j: Job)
    requires var g := Run(Init(root), events); Reachable(g, j) && LinkOf(g, j).LinkFailed?
    ensures Run(Init(root), events).instantiations == 0
  {
    InstantiatesTheLinkedGraph(root, events);
  }

  /** Without a call, the promise is rejected only with the reason of a reachable failure. */
  lemma RejectsForAReachableFailure(root: Job, events: seq<Event>)
    requires var g := Run(Init(root), events); g.result.RejectedWith? && g.instantiations == 0
    ensures var g := Run(Init(root), events); FailsFor(g, g.result.reason)
  {
    RunKeepsInv(root, events);
    assert CallInv(Run(Init(root), events), 0);
  }

  /** The event is the host's instantiate ending so. */
  predicate HostEnds(e: Event, result: Result) {
    e.RootSettlementSeen? && result == match e.r case Ok => Instantiated case Failed(reason) => RejectedWith(reason)
  }

  /** With a call, the promise settles as the host's instantiate did. */
  lemma {:induction false} HostDecides(root: Job, events: seq<Event>)
    requires Run(Init(root), events).instantiations > 0
    ensures exists k :: 0 <= k < |events| && HostEnds(events[k], Run(Init(root), events).result)
    decreases |events|
  {
    var n := |events| - 1;
    var g := Run(Init(root), events[..n]);
    RunKeepsInv(root, events[..n]);
    if g.instantiations > 0 {
      HostDecides(root, events[..n]);
      var k :| 0 <= k < n && HostEnds(events[..n][k], g.result);
      StepKeepsResult(g, events[n]);
      assert HostEnds(events[k], g.result);
    } else {
      StepCallsHost(g, events[n]);
      assert HostEnds(events[n], Step(g, events[n]).result);
    }
  }

  lemma {:induction false} AddJobsKeepsResult(g: Graph, deps: seq<Job>)
    ensures var h := AddJobs(g, deps); h.result == g.result && h.instantiations == g.instantiations
  {
    if deps != [] {
      AddJobsKeepsResult(g, deps[..|deps| - 1]);
    }
  }

  lemma ResumeKeepsResult(g: Graph, j: Job)
    ensures var h := Resume(g, j); h.result == g.result && h.instantiations == g.instantiations
  {
    if LinkOf(g, j).Linked? {
      AddJobsKeepsResult(g, LinkOf(g, j).deps);
    }
  }

  lemma StepKeepsResult(g: Graph, e: Event)
    requires Inv(g) && g.instantiations > 0
    ensures Step(g, e).result == g.result
  {
    if e.CallResumes? {
      ResumeKeepsResult(g, e.job);
    }
  }

  lemma StepCallsHost(g: Graph, e: Event)
    requires g.instantiations == 0
    ensures Step(g, e).instantiations > 0 ==> HostEnds(e, Step(g, e).result)
  {
    if e.CallResumes? {
      ResumeKeepsResult(g, e.job);
    }
  }

  // ------------------------------------------------------------------ progress

  predicate Settled(call: Call) {
    call.Added? || call.NotAdded?
  }

  /** The last call in the list that has not settled, if there is one. */
  lemma {:induction false} LastUnsettled(g: Graph, n: nat) returns (i: nat)
    requires Inv(g) && n <= |g.jobs|
    requires exists m :: 0 <= m < n && !Settled(g.calls[g.jobs[m]])
    requires forall m :: n <= m < |g.jobs| ==> Settled(g.calls[g.jobs[m]])
    ensures i < |g.jobs| && !Settled(g.calls[g.jobs[i]])
    ensures forall m :: i < m < |g.jobs| ==> Settled(g.calls[g.jobs[m]])
    decreases n
  {
    i := n - 1;
    if Settled(g.calls[g.jobs[i]]) {
      i := LastUnsettled(g, i);
    }
  }

  /** A cycle never blocks: while the result is open and every listed job's link has
      settled, some callback can run. */
  lemma NeverStuck(root: Job, events: seq<Event>) returns (e: Event)
    requires var g := Run(Init(root), events);
             g.result.NotYet? && forall j :: j in g.jobs ==> !LinkOf(g, j).Unsettled?
    ensures Enabled(Run(Init(root), events), e) && !e.LinkSettles?
  {
    RunKeepsInv(root, events);
    e := SomeCallback(Run(Init(root), events));
  }

  lemma SomeCallback(g: Graph) returns (e: Event)
    requires Inv(g) && g.result.NotYet? && forall j :: j in g.jobs ==> !LinkOf(g, j).Unsettled?
    ensures Enabled(g, e) && !e.LinkSettles?
  {
    if Settled(g.calls[g.root]) {
      e := RootSettlementSeen(Ok);
    } else {
      assert !Settled(g.calls[g.jobs[0]]);
      var i := LastUnsettled(g, |g.jobs|);
      assert CallInv(g, i);
      if g.calls[g.jobs[i]].AwaitingLink? {
        e := CallResumes(g.jobs[i]);
      } else {
        var children := g.calls[g.jobs[i]].children;
        var k := SomeUncounted(children);
        e := ChildSettlementSeen(g.jobs[i], k);
        if children[k].added {
          var m :| i + 1 <= m < |g.jobs| && g.jobs[m] == children[k].job;
          assert Settled(g.calls[g.jobs[m]]);
        }
      }
    }
  }
}
