/** The collection of a module graph as the loader runs it: a set and a list of jobs that the
    calls grow, counters that their callbacks lower, and one instantiation. */
module GraphObject {
  import opened Base
  import opened GraphSpec
  import P = GraphProofs

  class Instantiation {
    const root: Job
    var links: map<Job, Link>
    var jobsInGraph: set<Job>
    var jobs: seq<Job>
    var calls: map<Job, Call>
    var result: Result
    var instantiations: nat
    var instantiated: set<Job>

    ghost function View(): Graph
      reads this
    {
      Graph(root, links, jobs, calls, result, instantiations, instantiated)
    }

    /** The set and the list hold the same jobs: those with a call. */
    ghost predicate Valid()
      reads this
    {
      P.Inv(View()) && jobsInGraph == calls.Keys
    }

    constructor (root: Job)
      ensures Valid() && View() == Init(root)
    {
      this.root, links, jobsInGraph, jobs := root, map[], {root}, [root];
      calls, result, instantiations, instantiated := map[root := AwaitingLink], NotYet, 0, {};
      new;
      P.RunKeepsInv(root, []);
      assert calls.Keys == {root};
    }

    /** Somebody's `linked` promise settles. */
    method LinkSettled(j: Job, link: Link)
      requires Valid() && Enabled(View(), LinkSettles(j, link))
      modifies this
      ensures Valid() && View() == Step(old(View()), LinkSettles(j, link))
    {
      P.StepKeepsInv(View(), LinkSettles(j, link));
      links := links[j := link];
    }

    /** One call of addJobsToDependencyGraph: true if it added the job. */
    method Add(j: Job) returns (added: bool)
      requires jobsInGraph == calls.Keys
      modifies this`jobsInGraph, this`jobs, this`calls
      ensures jobsInGraph == calls.Keys && View() == AddJob(old(View()), j)
      ensures added == (j !in old(calls))
    {
      if j in jobsInGraph {
        return false;
      }
      jobsInGraph := jobsInGraph + {j};
      jobs := jobs + [j];
      calls := calls[j := AwaitingLink];
      return true;
    }

    /** The calls for every dependency, in order. */
    method AddAll(deps: seq<Job>) returns (children: seq<Child>)
      requires jobsInGraph == calls.Keys
      modifies this`jobsInGraph, this`jobs, this`calls
      ensures jobsInGraph == calls.Keys && View() == AddJobs(old(View()), deps)
      ensures children == Children(old(View()), deps)
    {
      children := [];
      for i := 0 to |deps|
        invariant jobsInGraph == calls.Keys && View() == AddJobs(old(View()), deps[..i])
        invariant children == Children(old(View()), deps[..i])
      {
        var added := Add(deps[i]);
        children := children + [Child(deps[i], added, false)];
        assert deps[..i + 1][..i] == deps[..i];
      }
      assert deps[..|deps|] == deps;
    }

    /** The call that added `j` goes on after `await linked`. */
    method ResumeCall(j: Job)
      requires Valid() && Enabled(View(), CallResumes(j))
      modifies this
      ensures Valid() && View() == Step(old(View()), CallResumes(j))
    {
      P.StepKeepsInv(View(), CallResumes(j));
      match links[j]
      case LinkFailed(reason) => SetOwnCall(j, NotAdded(reason));
      case Linked(deps) =>
        P.AddJobsGrows(View(), deps);
        var children := AddAll(deps);
        SetOwnCall(j, if |deps| == 0 then Added(children) else AwaitingDeps(children, |deps|));
      case Unsettled =>
    }

    method SetOwnCall(j: Job, call: Call)
      requires jobsInGraph == calls.Keys && j in calls
      modifies this`calls
      ensures jobsInGraph == calls.Keys && View() == SetCall(old(View()), j, call)
    {
      calls := calls[j := call];
      assert calls.Keys == old(calls).Keys;
    }

    /** A dependency's call settled: count it, or fail with it. */
    method ChildSettled(j: Job, k: nat)
      requires Valid() && Enabled(View(), ChildSettlementSeen(j, k))
      modifies this
      ensures Valid() && View() == Step(old(View()), ChildSettlementSeen(j, k))
    {
      P.StepKeepsInv(View(), ChildSettlementSeen(j, k));
      P.PendingAtLeastOne(View(), j);
      CountChild(j, k);
    }

    method CountChild(j: Job, k: nat)
      requires jobsInGraph == calls.Keys && j in calls && calls[j].AwaitingDeps? && calls[j].pending >= 1
      requires k < |calls[j].children| && ChildResult(View(), calls[j].children[k]).Some?
      modifies this`calls
      ensures jobsInGraph == calls.Keys && View() == ChildSettles(old(View()), j, k)
    {
      var call := calls[j];
      var child := call.children[k];
      if child.added && calls[child.job].NotAdded? {
        SetOwnCall(j, NotAdded(calls[child.job].reason));
      } else {
        var children := call.children[k := child.(counted := true)];
        var pending := call.pending - 1;
        SetOwnCall(j, if pending == 0 then Added(children) else AwaitingDeps(children, pending));
      }
    }

    /** The root's call settled: instantiate, then mark every job collected. */
    method RootSettled(r: Settlement)
      requires Valid() && Enabled(View(), RootSettlementSeen(r))
      modifies this
      ensures Valid() && View() == Step(old(View()), RootSettlementSeen(r))
    {
      P.StepKeepsInv(View(), RootSettlementSeen(r));
      Finish(r);
    }

    method Finish(r: Settlement)
      requires root in calls && (calls[root].Added? || calls[root].NotAdded?) && instantiated == {}
      modifies this`result, this`instantiations, this`instantiated
      ensures View() == Conclude(old(View()), r)
    {
      if calls[root].NotAdded? {
        result := RejectedWith(calls[root].reason);
        return;
      }
      instantiations := instantiations + 1;
      if r.Failed? {
        result := RejectedWith(r.error);
        return;
      }
      MarkInstantiated();
      result := Instantiated;
    }

    method MarkInstantiated()
      requires instantiated == {}
      modifies this`instantiated
      ensures instantiated == JobSet(jobs)
    {
      for i := 0 to |jobs|
        invariant instantiated == JobSet(jobs[..i])
      {
        instantiated := instantiated + {jobs[i]};
        assert jobs[..i + 1] == jobs[..i] + [jobs[i]];
      }
      assert jobs[..|jobs|] == jobs;
    }
  }
}
