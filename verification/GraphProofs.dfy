/** What every order of link and callback settlements keeps while a graph is collected. */
module GraphProofs {
  import opened Base
  import opened GraphSpec

  // ------------------------------------------------------------- reachability

  /** A chain of dependencies from the root, each link of it settled. */
  ghost predicate Path(g: Graph, path: seq<Job>) {
    && path != [] && path[0] == g.root
    && forall i :: 0 <= i < |path| - 1 ==> LinkOf(g, path[i]).Linked? && path[i + 1] in LinkOf(g, path[i]).deps
  }

  ghost predicate Reachable(g: Graph, j: Job) {
    exists path :: Path(g, path) && path[|path| - 1] == j
  }

  lemma RootReachable(g: Graph)
    ensures Reachable(g, g.root)
  {
    assert Path(g, [g.root]);
    assert [g.root][|[g.root]| - 1] == g.root;
  }

  lemma DependencyReachable(g: Graph, j: Job, d: Job)
    requires Reachable(g, j) && LinkOf(g, j).Linked? && d in LinkOf(g, j).deps
    ensures Reachable(g, d)
  {
    var path :| Path(g, path) && path[|path| - 1] == j;
    var longer := path + [d];
    assert Path(g, longer);
    assert longer[|longer| - 1] == d;
  }

  /** Links only settle, so what is reachable stays so. */
  ghost predicate Extends(g: Graph, h: Graph) {
    g.root == h.root && forall j: Job :: !LinkOf(g, j).Unsettled? ==> LinkOf(h, j) == LinkOf(g, j)
  }

  lemma StaysReachable(g: Graph, h: Graph, j: Job)
    requires Extends(g, h) && Reachable(g, j)
    ensures Reachable(h, j)
  {
    var path :| Path(g, path) && path[|path| - 1] == j;
    assert Path(h, path);
  }

  /** A set that holds the root and every dependency of its members holds what is reachable. */
  lemma {:induction false} ClosedHoldsPath(g: Graph, s: seq<Job>, path: seq<Job>)
    requires g.root in s && Path(g, path)
    requires forall j, d :: j in s && LinkOf(g, j).Linked? && d in LinkOf(g, j).deps ==> d in s
    ensures path[|path| - 1] in s
    decreases |path|
  {
    var n := |path| - 1;
    if n > 0 {
      assert Path(g, path[..n]);
      ClosedHoldsPath(g, s, path[..n]);
      assert path[..n][n - 1] == path[n - 1];
    }
  }

  // ------------------------------------------------------------ the invariant

  function Uncounted(children: seq<Child>): nat {
    if children == [] then 0
    else Uncounted(children[..|children| - 1]) + if children[|children| - 1].counted then 0 else 1
  }

  /** The list names every job with a call, once, the root first. */
  ghost predicate Listed(g: Graph) {
    && NoDuplicates(g.jobs) && g.jobs != [] && g.jobs[0] == g.root
    && forall j :: j in g.calls <==> j in g.jobs
  }

  /** The calls made for a job's dependencies: one each, in order; the jobs they added stand
      later in the list, and a counted one has finished. */
  ghost predicate Waits(g: Graph, i: nat, children: seq<Child>)
    requires i < |g.jobs|
  {
    && LinkOf(g, g.jobs[i]).Linked?
    && |children| == |LinkOf(g, g.jobs[i]).deps|
    && forall k :: 0 <= k < |children| ==>
         && children[k].job == LinkOf(g, g.jobs[i]).deps[k]
         && children[k].job in g.calls
         && (children[k].added ==> children[k].job in g.jobs[i + 1..])
         && (children[k].added && children[k].counted ==> g.calls[children[k].job].Added?)
  }

  ghost predicate FailsFor(g: Graph, reason: Reason) {
    exists j :: Reachable(g, j) && LinkOf(g, j) == LinkFailed(reason)
  }

  ghost predicate CallInv(g: Graph, i: nat)
    requires i < |g.jobs| && g.jobs[i] in g.calls
  {
    match g.calls[g.jobs[i]]
    case AwaitingLink => true
    case AwaitingDeps(children, pending) => Waits(g, i, children) && pending == Uncounted(children) > 0
    case Added(children) => Waits(g, i, children) && Uncounted(children) == 0
    case NotAdded(reason) => FailsFor(g, reason)
  }

  predicate AddedBy(children: seq<Child>, j: Job) {
    exists k :: 0 <= k < |children| && children[k].job == j && children[k].added
  }

  ghost predicate Owns(g: Graph, owner: Job, j: Job) {
    && owner in g.calls
    && match g.calls[owner]
       case AwaitingLink => false
       case AwaitingDeps(children, _) => AddedBy(children, j)
       case Added(children) => AddedBy(children, j)
       case NotAdded(_) => true
  }

  /** Every job but the root was added by a call for an earlier job. */
  ghost predicate Owned(g: Graph, i: nat)
    requires i < |g.jobs|
  {
    exists o :: 0 <= o < i && Owns(g, g.jobs[o], g.jobs[i])
  }

  ghost predicate Concluded(g: Graph) {
    match g.result
    case NotYet => g.instantiations == 0 && g.instantiated == {}
    case Instantiated =>
      && g.instantiations == 1 && g.root in g.calls && g.calls[g.root].Added? && g.instantiated == JobSet(g.jobs)
    case RejectedWith(reason) =>
      && g.instantiated == {} && g.root in g.calls
      && ((g.instantiations == 1 && g.calls[g.root].Added?)
          || (g.instantiations == 0 && g.calls[g.root] == NotAdded(reason)))
  }

  ghost predicate Inv(g: Graph) {
    && Listed(g)
    && (forall i :: 0 <= i < |g.jobs| ==> Reachable(g, g.jobs[i]) && CallInv(g, i))
    && (forall i :: 0 < i < |g.jobs| ==> Owned(g, i))
    && Concluded(g)
  }

  // ----------------------------------------------------------- adding the jobs

  /** What adding jobs leaves alone. */
  ghost predicate Grows(g: Graph, h: Graph) {
    && h == g.(jobs := h.jobs, calls := h.calls)
    && g.jobs <= h.jobs
    && (forall j :: j in g.calls ==> j in h.calls && h.calls[j] == g.calls[j])
    && (forall j :: j in h.calls && j !in g.calls ==> h.calls[j].AwaitingLink?)
  }

  lemma {:induction false} AddJobsGrows(g: Graph, deps: seq<Job>)
    requires Listed(g)
    ensures var h := AddJobs(g, deps);
            && Listed(h) && Grows(g, h)
            && (forall j :: j in h.jobs <==> j in g.jobs || j in deps)
  {
    if deps != [] {
      AddJobsGrows(g, deps[..|deps| - 1]);
      assert deps == deps[..|deps| - 1] + [deps[|deps| - 1]];
    }
  }

  /** The k-th call added its job exactly when none before it had. */
  lemma {:induction false} ChildAt(g: Graph, deps: seq<Job>, k: nat)
    requires k < |deps|
    ensures Children(g, deps)[k] == Child(deps[k], deps[k] !in AddJobs(g, deps[..k]).calls, false)
    decreases |deps|
  {
    var n := |deps| - 1;
    if k < n {
      ChildAt(g, deps[..n], k);
      assert deps[..n][..k] == deps[..k];
    }
  }

  lemma {:induction false} NoneCounted(g: Graph, deps: seq<Job>)
    ensures Uncounted(Children(g, deps)) == |deps|
  {
    if deps != [] {
      var n := |deps| - 1;
      NoneCounted(g, deps[..n]);
      assert Children(g, deps)[..n] == Children(g, deps[..n]);
    }
  }

  lemma {:induction false} NewJobAdded(g: Graph, deps: seq<Job>, j: Job)
    requires j in AddJobs(g, deps).calls && j !in g.calls
    ensures AddedBy(Children(g, deps), j)
  {
    var n := |deps| - 1;
    var children := Children(g, deps);
    assert children[..n] == Children(g, deps[..n]);
    if j in AddJobs(g, deps[..n]).calls {
      NewJobAdded(g, deps[..n], j);
      var k :| 0 <= k < n && children[..n][k].job == j && children[..n][k].added;
      assert children[k].job == j;
    } else {
      assert children[n].job == j;
    }
  }

  lemma ChildrenWait(g: Graph, deps: seq<Job>, k: nat)
    requires Listed(g) && k < |deps|
    ensures var c := Children(g, deps)[k];
            && c.job == deps[k] && !c.counted
            && (c.added ==> deps[k] !in g.calls)
            && deps[k] in AddJobs(g, deps).calls
  {
    ChildAt(g, deps, k);
    AddJobsGrows(g, deps);
    AddJobsGrows(g, deps[..k]);
  }

  // -------------------------------------------------------- what a step keeps

  /** A later state: links settled, jobs appended, finished calls still finished. */
  ghost predicate Later(g: Graph, h: Graph) {
    && Extends(g, h)
    && g.jobs <= h.jobs
    && forall j :: j in g.calls ==> j in h.calls && (g.calls[j].Added? ==> h.calls[j].Added?)
  }

  lemma FailsStays(g: Graph, h: Graph, reason: Reason)
    requires Extends(g, h) && FailsFor(g, reason)
    ensures FailsFor(h, reason)
  {
    var j :| Reachable(g, j) && LinkOf(g, j) == LinkFailed(reason);
    StaysReachable(g, h, j);
  }

  lemma WaitsStays(g: Graph, h: Graph, i: nat, children: seq<Child>)
    requires Later(g, h) && i < |g.jobs| && Waits(g, i, children)
    ensures Waits(h, i, children)
  {
    forall k | 0 <= k < |children| && children[k].added
      ensures children[k].job in h.jobs[i + 1..]
    {
      var m :| i + 1 <= m < |g.jobs| && g.jobs[m] == children[k].job;
      assert h.jobs[i + 1..][m - i - 1] == children[k].job;
    }
  }

  lemma CallStays(g: Graph, h: Graph, i: nat)
    requires Later(g, h) && i < |g.jobs| && g.jobs[i] in g.calls && CallInv(g, i)
    requires h.calls[g.jobs[i]] == g.calls[g.jobs[i]]
    ensures CallInv(h, i)
  {
    match g.calls[g.jobs[i]]
    case AwaitingLink =>
    case AwaitingDeps(children, _) => WaitsStays(g, h, i, children);
    case Added(children) => WaitsStays(g, h, i, children);
    case NotAdded(reason) => FailsStays(g, h, reason);
  }

  /** Nobody else's call changes, and whoever added a job still has. */
  ghost predicate OnlyCall(g: Graph, h: Graph, j: Job) {
    && Later(g, h)
    && (forall x :: x in g.calls && x != j ==> h.calls[x] == g.calls[x])
    && (forall x :: Owns(g, j, x) ==> Owns(h, j, x))
  }

  lemma OldJobsStay(g: Graph, h: Graph, j: Job)
    requires Inv(g) && OnlyCall(g, h, j)
    ensures forall i :: 0 <= i < |g.jobs| ==> Reachable(h, g.jobs[i])
    ensures forall i :: 0 <= i < |g.jobs| && g.jobs[i] != j ==> CallInv(h, i)
    ensures forall i :: 0 < i < |g.jobs| ==> Owned(h, i)
  {
    forall i | 0 <= i < |g.jobs|
      ensures Reachable(h, g.jobs[i])
      ensures g.jobs[i] != j ==> CallInv(h, i)
    {
      StaysReachable(g, h, g.jobs[i]);
      if g.jobs[i] != j {
        CallStays(g, h, i);
      }
    }
    forall i | 0 < i < |g.jobs|
      ensures Owned(h, i)
    {
      OwnedStays(g, h, j, i);
    }
  }

  lemma OwnedStays(g: Graph, h: Graph, j: Job, i: nat)
    requires OnlyCall(g, h, j) && i < |g.jobs| && Owned(g, i)
    ensures Owned(h, i)
  {
    var o :| 0 <= o < i && Owns(g, g.jobs[o], g.jobs[i]);
    assert Owns(h, h.jobs[o], h.jobs[i]);
  }

  // ------------------------------------------------------- the finished graph

  /** Once the root's call is fulfilled, so is every call. */
  lemma {:induction false} AllAdded(g: Graph, i: nat)
    requires Inv(g) && g.calls[g.root].Added? && i < |g.jobs|
    ensures g.calls[g.jobs[i]].Added?
    decreases i
  {
    if i > 0 {
      assert Owned(g, i);
      var o :| 0 <= o < i && Owns(g, g.jobs[o], g.jobs[i]);
      AllAdded(g, o);
      assert CallInv(g, o);
      var children := g.calls[g.jobs[o]].children;
      var k :| 0 <= k < |children| && children[k].job == g.jobs[i] && children[k].added;
      AllCounted(children, k);
    }
  }

  lemma {:induction false} AllCounted(children: seq<Child>, k: nat)
    requires Uncounted(children) == 0 && k < |children|
    ensures children[k].counted
    decreases |children|
  {
    if k < |children| - 1 {
      AllCounted(children[..|children| - 1], k);
    }
  }

  lemma {:induction false} SomeUncounted(children: seq<Child>) returns (k: nat)
    requires Uncounted(children) > 0
    ensures k < |children| && !children[k].counted
  {
    k := |children| - 1;
    if children[k].counted {
      k := SomeUncounted(children[..|children| - 1]);
    }
  }

  lemma {:induction false} CountOne(children: seq<Child>, k: nat)
    requires k < |children| && !children[k].counted
    ensures Uncounted(children[k := children[k].(counted := true)]) == Uncounted(children) - 1
    decreases |children|
  {
    var n := |children| - 1;
    var after := children[k := children[k].(counted := true)];
    if k < n {
      CountOne(children[..n], k);
      assert after[..n] == children[..n][k := children[k].(counted := true)];
    } else {
      assert after[..n] == children[..n];
    }
  }

  // ---------------------------------------------------------------- the steps

  lemma LinkSettlesKeepsInv(g: Graph, j: Job, link: Link)
    requires Inv(g) && Enabled(g, LinkSettles(j, link))
    ensures Inv(Step(g, LinkSettles(j, link)))
  {
    var h := Step(g, LinkSettles(j, link));
    assert Later(g, h);
    forall i | 0 <= i < |g.jobs|
      ensures Reachable(h, h.jobs[i]) && CallInv(h, i)
      ensures 0 < i ==> Owned(h, i)
    {
      StaysReachable(g, h, g.jobs[i]);
      CallStays(g, h, i);
      if 0 < i {
        assert Owned(g, i);
        var o :| 0 <= o < i && Owns(g, g.jobs[o], g.jobs[i]);
        assert Owns(h, h.jobs[o], h.jobs[i]);
      }
    }
  }

  /** A call that has not finished shows that nothing was instantiated. */
  lemma NotInstantiatedYet(g: Graph, i: nat)
    requires Inv(g) && i < |g.jobs| && !g.calls[g.jobs[i]].Added?
    ensures !g.calls[g.root].Added?
  {
    if g.calls[g.root].Added? {
      AllAdded(g, i);
    }
  }

  lemma IndexOf(jobs: seq<Job>, j: Job) returns (i: nat)
    requires j in jobs
    ensures i < |jobs| && jobs[i] == j
  {
    i :| i < |jobs| && jobs[i] == j;
  }

  lemma SetCallLater(g: Graph, j: Job, call: Call)
    requires Inv(g) && j in g.calls && !g.calls[j].Added?
    requires forall x :: Owns(g, j, x) ==> Owns(SetCall(g, j, call), j, x)
    ensures OnlyCall(g, SetCall(g, j, call), j)
  {}

  /** A call that ends, or counts one more: everything else stays as it was. */
  lemma SetCallKeepsInv(g: Graph, i: nat, call: Call)
    requires Inv(g) && i < |g.jobs| && !g.calls[g.jobs[i]].Added?
    requires g.jobs[i] == g.root ==> g.result.NotYet?
    requires forall x :: Owns(g, g.jobs[i], x) ==> Owns(SetCall(g, g.jobs[i], call), g.jobs[i], x)
    requires CallInv(SetCall(g, g.jobs[i], call), i)
    ensures Inv(SetCall(g, g.jobs[i], call))
  {
    var h := SetCall(g, g.jobs[i], call);
    SetCallLater(g, g.jobs[i], call);
    OldJobsStay(g, h, g.jobs[i]);
    NotInstantiatedYet(g, i);
  }

  lemma FailureKeepsInv(g: Graph, i: nat, reason: Reason)
    requires Inv(g) && i < |g.jobs| && (g.calls[g.jobs[i]].AwaitingLink? || g.calls[g.jobs[i]].AwaitingDeps?)
    requires FailsFor(g, reason)
    ensures Inv(SetCall(g, g.jobs[i], NotAdded(reason)))
  {
    FailsStays(g, SetCall(g, g.jobs[i], NotAdded(reason)), reason);
    SetCallKeepsInv(g, i, NotAdded(reason));
  }

  /** `h` is `g` after job `i` found its dependencies linked and called for each. */
  ghost predicate CalledFor(g: Graph, i: nat, deps: seq<Job>, h: Graph) {
    && Inv(g) && i < |g.jobs| && g.calls[g.jobs[i]].AwaitingLink?
    && LinkOf(g, g.jobs[i]) == Linked(deps)
    && h == SetCall(AddJobs(g, deps), g.jobs[i],
                    if deps == [] then Added(Children(g, deps)) else AwaitingDeps(Children(g, deps), |deps|))
  }

  lemma CalledForGrows(g: Graph, i: nat, deps: seq<Job>, h: Graph)
    requires CalledFor(g, i, deps, h)
    ensures Listed(h) && OnlyCall(g, h, g.jobs[i])
    ensures h == g.(jobs := h.jobs, calls := h.calls)
    ensures forall j :: j in h.jobs <==> j in g.jobs || j in deps
    ensures forall n :: |g.jobs| <= n < |h.jobs| ==> h.jobs[n] !in g.jobs && h.calls[h.jobs[n]].AwaitingLink?
  {
    AddJobsGrows(g, deps);
    OnlyTheCaller(g, AddJobs(g, deps), g.jobs[i], h);
    forall n | |g.jobs| <= n < |h.jobs|
      ensures h.jobs[n] !in g.jobs && h.calls[h.jobs[n]].AwaitingLink?
    {
      NotBefore(g.jobs, h.jobs, n);
      assert h.jobs[n] in h.jobs;
    }
  }

  lemma OnlyTheCaller(g: Graph, u: Graph, j: Job, h: Graph)
    requires Listed(g) && Listed(u) && Grows(g, u) && j in g.calls && g.calls[j].AwaitingLink?
    requires j in h.calls && h == SetCall(u, j, h.calls[j])
    ensures Listed(h) && OnlyCall(g, h, j)
  {}

  lemma NotBefore(a: seq<Job>, b: seq<Job>, n: nat)
    requires NoDuplicates(b) && a <= b && |a| <= n < |b|
    ensures b[n] !in a
  {
    assert forall m :: 0 <= m < |a| ==> a[m] == b[m];
  }

  lemma CalledForWaits(g: Graph, i: nat, deps: seq<Job>, h: Graph)
    requires CalledFor(g, i, deps, h) && i < |h.jobs| && h.jobs[i] == g.jobs[i] && h.links == g.links
    ensures Waits(h, i, Children(g, deps))
  {
    CalledForGrows(g, i, deps, h);
    var children := Children(g, deps);
    forall k | 0 <= k < |children|
      ensures children[k].job == deps[k] && children[k].job in h.calls && !children[k].counted
      ensures children[k].added ==> children[k].job in h.jobs[i + 1..]
    {
      ChildrenWait(g, deps, k);
      if children[k].added {
        var m := IndexOf(h.jobs, deps[k]);
        assert m >= |g.jobs|;
        assert h.jobs[i + 1..][m - i - 1] == deps[k];
      }
    }
  }

  lemma NewJob(g: Graph, i: nat, deps: seq<Job>, h: Graph, n: nat)
    requires CalledFor(g, i, deps, h) && OnlyCall(g, h, g.jobs[i]) && |g.jobs| <= n < |h.jobs|
    requires h.jobs[n] in deps && h.jobs[n] !in g.calls && h.jobs[n] in h.calls && h.links == g.links
    ensures Reachable(h, h.jobs[n]) && Owned(h, n)
  {
    DependencyReachable(g, g.jobs[i], h.jobs[n]);
    StaysReachable(g, h, h.jobs[n]);
    NewJobAdded(g, deps, h.jobs[n]);
    assert Owns(h, h.jobs[i], h.jobs[n]);
  }

  lemma NewJobs(g: Graph, i: nat, deps: seq<Job>, h: Graph)
    requires CalledFor(g, i, deps, h)
    ensures forall n :: |g.jobs| <= n < |h.jobs| ==> h.jobs[n] in h.calls && Reachable(h, h.jobs[n]) && Owned(h, n)
    ensures forall n :: |g.jobs| <= n < |h.jobs| ==> CallInv(h, n)
  {
    CalledForGrows(g, i, deps, h);
    forall n | |g.jobs| <= n < |h.jobs|
      ensures h.jobs[n] in h.calls && Reachable(h, h.jobs[n]) && Owned(h, n)
    {
      assert h.jobs[n] in h.jobs;
      NewJob(g, i, deps, h, n);
    }
  }

  lemma CalledForCallInv(g: Graph, i: nat, deps: seq<Job>, h: Graph)
    requires CalledFor(g, i, deps, h) && i < |h.jobs| && h.jobs[i] == g.jobs[i] && h.links == g.links
    ensures CallInv(h, i)
  {
    CalledForWaits(g, i, deps, h);
    NoneCounted(g, deps);
  }

  lemma CalledForConcluded(g: Graph, i: nat, deps: seq<Job>, h: Graph)
    requires CalledFor(g, i, deps, h) && h == g.(jobs := h.jobs, calls := h.calls)
    requires OnlyCall(g, h, g.jobs[i])
    ensures Concluded(h)
  {
    NotInstantiatedYet(g, i);
  }

  lemma AddDependenciesKeepsInv(g: Graph, i: nat, deps: seq<Job>, h: Graph)
    requires CalledFor(g, i, deps, h)
    ensures Inv(h)
  {
    CalledForGrows(g, i, deps, h);
    CalledForConcluded(g, i, deps, h);
    CalledForCallInv(g, i, deps, h);
    NewJobs(g, i, deps, h);
    AllJobsStay(g, h, i);
  }

  lemma OldJobStays(g: Graph, h: Graph, i: nat, n: nat)
    requires Inv(g) && i < |g.jobs| && OnlyCall(g, h, g.jobs[i]) && CallInv(h, i) && n < |g.jobs|
    ensures Reachable(h, h.jobs[n]) && CallInv(h, n) && (0 < n ==> Owned(h, n))
  {
    StaysReachable(g, h, g.jobs[n]);
    if 0 < n {
      OwnedStays(g, h, g.jobs[i], n);
    }
    if n != i {
      CallStays(g, h, n);
    }
  }

  lemma AllJobsStay(g: Graph, h: Graph, i: nat)
    requires Inv(g) && Listed(h) && i < |g.jobs| && OnlyCall(g, h, g.jobs[i]) && CallInv(h, i)
    requires forall n :: |g.jobs| <= n < |h.jobs| ==> h.jobs[n] in h.calls && Reachable(h, h.jobs[n]) && Owned(h, n)
    requires forall n :: |g.jobs| <= n < |h.jobs| ==> CallInv(h, n)
    requires Concluded(h)
    ensures Inv(h)
  {
    forall n | 0 <= n < |h.jobs|
      ensures Reachable(h, h.jobs[n]) && CallInv(h, n) && (0 < n ==> Owned(h, n))
    {
      if n < |g.jobs| {
        OldJobStays(g, h, i, n);
      }
    }
  }

  lemma ResumeKeepsInv(g: Graph, j: Job)
    requires Inv(g) && Enabled(g, CallResumes(j))
    ensures Inv(Resume(g, j))
  {
    var i := IndexOf(g.jobs, j);
    match LinkOf(g, j)
    case LinkFailed(reason) =>
      assert Reachable(g, j);
      FailureKeepsInv(g, i, reason);
    case Linked(deps) =>
      AddDependenciesKeepsInv(g, i, deps, Resume(g, j));
  }

  lemma CountedWaits(g: Graph, i: nat, k: nat)
    requires Inv(g) && i < |g.jobs| && g.calls[g.jobs[i]].AwaitingDeps?
    requires k < |g.calls[g.jobs[i]].children| && ChildResult(g, g.calls[g.jobs[i]].children[k]) == Some(Ok)
    ensures var children := g.calls[g.jobs[i]].children;
            Waits(g, i, children[k := children[k].(counted := true)])
  {
    assert CallInv(g, i);
  }

  /** What counting child `k` makes of its call. */
  function AfterCount(call: Call, k: nat): Call
    requires call.AwaitingDeps? && k < |call.children|
  {
    var children := call.children[k := call.children[k].(counted := true)];
    if call.pending <= 1 then Added(children) else AwaitingDeps(children, call.pending - 1)
  }

  lemma CountedCallInv(g: Graph, i: nat, k: nat, call: Call)
    requires Inv(g) && i < |g.jobs| && g.jobs[i] in g.calls && call == g.calls[g.jobs[i]]
    requires call.AwaitingDeps? && k < |call.children| && !call.children[k].counted
    requires ChildResult(g, call.children[k]) == Some(Ok)
    ensures CallInv(SetCall(g, g.jobs[i], AfterCount(call, k)), i)
    ensures g.jobs[i] == g.root ==> g.result.NotYet?
  {
    assert CallInv(g, i);
    CountOne(call.children, k);
    CountedWaits(g, i, k);
    WaitsAfter(g, i, AfterCount(call, k), call.children[k := call.children[k].(counted := true)]);
    hide Waits, Owned, Reachable, Uncounted;
  }

  lemma SetCountedKeepsInv(g: Graph, i: nat, k: nat, call: Call, after: Call)
    requires Inv(g) && i < |g.jobs| && g.jobs[i] in g.calls && call == g.calls[g.jobs[i]]
    requires call.AwaitingDeps? && k < |call.children| && after == AfterCount(call, k)
    requires CallInv(SetCall(g, g.jobs[i], after), i) && (g.jobs[i] == g.root ==> g.result.NotYet?)
    ensures Inv(SetCall(g, g.jobs[i], after))
  {
    hide Inv, CallInv;
    StillAdded(g, g.jobs[i], k, after);
    SetCallKeepsInv(g, i, after);
  }

  lemma ChildCountedKeepsInv(g: Graph, i: nat, k: nat, call: Call)
    requires Inv(g) && i < |g.jobs| && g.jobs[i] in g.calls && call == g.calls[g.jobs[i]]
    requires call.AwaitingDeps? && k < |call.children| && !call.children[k].counted
    requires ChildResult(g, call.children[k]) == Some(Ok)
    ensures Inv(ChildSettles(g, g.jobs[i], k))
  {
    hide Inv, CallInv, SetCall;
    CountedCallInv(g, i, k, call);
    SetCountedKeepsInv(g, i, k, call, AfterCount(call, k));
  }

  lemma WaitsAfter(g: Graph, i: nat, call: Call, children: seq<Child>)
    requires Inv(g) && i < |g.jobs| && !g.calls[g.jobs[i]].Added? && Waits(g, i, children)
    ensures Waits(SetCall(g, g.jobs[i], call), i, children)
  {}

  lemma StillAdded(g: Graph, j: Job, k: nat, call: Call)
    requires j in g.calls && g.calls[j].AwaitingDeps? && k < |g.calls[j].children|
    requires call.AwaitingDeps? || call.Added?
    requires call.children == g.calls[j].children[k := g.calls[j].children[k].(counted := true)]
    ensures forall x :: Owns(g, j, x) ==> Owns(SetCall(g, j, call), j, x)
  {
    forall x | Owns(g, j, x)
      ensures Owns(SetCall(g, j, call), j, x)
    {
      var m :| 0 <= m < |g.calls[j].children| && g.calls[j].children[m].job == x && g.calls[j].children[m].added;
      assert call.children[m].job == x && call.children[m].added;
    }
  }

  lemma PendingAtLeastOne(g: Graph, j: Job)
    requires Inv(g) && j in g.calls && g.calls[j].AwaitingDeps?
    ensures g.calls[j].pending >= 1
  {
    var i := IndexOf(g.jobs, j);
    assert CallInv(g, i);
  }

  lemma ChildSettlesKeepsInv(g: Graph, j: Job, k: nat)
    requires Inv(g) && Enabled(g, ChildSettlementSeen(j, k))
    ensures Inv(ChildSettles(g, j, k))
  {
    var i := IndexOf(g.jobs, j);
    match ChildResult(g, g.calls[j].children[k])
    case Some(Ok) => ChildCountedKeepsInv(g, i, k, g.calls[j]);
    case Some(Failed(reason)) =>
      var c := IndexOf(g.jobs, g.calls[j].children[k].job);
      assert CallInv(g, c);
      FailureKeepsInv(g, i, reason);
  }

  lemma SameCallsKeepInv(g: Graph, h: Graph)
    requires Inv(g) && Concluded(h)
    requires h.root == g.root && h.links == g.links && h.jobs == g.jobs && h.calls == g.calls
    ensures Inv(h)
  {
    OldJobsStay(g, h, g.root);
    CallStays(g, h, 0);
    assert forall i :: 0 < i < |g.jobs| ==> g.jobs[i] != g.root;
  }

  lemma ConcludeKeepsInv(g: Graph, r: Settlement)
    requires Inv(g) && Enabled(g, RootSettlementSeen(r))
    ensures Inv(Conclude(g, r))
  {
    SameCallsKeepInv(g, Conclude(g, r));
  }

  lemma StepKeepsInv(g: Graph, e: Event)
    requires Inv(g)
    ensures Inv(Step(g, e))
  {
    if Enabled(g, e) {
      match e
      case LinkSettles(j, link) => LinkSettlesKeepsInv(g, j, link);
      case CallResumes(j) => ResumeKeepsInv(g, j);
      case ChildSettlementSeen(j, k) => ChildSettlesKeepsInv(g, j, k);
      case RootSettlementSeen(r) => ConcludeKeepsInv(g, r);
    }
  }

  lemma {:induction false} RunKeepsInv(root: Job, events: seq<Event>)
    ensures Inv(Run(Init(root), events))
    decreases |events|
  {
    if events == [] {
      RootReachable(Init(root));
    } else {
      RunKeepsInv(root, events[..|events| - 1]);
      StepKeepsInv(Run(Init(root), events[..|events| - 1]), events[|events| - 1]);
    }
  }
}
