/** ModuleJob._instantiate(): collecting the graph of a root job while its jobs link, in any
    order and with cycles, then one instantiation.  A call of addJobsToDependencyGraph() that
    adds its job is kept by that job; a call for a job already there returns at once. */
module GraphSpec {
  import opened Base

  type Job = nat

  /** A job's `linked` promise. */
  datatype Link = Unsettled | Linked(deps: seq<Job>) | LinkFailed(reason: Reason)

  /** A call made for a dependency, as its caller waits for it: whether the call added the
      job, and whether its fulfilment was counted. */
  datatype Child = Child(job: Job, added: bool, counted: bool)

  /** The call that added a job: at `await linked`, waiting for the dependencies' calls with
      the counter of SafePromiseAllReturnVoid, fulfilled, or rejected. */
  datatype Call =
    | AwaitingLink
    | AwaitingDeps(children: seq<Child>, pending: nat)
    | Added(children: seq<Child>)
    | NotAdded(reason: Reason)

  datatype Result = NotYet | Instantiated | RejectedWith(reason: Reason)

  datatype Graph = Graph(
    root: Job,
    links: map<Job, Link>,
    jobs: seq<Job>,
    calls: map<Job, Call>,
    result: Result,
    // how often the host's instantiate was called, and the jobs then marked instantiated
    instantiations: nat,
    instantiated: set<Job>)

  function Init(root: Job): Graph {
    Graph(root, map[], [root], map[root := AwaitingLink], NotYet, 0, {})
  }

  function LinkOf(g: Graph, j: Job): Link {
    if j in g.links then g.links[j] else Unsettled
  }

  /** One call: nothing for a job already in the graph. */
  function AddJob(g: Graph, j: Job): Graph {
    if j in g.calls then g else g.(jobs := g.jobs + [j], calls := g.calls[j := AwaitingLink])
  }

  function AddJobs(g: Graph, deps: seq<Job>): Graph {
    if deps == [] then g else AddJob(AddJobs(g, deps[..|deps| - 1]), deps[|deps| - 1])
  }

  function Children(g: Graph, deps: seq<Job>): (r: seq<Child>)
    ensures |r| == |deps|
  {
    if deps == [] then []
    else
      var d := deps[|deps| - 1];
      Children(g, deps[..|deps| - 1]) + [Child(d, d !in AddJobs(g, deps[..|deps| - 1]).calls, false)]
  }

  function SetCall(g: Graph, j: Job, c: Call): Graph {
    g.(calls := g.calls[j := c])
  }

  /** The rest of a call once `linked` settled. */
  function Resume(g: Graph, j: Job): Graph {
    match LinkOf(g, j)
    case Unsettled => g
    case LinkFailed(reason) => SetCall(g, j, NotAdded(reason))
    case Linked(deps) =>
      var children := Children(g, deps);
      SetCall(AddJobs(g, deps), j, if deps == [] then Added(children) else AwaitingDeps(children, |deps|))
  }

  /** What a dependency's call came to: None while it runs. */
  function ChildResult(g: Graph, c: Child): Option<Settlement> {
    if !c.added then Some(Ok)
    else if c.job !in g.calls then None
    else match g.calls[c.job]
      case AwaitingLink => None
      case AwaitingDeps(_, _) => None
      case Added(_) => Some(Ok)
      case NotAdded(reason) => Some(Failed(reason))
  }

  /** The callback on one dependency's call. */
  function ChildSettles(g: Graph, j: Job, k: nat): Graph
    requires j in g.calls && g.calls[j].AwaitingDeps? && k < |g.calls[j].children|
  {
    var call := g.calls[j];
    match ChildResult(g, call.children[k])
    case None => g
    case Some(Failed(reason)) => SetCall(g, j, NotAdded(reason))
    case Some(Ok) =>
      var children := call.children[k := call.children[k].(counted := true)];
      SetCall(g, j, if call.pending <= 1 then Added(children) else AwaitingDeps(children, call.pending - 1))
  }

  function JobSet(jobs: seq<Job>): set<Job> {
    set j | j in jobs
  }

  /** The root's call settled: instantiate the module, and mark every job in the list. */
  function Conclude(g: Graph, r: Settlement): Graph {
    if g.root !in g.calls then g
    else match g.calls[g.root]
      case AwaitingLink => g
      case AwaitingDeps(_, _) => g
      case NotAdded(reason) => g.(result := RejectedWith(reason))
      case Added(_) =>
        var called := g.(instantiations := g.instantiations + 1);
        match r
        case Ok => called.(result := Instantiated, instantiated := JobSet(g.jobs))
        case Failed(reason) => called.(result := RejectedWith(reason))
  }

  // ---------------------------------------------------------------------- runs

  datatype Event =
    | LinkSettles(job: Job, link: Link)
    | CallResumes(job: Job)
    | ChildSettlementSeen(job: Job, child: nat)
    | RootSettlementSeen(r: Settlement)

  /** A promise settles once; a callback runs once, after its promise settled. */
  predicate Enabled(g: Graph, e: Event) {
    match e
    case LinkSettles(j, link) => LinkOf(g, j).Unsettled? && !link.Unsettled?
    case CallResumes(j) => j in g.calls && g.calls[j].AwaitingLink? && !LinkOf(g, j).Unsettled?
    case ChildSettlementSeen(j, k) =>
      && j in g.calls && g.calls[j].AwaitingDeps? && k < |g.calls[j].children|
      && !g.calls[j].children[k].counted && ChildResult(g, g.calls[j].children[k]).Some?
    case RootSettlementSeen(_) =>
      g.result.NotYet? && g.root in g.calls && (g.calls[g.root].Added? || g.calls[g.root].NotAdded?)
  }

  function Step(g: Graph, e: Event): Graph {
    if !Enabled(g, e) then g
    else match e
      case LinkSettles(j, link) => g.(links := g.links[j := link])
      case CallResumes(j) => Resume(g, j)
      case ChildSettlementSeen(j, k) => ChildSettles(g, j, k)
      case RootSettlementSeen(r) => Conclude(g, r)
  }

  function Run(g: Graph, events: seq<Event>): Graph
    decreases |events|
  {
    if events == [] then g else Step(Run(g, events[..|events| - 1]), events[|events| - 1])
  }
}
