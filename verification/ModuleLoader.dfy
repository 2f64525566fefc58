/** Jobs by cache key, and the worklist that adopts a graph the host loaded. */
module ModuleLoader {
  import opened Base

  /** A module's path and its "type" attribute, "" when it has none. */
  datatype Key = Key(url: string, kind: string)

  /** The text the cache is keyed by. */
  function CacheKey(k: Key): string {
    k.kind + ['\0'] + k.url
  }

  /** Two modules share a cache entry only if they are the same, as no attribute holds a NUL. */
  lemma {:induction false} CacheKeyInjective(a: Key, b: Key)
    requires '\0' !in a.kind && '\0' !in b.kind && CacheKey(a) == CacheKey(b)
    ensures a == b
  {
    var n, m := |a.kind|, |b.kind|;
    assert CacheKey(a)[n] == '\0' && CacheKey(b)[m] == '\0';
    assert forall i :: 0 <= i < n ==> CacheKey(a)[i] == a.kind[i];
    assert forall i :: 0 <= i < m ==> CacheKey(b)[i] == b.kind[i];
    assert a.kind == CacheKey(a)[..n] && b.kind == CacheKey(b)[..m];
    assert a.url == CacheKey(a)[n + 1..] && b.url == CacheKey(b)[m + 1..];
  }

  /** What the host knows of the modules it loaded itself: each one's linked dependencies. */
  type Loaded = map<string, seq<Key>>

  function Dependencies(loaded: Loaded, k: Key): seq<Key> {
    if k.url in loaded then loaded[k.url] else []
  }

  function Known(loaded: Loaded, root: Key): set<Key> {
    {root} + set u, k | u in loaded && k in loaded[u] :: k
  }

  /** A chain of dependencies from `root` through modules without a job. */
  ghost predicate NewPath(loaded: Loaded, had: set<Key>, root: Key, path: seq<Key>) {
    && path != [] && path[0] == root
    && (forall i :: 0 <= i < |path| ==> path[i] !in had)
    && (forall i :: 0 <= i < |path| - 1 ==> path[i + 1] in Dependencies(loaded, path[i]))
  }

  ghost predicate Missing(loaded: Loaded, had: set<Key>, root: Key, k: Key) {
    exists path :: NewPath(loaded, had, root, path) && path[|path| - 1] == k
  }

  lemma RootMissing(loaded: Loaded, had: set<Key>, root: Key)
    requires root !in had
    ensures Missing(loaded, had, root, root)
  {
    assert NewPath(loaded, had, root, [root]);
    assert [root][|[root]| - 1] == root;
  }

  lemma DependencyMissing(loaded: Loaded, had: set<Key>, root: Key, k: Key, d: Key)
    requires Missing(loaded, had, root, k) && d in Dependencies(loaded, k) && d !in had
    ensures Missing(loaded, had, root, d)
  {
    var path :| NewPath(loaded, had, root, path) && path[|path| - 1] == k;
    assert NewPath(loaded, had, root, path + [d]);
    assert (path + [d])[|path + [d]| - 1] == d;
  }

  /** Keys closed under the dependencies of the new ones hold everything missing. */
  lemma {:induction false} ClosedHoldsMissing(loaded: Loaded, had: set<Key>, now: set<Key>, root: Key, path: seq<Key>)
    requires root in now && NewPath(loaded, had, root, path)
    requires forall k, d :: k in now && k !in had && d in Dependencies(loaded, k) ==> d in now
    ensures path[|path| - 1] in now
    decreases |path|
  {
    var n := |path| - 1;
    if n > 0 {
      assert NewPath(loaded, had, root, path[..n]);
      ClosedHoldsMissing(loaded, had, now, root, path[..n]);
      assert path[..n][n - 1] == path[n - 1];
    }
  }

  class ModuleJob {
    const key: Key
    // the jobs of the module's dependencies, once linked
    var linked: Option<seq<ModuleJob>>
    var instantiated: bool

    constructor (key: Key, instantiated: bool)
      ensures this.key == key && linked == None && this.instantiated == instantiated
    {
      this.key, this.linked, this.instantiated := key, None, instantiated;
    }
  }

  /** `jobs` are the cached jobs of `keys`, one for one. */
  ghost predicate JobsOf(cache: map<Key, ModuleJob>, keys: seq<Key>, jobs: seq<ModuleJob>) {
    && |jobs| == |keys|
    && forall i :: 0 <= i < |keys| ==> keys[i] in cache && jobs[i] == cache[keys[i]]
  }

  lemma JobsOfStays(cache: map<Key, ModuleJob>, later: map<Key, ModuleJob>, keys: seq<Key>, jobs: seq<ModuleJob>)
    requires JobsOf(cache, keys, jobs)
    requires Kept(cache, later)
    ensures JobsOf(later, keys, jobs)
  {}

  lemma JobsOfLater(cache: map<Key, ModuleJob>, later: map<Key, ModuleJob>, keys: seq<Key>, jobs: seq<ModuleJob>)
    requires |jobs| < |keys| && JobsOf(cache, keys[..|jobs|], jobs) && Kept(cache, later) && keys[|jobs|] in later
    ensures JobsOf(later, keys[..|jobs| + 1], jobs + [later[keys[|jobs|]]])
  {
    assert keys[..|jobs| + 1] == keys[..|jobs|] + [keys[|jobs|]];
  }

  /** Entries are only added. */
  ghost predicate Kept(before: map<Key, ModuleJob>, after: map<Key, ModuleJob>) {
    forall k :: k in before ==> k in after && after[k] == before[k]
  }

  /** The worklist's state: new jobs, each cached under a missing key. */
  ghost predicate Adopting(loaded: Loaded, had: map<Key, ModuleJob>, root: Key, cache: map<Key, ModuleJob>,
                           adopted: seq<ModuleJob>)
  {
    && Kept(had, cache)
    && (forall n :: 0 <= n < |adopted| ==>
          && adopted[n].key in cache && cache[adopted[n].key] == adopted[n]
          && adopted[n].key !in had && Missing(loaded, had.Keys, root, adopted[n].key))
    && (forall k :: k in cache && k !in had ==> cache[k] in adopted && cache[k].key == k)
    && NoDuplicates(adopted)
    && root in cache
  }

  /** The same, folded away. */
  ghost predicate Sealed(loaded: Loaded, had: map<Key, ModuleJob>, root: Key, cache: map<Key, ModuleJob>,
                         adopted: seq<ModuleJob>, n: nat)
  {
    if n == 0 then Adopting(loaded, had, root, cache, adopted) else Sealed(loaded, had, root, cache, adopted, n - 1)
  }

  ghost predicate Working(loaded: Loaded, had: map<Key, ModuleJob>, root: Key, cache: map<Key, ModuleJob>,
                          adopted: seq<ModuleJob>)
  {
    Sealed(loaded, had, root, cache, adopted, |adopted| + 5)
  }

  lemma {:induction false} SealedMeans(loaded: Loaded, had: map<Key, ModuleJob>, root: Key, cache: map<Key, ModuleJob>,
                                       adopted: seq<ModuleJob>, n: nat)
    ensures Sealed(loaded, had, root, cache, adopted, n) == Adopting(loaded, had, root, cache, adopted)
  {
    if n > 0 {
      SealedMeans(loaded, had, root, cache, adopted, n - 1);
    }
  }

  lemma WorkingMeans(loaded: Loaded, had: map<Key, ModuleJob>, root: Key, cache: map<Key, ModuleJob>,
                     adopted: seq<ModuleJob>)
    ensures Working(loaded, had, root, cache, adopted) == Adopting(loaded, had, root, cache, adopted)
  {
    SealedMeans(loaded, had, root, cache, adopted, |adopted| + 5);
  }

  lemma AdoptingOneMore(loaded: Loaded, had: map<Key, ModuleJob>, root: Key, cache: map<Key, ModuleJob>,
                        adopted: seq<ModuleJob>, job: ModuleJob)
    requires Adopting(loaded, had, root, cache, adopted)
    requires job.key !in cache && Missing(loaded, had.Keys, root, job.key)
    ensures Adopting(loaded, had, root, cache[job.key := job], adopted + [job])
  {
    var more := adopted + [job];
    assert more[|adopted|] == job;
    forall k | k in cache[job.key := job] && k !in had
      ensures cache[job.key := job][k] in more
    {
      if k != job.key {
        var n :| 0 <= n < |adopted| && adopted[n] == cache[k];
        assert more[n] == cache[k];
      }
    }
  }

  lemma WorkingAt(loaded: Loaded, had: map<Key, ModuleJob>, root: Key, cache: map<Key, ModuleJob>,
                  adopted: seq<ModuleJob>, n: nat)
    requires Working(loaded, had, root, cache, adopted) && n < |adopted|
    ensures NoDuplicates(adopted) && Missing(loaded, had.Keys, root, adopted[n].key)
  {
    WorkingMeans(loaded, had, root, cache, adopted);
  }

  lemma WorkingOneMore(loaded: Loaded, had: map<Key, ModuleJob>, root: Key, cache: map<Key, ModuleJob>,
                       adopted: seq<ModuleJob>, job: ModuleJob, k: Key)
    requires Working(loaded, had, root, cache, adopted) && Missing(loaded, had.Keys, root, k)
    requires job.key in Dependencies(loaded, k) && job.key !in cache
    ensures Working(loaded, had, root, cache[job.key := job], adopted + [job])
    ensures |Remaining(loaded, root, cache[job.key := job])| + 1 == |Remaining(loaded, root, cache)|
  {
    WorkingMeans(loaded, had, root, cache, adopted);
    DependencyMissing(loaded, had.Keys, root, k, job.key);
    AdoptingOneMore(loaded, had, root, cache, adopted, job);
    WorkingMeans(loaded, had, root, cache[job.key := job], adopted + [job]);
    RemainingOneLess(loaded, root, cache, job, k);
  }

  /** The modules known to the host that have no job yet. */
  ghost function Remaining(loaded: Loaded, root: Key, cache: map<Key, ModuleJob>): set<Key> {
    Known(loaded, root) - cache.Keys
  }

  lemma RemainingOneLess(loaded: Loaded, root: Key, cache: map<Key, ModuleJob>, job: ModuleJob, k: Key)
    requires job.key in Dependencies(loaded, k) && job.key !in cache
    ensures |Remaining(loaded, root, cache[job.key := job])| + 1 == |Remaining(loaded, root, cache)|
  {
    assert Remaining(loaded, root, cache) == Remaining(loaded, root, cache[job.key := job]) + {job.key};
  }

  class Loader {
    var cache: map<Key, ModuleJob>
    // what the host answers: the graphs it loaded, and the modules it instantiated
    const loaded: Loaded
    const instantiated: set<string>

    constructor (loaded: Loaded, instantiated: set<string>)
      ensures Valid() && cache == map[] && this.loaded == loaded && this.instantiated == instantiated
    {
      this.cache, this.loaded, this.instantiated := map[], loaded, instantiated;
    }

    /** Each job is cached under its own key, and a job adopted is linked to the cached jobs of
        exactly its dependencies. */
    ghost predicate Valid()
      reads this, cache.Values
    {
      Linked(cache)
    }

    ghost predicate Linked(jobs: map<Key, ModuleJob>)
      reads jobs.Values
    {
      && (forall k :: k in jobs ==> jobs[k].key == k)
      && (forall k :: k in jobs && jobs[k].linked.Some? ==> JobsOf(jobs, Dependencies(loaded, k), jobs[k].linked.value))
    }

    /** One new job in the cache. */
    method Adopt(k: Key) returns (job: ModuleJob)
      requires k !in cache
      modifies this
      ensures fresh(job) && job.key == k && job.linked == None && job.instantiated == (k.url in instantiated)
      ensures cache == old(cache)[k := job]
    {
      job := new ModuleJob(k, k.url in instantiated);
      cache := cache[k := job];
    }

    /** Jobs not linked yet, from position `from` on. */
    ghost predicate Blank(adopted: seq<ModuleJob>, from: nat)
      reads adopted
    {
      forall n :: from <= n < |adopted| ==>
        adopted[n].linked == None && adopted[n].instantiated == (adopted[n].key.url in instantiated)
    }

    /** The first `i` jobs are linked to the cached jobs of their dependencies. */
    ghost predicate LinkedUpTo(adopted: seq<ModuleJob>, i: nat)
      reads this, adopted
    {
      forall n :: 0 <= n < |adopted| && n < i ==>
        && adopted[n].linked.Some? && adopted[n].instantiated == (adopted[n].key.url in instantiated)
        && JobsOf(cache, Dependencies(loaded, adopted[n].key), adopted[n].linked.value)
    }

    /** The jobs of one job's dependencies: cached ones, or new ones at the worklist's end. */
    method AdoptDependencies(ghost had: map<Key, ModuleJob>, ghost root: Key, start: seq<ModuleJob>, k: Key)
      returns (adopted: seq<ModuleJob>, jobs: seq<ModuleJob>)
      requires Working(loaded, had, root, cache, start) && Missing(loaded, had.Keys, root, k)
      modifies this
      ensures Working(loaded, had, root, cache, adopted) && start <= adopted
      ensures JobsOf(cache, Dependencies(loaded, k), jobs)
      ensures Kept(old(cache), cache)
      ensures forall n :: |start| <= n < |adopted| ==> fresh(adopted[n])
      ensures Blank(adopted, |start|)
      ensures |Remaining(loaded, root, cache)| + |adopted| == |Remaining(loaded, root, old(cache))| + |start|
    {
      var deps := Dependencies(loaded, k);
      adopted, jobs := start, [];
      for idx := 0 to |deps|
        invariant Working(loaded, had, root, cache, adopted) && start <= adopted
        invariant JobsOf(cache, deps[..idx], jobs)
        invariant Kept(old(cache), cache)
        invariant forall n :: |start| <= n < |adopted| ==> fresh(adopted[n])
        invariant Blank(adopted, |start|)
        invariant |Remaining(loaded, root, cache)| + |adopted| == |Remaining(loaded, root, old(cache))| + |start|
      {
        adopted, jobs := AdoptNext(had, root, adopted, k, jobs);
      }
      assert deps[..|deps|] == deps;
    }

    method AdoptNext(ghost had: map<Key, ModuleJob>, ghost root: Key, start: seq<ModuleJob>, k: Key,
                     found: seq<ModuleJob>)
      returns (adopted: seq<ModuleJob>, jobs: seq<ModuleJob>)
      requires Working(loaded, had, root, cache, start) && Missing(loaded, had.Keys, root, k)
      requires |found| < |Dependencies(loaded, k)| && JobsOf(cache, Dependencies(loaded, k)[..|found|], found)
      modifies this
      ensures Working(loaded, had, root, cache, adopted) && start <= adopted
      ensures |jobs| == |found| + 1 && JobsOf(cache, Dependencies(loaded, k)[..|jobs|], jobs)
      ensures Kept(old(cache), cache)
      ensures forall n :: |start| <= n < |adopted| ==> fresh(adopted[n])
      ensures Blank(adopted, |start|)
      ensures |Remaining(loaded, root, cache)| + |adopted| == |Remaining(loaded, root, old(cache))| + |start|
    {
      var d := Dependencies(loaded, k)[|found|];
      adopted := AdoptUncached(had, root, start, k, d);
      jobs := found + [cache[d]];
      JobsOfLater(old(cache), cache, Dependencies(loaded, k), found);
    }

    method AdoptUncached(ghost had: map<Key, ModuleJob>, ghost root: Key, start: seq<ModuleJob>, ghost k: Key, d: Key)
      returns (adopted: seq<ModuleJob>)
      requires Working(loaded, had, root, cache, start) && Missing(loaded, had.Keys, root, k)
      requires d in Dependencies(loaded, k)
      modifies this
      ensures Working(loaded, had, root, cache, adopted) && start <= adopted
      ensures Kept(old(cache), cache) && d in cache
      ensures forall n :: |start| <= n < |adopted| ==> fresh(adopted[n])
      ensures Blank(adopted, |start|)
      ensures |Remaining(loaded, root, cache)| + |adopted| == |Remaining(loaded, root, old(cache))| + |start|
    {
      adopted := start;
      if d !in cache {
        var job := Adopt(d);
        adopted := start + [job];
        WorkingOneMore(loaded, had, root, old(cache), start, job, k);
      }
    }

    /** One turn of the worklist. */
    method LinkJob(ghost had: map<Key, ModuleJob>, ghost root: Key, start: seq<ModuleJob>, i: nat)
      returns (adopted: seq<ModuleJob>)
      requires Working(loaded, had, root, cache, start) && i < |start|
      requires Blank(start, i) && LinkedUpTo(start, i)
      modifies this, start[i]
      ensures Working(loaded, had, root, cache, adopted) && start <= adopted
      ensures Kept(old(cache), cache)
      ensures forall n :: |start| <= n < |adopted| ==> fresh(adopted[n])
      ensures Blank(adopted, i + 1) && LinkedUpTo(adopted, i + 1)
      ensures |Remaining(loaded, root, cache)| + |adopted| == |Remaining(loaded, root, old(cache))| + |start|
    {
      WorkingAt(loaded, had, root, cache, start, i);
      var jobs;
      adopted, jobs := AdoptDependencies(had, root, start, start[i].key);
      BlankAfter(start, adopted, i);
      LinkedStays(start, adopted, i, old(cache));
      WorkingAt(loaded, had, root, cache, adopted, i);
      SetLinked(adopted, i, jobs);
    }

    method SetLinked(adopted: seq<ModuleJob>, i: nat, jobs: seq<ModuleJob>)
      requires i < |adopted| && NoDuplicates(adopted)
      requires Blank(adopted, i) && LinkedUpTo(adopted, i)
      requires JobsOf(cache, Dependencies(loaded, adopted[i].key), jobs)
      modifies adopted[i]
      ensures Blank(adopted, i + 1) && LinkedUpTo(adopted, i + 1)
    {
      adopted[i].linked := Some(jobs);
    }

    lemma BlankAfter(start: seq<ModuleJob>, adopted: seq<ModuleJob>, i: nat)
      requires i <= |start| && start <= adopted && Blank(start, i) && Blank(adopted, |start|)
      ensures Blank(adopted, i)
    {}

    lemma LinkedStays(start: seq<ModuleJob>, adopted: seq<ModuleJob>, i: nat, before: map<Key, ModuleJob>)
      requires i <= |start| && start <= adopted && Kept(before, cache)
      requires forall n :: 0 <= n < i ==>
        && start[n].linked.Some? && start[n].instantiated == (start[n].key.url in instantiated)
        && JobsOf(before, Dependencies(loaded, start[n].key), start[n].linked.value)
      ensures LinkedUpTo(adopted, i)
    {
      forall n | 0 <= n < i
        ensures JobsOf(cache, Dependencies(loaded, adopted[n].key), adopted[n].linked.value)
      {
        JobsOfStays(before, cache, Dependencies(loaded, adopted[n].key), adopted[n].linked.value);
      }
    }

    /** When the worklist is done, exactly the missing modules have a new job. */
    lemma AdoptionComplete(had: map<Key, ModuleJob>, root: Key, adopted: seq<ModuleJob>)
      requires Working(loaded, had, root, cache, adopted) && LinkedUpTo(adopted, |adopted|)
      ensures Kept(had, cache)
      ensures forall k :: Missing(loaded, had.Keys, root, k) <==> k in cache && k !in had
      ensures forall k :: k in cache && k !in had ==>
                && cache[k] in adopted && cache[k].key == k && cache[k].linked.Some?
                && cache[k].instantiated == (k.url in instantiated)
                && JobsOf(cache, Dependencies(loaded, k), cache[k].linked.value)
    {
      WorkingMeans(loaded, had, root, cache, adopted);
      forall k | k in cache && k !in had
        ensures cache[k] in adopted && cache[k].key == k && cache[k].linked.Some?
        ensures cache[k].instantiated == (k.url in instantiated)
        ensures JobsOf(cache, Dependencies(loaded, k), cache[k].linked.value)
        ensures Missing(loaded, had.Keys, root, k)
      {
        var n :| 0 <= n < |adopted| && adopted[n] == cache[k];
      }
      forall k | Missing(loaded, had.Keys, root, k)
        ensures k in cache && k !in had
      {
        var path :| NewPath(loaded, had.Keys, root, path) && path[|path| - 1] == k;
        ClosedHoldsMissing(loaded, had.Keys, cache.Keys, root, path);
      }
    }
  
    /** Adopt a module the host has instantiated, and every module it needs that has no job
        yet: exactly those get one, linked to the cached jobs of their dependencies. */
    method AdoptLoadedJob(root: Key) returns (job: ModuleJob)
      requires Valid() && root !in cache
      modifies this
      ensures Valid() && Kept(old(cache), cache)
      ensures root in cache && job == cache[root]
      ensures forall k :: Missing(loaded, old(cache).Keys, root, k) <==> k in cache && k !in old(cache)
      ensures forall k :: k in cache && k !in old(cache) ==>
                fresh(cache[k]) && cache[k].linked.Some? && cache[k].instantiated == (k.url in instantiated)
    {
      ghost var had := cache;
      job := Adopt(root);
      FirstAdopted(had, root, job);
      assert Blank([job], 0);
      AdoptFrom(had, root, job);
    }

    /** The worklist, with the root's job on it. */
    method AdoptFrom(ghost had: map<Key, ModuleJob>, ghost root: Key, job: ModuleJob)
      requires Working(loaded, had, root, cache, [job]) && Blank([job], 0) && Linked(had)
      requires root in cache && job == cache[root] && forall k :: k in had ==> had[k] != job
      modifies this, job
      ensures Valid() && Kept(old(cache), cache)
      ensures forall k :: Missing(loaded, had.Keys, root, k) <==> k in cache && k !in had
      ensures forall k :: k in cache && k !in had ==>
                && (cache[k] == job || fresh(cache[k])) && cache[k].linked.Some?
                && cache[k].instantiated == (k.url in instantiated)
    {
      ghost var adopted := RunWorklist(had, root, [job]);
      AdoptionComplete(had, root, adopted);
      OldJobsStay(had);
    }

    method RunWorklist(ghost had: map<Key, ModuleJob>, ghost root: Key, start: seq<ModuleJob>)
      returns (adopted: seq<ModuleJob>)
      requires Working(loaded, had, root, cache, start) && Blank(start, 0)
      modifies this, start
      ensures Working(loaded, had, root, cache, adopted) && LinkedUpTo(adopted, |adopted|)
      ensures Kept(old(cache), cache)
      ensures forall n :: 0 <= n < |adopted| ==> adopted[n] in start || fresh(adopted[n])
    {
      adopted := start;
      var i := 0;
      while i < |adopted|
        invariant 0 <= i <= |adopted|
        invariant Working(loaded, had, root, cache, adopted)
        invariant Kept(old(cache), cache)
        invariant forall n :: 0 <= n < |adopted| ==> adopted[n] in start || fresh(adopted[n])
        invariant Blank(adopted, i) && LinkedUpTo(adopted, i)
        decreases |Remaining(loaded, root, cache)| + |adopted| - i
      {
        adopted := LinkJob(had, root, adopted, i);
        i := i + 1;
      }
    }

    lemma FirstAdopted(had: map<Key, ModuleJob>, root: Key, job: ModuleJob)
      requires root !in had && cache == had[root := job] && job.key == root
      ensures Working(loaded, had, root, cache, [job])
    {
      RootMissing(loaded, had.Keys, root);
      WorkingMeans(loaded, had, root, cache, [job]);
      assert [job][0] == job;
    }

    /** Links among the jobs there were still lead to cached jobs. */
    lemma OldJobsStay(had: map<Key, ModuleJob>)
      requires Kept(had, cache) && Linked(had)
      requires forall k :: k in cache && k !in had && cache[k].linked.Some? ==>
        JobsOf(cache, Dependencies(loaded, k), cache[k].linked.value)
      requires forall k :: k in cache && k !in had ==> cache[k].key == k
      ensures Valid()
    {
      forall k | k in had && had[k].linked.Some?
        ensures JobsOf(cache, Dependencies(loaded, k), had[k].linked.value)
      {
        JobsOfStays(had, cache, Dependencies(loaded, k), had[k].linked.value);
      }
    }

    /** The job of a resolved request: the cached one, else one adopted from the host or a new
        one.  A type the host refuses, or a module it cannot load, leaves the cache alone. */
    method GetJob(k: Key, refused: Option<Reason>, loadFails: Option<Reason>) returns (r: JobResult)
      requires Valid()
      modifies this
      ensures Valid() && Kept(old(cache), cache)
      ensures r.Found? <==> k in cache
      ensures r.Found? ==> r.job == cache[k]
      ensures r.NoJob? ==> cache == old(cache)
      ensures k in old(cache) ==> cache == old(cache)
      ensures r.NoJob? <==> k !in old(cache) && (refused.Some? || (k.url !in instantiated && loadFails.Some?))
      ensures k !in old(cache) && k.url !in instantiated && r.Found? ==>
                cache == old(cache)[k := r.job] && fresh(r.job) && r.job.linked == None
      ensures k !in old(cache) && k.url in instantiated && r.Found? ==>
                && (forall j :: Missing(loaded, old(cache).Keys, k, j) <==> j in cache && j !in old(cache))
                && (forall j :: j in cache && j !in old(cache) ==>
                      && fresh(cache[j]) && cache[j].linked.Some?
                      && cache[j].instantiated == (j.url in instantiated))
    {
      if k in cache {
        return Found(cache[k]);
      }
      if refused.Some? {
        return NoJob(refused.value);
      }
      var job;
      if k.url in instantiated {
        job := AdoptLoadedJob(k);
      } else {
        if loadFails.Some? {
          return NoJob(loadFails.value);
        }
        ghost var had := cache;
        job := Adopt(k);
        OldJobsStay(had);
      }
      return Found(job);
    }
  }

  datatype JobResult = Found(job: ModuleJob) | NoJob(reason: Reason)
}
