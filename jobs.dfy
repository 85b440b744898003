/** Jobs and the registry that maps a job key to its handler
    (src/job.ts, packages/core/index.ts and the registration loops of
    src/request.ts and packages/core/adapters/nextjs.ts). */
module Jobs {

  /** The identity of a handler function; what a call to it does is given
      separately, by an `Invoker`, because it is application code. */
  datatype Handler = Handler(id: nat)

  datatype Job = Job(key: string, handler: Handler)

  type Registry = map<string, Handler>

  /** `registry.set(job.key, job.handler)`. */
  function Register(registry: Registry, job: Job): (r: Registry)
    ensures r.Keys == registry.Keys + {job.key}
    ensures r[job.key] == job.handler
    ensures forall k | k in registry && k != job.key :: r[k] == registry[k]
    ensures |r| <= |registry| + 1
    ensures job.key in registry ==> |r| == |registry|
  {
    registry[job.key := job.handler]
  }

  /** The registry that registering `jobs` in order into an empty map produces. */
  function Built(jobs: seq<Job>): Registry
  {
    if jobs == [] then map[] else Register(Built(jobs[..|jobs| - 1]), jobs[|jobs| - 1])
  }

  function KeysOf(jobs: seq<Job>): set<string>
  {
    set j | j in jobs :: j.key
  }

  /** `jobs[i]` is the last job in `jobs` with its key. */
  ghost predicate LastWithKey(jobs: seq<Job>, i: int)
  {
    0 <= i < |jobs| && forall j | i < j < |jobs| :: jobs[j].key != jobs[i].key
  }

  /** Every key of `jobs` is registered, and no other key. */
  lemma {:induction false} BuiltKeys(jobs: seq<Job>)
    ensures Built(jobs).Keys == KeysOf(jobs)
  {
    if jobs != [] {
      var init, last := jobs[..|jobs| - 1], jobs[|jobs| - 1];
      BuiltKeys(init);
      assert Built(jobs).Keys == Built(init).Keys + {last.key};
      KeysOfSnoc(init, last);
      assert jobs == init + [last];
    }
  }

  lemma KeysOfSnoc(init: seq<Job>, last: Job)
    ensures KeysOf(init + [last]) == KeysOf(init) + {last.key}
  {
  }

  /** When a key occurs several times, the last job with it supplies the handler. */
  lemma {:induction false} LastDuplicateWins(jobs: seq<Job>, i: int)
    requires LastWithKey(jobs, i)
    ensures jobs[i].key in Built(jobs) && Built(jobs)[jobs[i].key] == jobs[i].handler
  {
    if i < |jobs| - 1 {
      var init := jobs[..|jobs| - 1];
      assert init[i] == jobs[i];
      assert LastWithKey(init, i) by {
        forall j | i < j < |init| ensures init[j].key != init[i].key {
          assert init[j] == jobs[j];
        }
      }
      LastDuplicateWins(init, i);
    }
  }

  /** A key is looked up to a handler exactly when some job with that key
      carries it and no later job has the same key. */
  lemma LookupIsLastJob(jobs: seq<Job>, k: string)
    ensures k in Built(jobs) <==> exists i :: 0 <= i < |jobs| && jobs[i].key == k
    ensures k in Built(jobs) ==>
      exists i :: LastWithKey(jobs, i) && jobs[i].key == k && Built(jobs)[k] == jobs[i].handler
  {
    BuiltKeys(jobs);
    if k in Built(jobs) {
      var i := LastIndexOf(jobs, k);
      LastDuplicateWins(jobs, i);
    }
    if exists i :: 0 <= i < |jobs| && jobs[i].key == k {
      var i :| 0 <= i < |jobs| && jobs[i].key == k;
      assert jobs[i] in jobs;
    }
  }

  /** The index of the last job with key `k`. */
  function LastIndexOf(jobs: seq<Job>, k: string): (i: int)
    requires k in KeysOf(jobs)
    ensures LastWithKey(jobs, i) && jobs[i].key == k
  {
    if jobs[|jobs| - 1].key == k then |jobs| - 1
    else
      var init := jobs[..|jobs| - 1];
      assert k in KeysOf(init) by {
        var j :| j in jobs && j.key == k;
        var n :| 0 <= n < |jobs| && jobs[n] == j;
        assert init[n] == j;
      }
      var i := LastIndexOf(init, k);
      assert init[i] == jobs[i];
      assert forall j | i < j < |init| :: init[j] == jobs[j];
      i
  }

  /** The registration loop: `for (const job of jobs) registry.set(job.key, job.handler)`. */
  method BuildRegistry(jobs: seq<Job>) returns (registry: Registry)
    ensures registry == Built(jobs)
    ensures registry.Keys == KeysOf(jobs)
    ensures forall i | LastWithKey(jobs, i) :: jobs[i].key in registry && registry[jobs[i].key] == jobs[i].handler
  {
    registry := map[];
    for i := 0 to |jobs|
      invariant registry == Built(jobs[..i])
    {
      assert jobs[..i + 1][..i] == jobs[..i] && jobs[..i + 1][i] == jobs[i];
      registry := registry[jobs[i].key := jobs[i].handler];
      assert registry == Register(Built(jobs[..i]), jobs[i]);
    }
    assert jobs[..|jobs|] == jobs;
    BuiltKeys(jobs);
    forall i | LastWithKey(jobs, i)
      ensures jobs[i].key in registry && registry[jobs[i].key] == jobs[i].handler
    {
      LastDuplicateWins(jobs, i);
    }
  }
}
