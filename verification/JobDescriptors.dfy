/** From the loaded job files to the job graph: JobManager.addDependencies and the root jobs. */
module JobDescriptors {
  import opened FlowTypes
  import opened FlowOutcome
  import opened Sequences
  import opened FlowGraph

  /** path is the directory below the job directory; listed is the dependencies property, split. */
  datatype Descriptor = Descriptor(path: string, listed: seq<string>)

  /** String.trim. */
  function TrimLeft(s: string): string {
    if s != "" && s[0] <= ' ' then TrimLeft(s[1..]) else s
  }

  function TrimRight(s: string): string {
    if s != "" && s[|s| - 1] <= ' ' then TrimRight(s[..|s| - 1]) else s
  }

  function Trim(s: string): string {
    TrimRight(TrimLeft(s))
  }

  /** What trim leaves is the text between the first and the last character above the space. */
  lemma {:induction false} TrimIs(s: string) returns (i: nat, j: nat)
    ensures i <= j <= |s| && Trim(s) == s[i..j]
    ensures forall x :: 0 <= x < i || j <= x < |s| ==> s[x] <= ' '
    ensures i < j ==> s[i] > ' ' && s[j - 1] > ' '
  {
    i := TrimLeftIs(s);
    var k := TrimRightIs(s[i..]);
    j := i + k;
  }

  lemma {:induction false} TrimLeftIs(s: string) returns (i: nat)
    ensures i <= |s| && TrimLeft(s) == s[i..] && forall x :: 0 <= x < i ==> s[x] <= ' '
    ensures i < |s| ==> s[i] > ' '
  {
    i := 0;
    if s != "" && s[0] <= ' ' {
      var k := TrimLeftIs(s[1..]);
      i := k + 1;
    }
  }

  lemma {:induction false} TrimRightIs(s: string) returns (j: nat)
    ensures j <= |s| && TrimRight(s) == s[..j] && forall x :: j <= x < |s| ==> s[x] <= ' '
    ensures j > 0 ==> s[j - 1] > ' '
    decreases |s|
  {
    j := |s|;
    if s != "" && s[|s| - 1] <= ' ' { j := TrimRightIs(s[..|s| - 1]); }
  }

  /** The names among the listed ones that count. */
  function Wanted(listed: seq<string>): set<string> {
    set i | 0 <= i < |listed| && Trim(listed[i]) != "" :: Trim(listed[i])
  }

  datatype Result = Dependencies(deps: map<Job, seq<Job>>) | NoSuchJob(job: Job, name: string)

  lemma WantedNext(listed: seq<string>, i: nat)
    requires i < |listed|
    ensures Wanted(listed[..i + 1]) == Wanted(listed[..i]) + (if Trim(listed[i]) == "" then {} else {Trim(listed[i])})
  {
    var own := if Trim(listed[i]) == "" then {} else {Trim(listed[i])};
    var l, r := Wanted(listed[..i + 1]), Wanted(listed[..i]) + own;
    forall x | x in l ensures x in r {
      var k :| 0 <= k < i + 1 && Trim(listed[..i + 1][k]) != "" && Trim(listed[..i + 1][k]) == x;
      if k < i { assert listed[..i][k] == listed[k]; }
    }
    forall x | x in r ensures x in l {
      if x in Wanted(listed[..i]) {
        var k :| 0 <= k < i && Trim(listed[..i][k]) != "" && Trim(listed[..i][k]) == x;
        assert listed[..i + 1][k] == listed[k];
      } else {
        assert listed[..i + 1][i] == listed[i];
      }
    }
  }

  /** The first listed name that counts and is no job. */
  ghost predicate FirstMissing(jobs: map<Job, Descriptor>, listed: seq<string>, i: nat) {
    i < |listed| && Trim(listed[i]) != "" && Trim(listed[i]) !in jobs && Wanted(listed[..i]) <= jobs.Keys
  }

  /** The dependencies of one job, a set; the first name that is no job ends it, when those before it have
      been added. */
  method AddDependenciesOf(jobs: map<Job, Descriptor>, listed: seq<string>)
    returns (deps: seq<Job>, missing: Option<string>)
    ensures missing.None? ==> Members(deps) == Wanted(listed) <= jobs.Keys && Distinct(deps)
    ensures missing.Some? ==> missing.value in Wanted(listed) && missing.value !in jobs
    ensures missing.Some? ==>
              exists i: nat ::
                && FirstMissing(jobs, listed, i) && missing.value == Trim(listed[i])
                && Members(deps) == Wanted(listed[..i])
  {
    deps := [];
    var i := 0;
    while i < |listed|
      invariant i <= |listed| && Members(deps) == Wanted(listed[..i]) <= jobs.Keys && Distinct(deps)
    {
      var name := Trim(listed[i]);
      WantedNext(listed, i);
      if name != "" {
        if name in jobs {
          if name !in deps {
            deps := deps + [name];
          }
        } else {
          assert FirstMissing(jobs, listed, i);
          return deps, Some(name);
        }
      }
      i := i + 1;
    }
    assert listed[..|listed|] == listed;
    return deps, None;
  }

  /** addDependencies: it fails exactly if some job lists a name that is no job. */
  method AddDependencies(jobs: map<Job, Descriptor>) returns (r: Result)
    ensures r.Dependencies? <==> forall k :: k in jobs ==> Wanted(jobs[k].listed) <= jobs.Keys
    ensures r.Dependencies? ==>
              && r.deps.Keys == jobs.Keys
              && forall k :: k in jobs ==> Members(r.deps[k]) == Wanted(jobs[k].listed) && Distinct(r.deps[k])
    ensures r.NoSuchJob? ==> r.job in jobs && r.name in Wanted(jobs[r.job].listed) && r.name !in jobs
    ensures r.NoSuchJob? ==>
              exists i: nat :: FirstMissing(jobs, jobs[r.job].listed, i) && r.name == Trim(jobs[r.job].listed[i])
  {
    hide Wanted, Trim;
    var deps: map<Job, seq<Job>> := map[];
    var todo := jobs.Keys;
    while todo != {}
      invariant todo <= jobs.Keys && deps.Keys == jobs.Keys - todo
      invariant forall k :: k in deps ==>
                  Members(deps[k]) == Wanted(jobs[k].listed) && Wanted(jobs[k].listed) <= jobs.Keys && Distinct(deps[k])
      decreases todo
    {
      var job :| job in todo;
      todo := todo - {job};
      var own, missing := AddDependenciesOf(jobs, jobs[job].listed);
      if missing.Some? {
        return NoSuchJob(job, missing.value);
      }
      deps := deps[job := own];
    }
    return Dependencies(deps);
  }

  // ---- Root jobs ----

  /** Jobs that no job depends on. */
  ghost predicate IsRoot(deps: map<Job, seq<Job>>, j: Job) {
    j in deps && forall k :: k in deps ==> j !in deps[k]
  }

  /** getRootJobDescriptors: all jobs, with every dependency taken away. */
  method GetRoots(deps: map<Job, seq<Job>>) returns (roots: set<Job>)
    ensures forall j :: j in roots <==> IsRoot(deps, j)
  {
    roots := deps.Keys;
    var todo := deps.Keys;
    while todo != {}
      invariant todo <= deps.Keys
      invariant forall j :: j in roots <==> j in deps && forall k :: k in deps && k !in todo ==> j !in deps[k]
      decreases todo
    {
      var desc :| desc in todo;
      ghost var before := roots;
      var i := 0;
      while i < |deps[desc]|
        invariant i <= |deps[desc]| && roots == before - Members(deps[desc][..i])
      {
        roots := roots - {deps[desc][i]};
        assert Members(deps[desc][..i + 1]) == Members(deps[desc][..i]) + {deps[desc][i]};
        i := i + 1;
      }
      assert deps[desc][..i] == deps[desc];
      todo := todo - {desc};
    }
  }

  lemma {:induction false} ClimbToRoot(g: Graph, rank: map<Job, nat>, bound: nat, j: Job) returns (root: Job)
    requires g.RankedBy(rank) && j in g.deps && (forall k :: k in g.deps ==> rank[k] <= bound)
    ensures IsRoot(g.deps, root) && Reaches(g, rank, root, j)
    decreases bound - rank[j]
  {
    if IsRoot(g.deps, j) {
      root := j;
    } else {
      var k :| k in g.deps && j in g.deps[k];
      var i :| 0 <= i < |g.deps[k]| && g.deps[k][i] == j;
      root := ClimbToRoot(g, rank, bound, k);
      ReachesChild(g, rank, root, k, i);
    }
  }

  /** Without cycles every job is a root job or a transitive dependency of one. */
  lemma {:induction false} RootsReachAll(g: Graph, rank: map<Job, nat>, j: Job) returns (root: Job)
    requires g.RankedBy(rank) && j in g.deps
    ensures IsRoot(g.deps, root) && Reaches(g, rank, root, j)
  {
    var bound := RankBound(rank, g.deps.Keys);
    root := ClimbToRoot(g, rank, bound, j);
  }
}
