/** From job descriptors to flows: Flows.buildLegacyFlow with its memo. */
module FlowBuilding {
  import opened FlowTypes
  import opened FlowGraph

  /** A flow is a lone job, or a job together with the flows it depends on. */
  datatype JobFlow =
    | IndividualJobFlow(name: Job)
    | MultipleDependencyFlow(depender: Job, dependees: seq<JobFlow>)
  {
    function Name(): Job {
      if IndividualJobFlow? then name else depender
    }
  }

  /** The flow describes the job it is named after: it unfolds to the job's dependencies, in order,
      and each of those to its own. */
  ghost predicate Describes(g: Graph, f: JobFlow)
    decreases f
  {
    && f.Name() in g.deps
    && match f
       case IndividualJobFlow(k) => g.deps[k] == []
       case MultipleDependencyFlow(k, ds) =>
         && |ds| == |g.deps[k]| > 0
         && forall i {:trigger ds[i]} :: 0 <= i < |ds| ==> ds[i].Name() == g.deps[k][i] && Describes(g, ds[i])
  }

  /** A job has only one flow that describes it. */
  lemma {:induction false} DescriptionIsUnique(g: Graph, f: JobFlow, f': JobFlow)
    requires Describes(g, f) && Describes(g, f') && f.Name() == f'.Name()
    ensures f == f'
  {
    if f.MultipleDependencyFlow? {
      forall i | 0 <= i < |f.dependees| ensures f.dependees[i] == f'.dependees[i] {
        DescriptionIsUnique(g, f.dependees[i], f'.dependees[i]);
      }
      assert f.dependees == f'.dependees;
    }
  }

  /** k and all its transitive dependencies. */
  ghost function ReachSet(g: Graph, rank: map<Job, nat>, k: Job): set<Job>
    requires g.RankedBy(rank) && k in g.deps
  {
    set j | j in g.deps && Reaches(g, rank, k, j)
  }

  /** What the first n dependencies of k reach. */
  ghost function ReachFirst(g: Graph, rank: map<Job, nat>, k: Job, n: nat): set<Job>
    requires g.RankedBy(rank) && k in g.deps && n <= |g.deps[k]|
  {
    set j | j in g.deps && ChildReaches(g, rank, k, n, j)
  }

  lemma ReachNext(g: Graph, rank: map<Job, nat>, k: Job, i: nat)
    requires g.RankedBy(rank) && k in g.deps && i < |g.deps[k]|
    ensures ReachFirst(g, rank, k, i + 1) == ReachFirst(g, rank, k, i) + ReachSet(g, rank, g.deps[k][i])
  {
    forall j | j in g.deps
      ensures ChildReaches(g, rank, k, i + 1, j) <==>
                ChildReaches(g, rank, k, i, j) || Reaches(g, rank, g.deps[k][i], j)
    {
      ChildStep(g, rank, k, i, j);
    }
  }

  lemma ReachAll(g: Graph, rank: map<Job, nat>, k: Job)
    requires g.RankedBy(rank) && k in g.deps
    ensures ReachSet(g, rank, k) == {k} + ReachFirst(g, rank, k, |g.deps[k]|)
  {
  }

  /** Nothing that is below k depends on k. */
  lemma {:induction false} ReachGoesDown(g: Graph, rank: map<Job, nat>, k: Job, j: Job)
    requires g.RankedBy(rank) && k in g.deps && j in g.deps && Reaches(g, rank, k, j)
    ensures j == k || rank[j] < rank[k]
    decreases rank[k]
  {
    if j != k {
      var i :| 0 <= i < |g.deps[k]| && Reaches(g, rank, g.deps[k][i], j);
      ReachGoesDown(g, rank, g.deps[k][i], j);
    }
  }

  /** A set of jobs that holds the dependencies of its members. */
  ghost predicate ClosedUnder(g: Graph, known: set<Job>) {
    forall k, i {:trigger g.deps[k][i]} :: k in known && k in g.deps && 0 <= i < |g.deps[k]| ==> g.deps[k][i] in known
  }

  lemma {:induction false} ReachStaysIn(g: Graph, rank: map<Job, nat>, known: set<Job>, k: Job)
    requires g.RankedBy(rank) && k in g.deps && k in known && ClosedUnder(g, known)
    ensures ReachSet(g, rank, k) <= known
    decreases rank[k]
  {
    forall j | j in ReachSet(g, rank, k) ensures j in known {
      if j != k {
        var i :| 0 <= i < |g.deps[k]| && Reaches(g, rank, g.deps[k][i], j);
        ReachStaysIn(g, rank, known, g.deps[k][i]);
        assert j in ReachSet(g, rank, g.deps[k][i]);
      }
    }
  }

  /** Every entry of the memo describes its key, and the memo knows all the jobs below it. */
  ghost predicate MemoOk(g: Graph, memo: map<Job, JobFlow>) {
    && (forall k :: k in memo ==> memo[k].Name() == k && Describes(g, memo[k]))
    && ClosedUnder(g, memo.Keys)
  }

  ghost predicate Keeps(memo: map<Job, JobFlow>, memo': map<Job, JobFlow>) {
    forall k :: k in memo ==> k in memo' && memo'[k] == memo[k]
  }

  /** The first flows describe the first dependencies of k. */
  ghost predicate DescribesFirst(g: Graph, k: Job, flows: seq<JobFlow>)
    requires k in g.deps
  {
    && |flows| <= |g.deps[k]|
    && forall i {:trigger flows[i]} :: 0 <= i < |flows| ==> flows[i].Name() == g.deps[k][i] && Describes(g, flows[i])
  }

  lemma DescribesNext(g: Graph, k: Job, flows: seq<JobFlow>, f: JobFlow)
    requires k in g.deps && |flows| < |g.deps[k]| && DescribesFirst(g, k, flows)
    requires Describes(g, f) && f.Name() == g.deps[k][|flows|]
    ensures DescribesFirst(g, k, flows + [f])
  {
  }

  lemma DescribesDependent(g: Graph, k: Job, flows: seq<JobFlow>)
    requires k in g.deps && DescribesFirst(g, k, flows) && |flows| == |g.deps[k]| > 0
    ensures Describes(g, MultipleDependencyFlow(k, flows))
  {
  }

  /** What is in the memo was put there whole: once it holds the dependencies of k it may hold k. */
  lemma MemoAdds(g: Graph, rank: map<Job, nat>, memo: map<Job, JobFlow>, f: JobFlow)
    requires g.RankedBy(rank) && MemoOk(g, memo) && Describes(g, f)
    requires ReachFirst(g, rank, f.Name(), |g.deps[f.Name()]|) <= memo.Keys
    ensures MemoOk(g, memo[f.Name() := f])
  {
    var k := f.Name();
    forall i | 0 <= i < |g.deps[k]| ensures g.deps[k][i] in memo {
      assert Reaches(g, rank, g.deps[k][i], g.deps[k][i]);
      assert g.deps[k][i] in ReachFirst(g, rank, k, |g.deps[k]|);
    }
  }

  lemma MemoHit(g: Graph, rank: map<Job, nat>, memo: map<Job, JobFlow>, k: Job)
    requires g.RankedBy(rank) && MemoOk(g, memo) && k in memo && k in g.deps
    ensures Describes(g, memo[k]) && memo[k].Name() == k && memo.Keys == memo.Keys + ReachSet(g, rank, k)
  {
    ReachStaysIn(g, rank, memo.Keys, k);
  }

  class Flows {
    var alreadyBuiltFlows: map<Job, JobFlow>

    constructor ()
      ensures alreadyBuiltFlows == map[]
    {
      alreadyBuiltFlows := map[];
    }

    /** Builds the flow that describes the job; the memo grows by exactly the jobs it reaches. */
    method BuildLegacyFlow(g: Graph, ghost rank: map<Job, nat>, root: Job) returns (flow: JobFlow)
      requires g.RankedBy(rank) && root in g.deps && MemoOk(g, alreadyBuiltFlows)
      modifies this
      ensures Describes(g, flow) && flow.Name() == root && MemoOk(g, alreadyBuiltFlows)
      ensures alreadyBuiltFlows.Keys == old(alreadyBuiltFlows.Keys) + ReachSet(g, rank, root)
      ensures Keeps(old(alreadyBuiltFlows), alreadyBuiltFlows)
      decreases rank[root]
    {
      hide MemoOk, Describes, DescribesFirst, ReachSet, ReachFirst;
      if root in alreadyBuiltFlows {
        MemoHit(g, rank, alreadyBuiltFlows, root);
        return alreadyBuiltFlows[root];
      }
      NothingYet(g, rank, root);
      if g.deps[root] != [] {
        var depFlows: seq<JobFlow> := [];
        var index := 0;
        while index < |g.deps[root]|
          invariant index == |depFlows| <= |g.deps[root]| && MemoOk(g, alreadyBuiltFlows)
          invariant DescribesFirst(g, root, depFlows)
          invariant alreadyBuiltFlows.Keys == old(alreadyBuiltFlows.Keys) + ReachFirst(g, rank, root, index)
          invariant Keeps(old(alreadyBuiltFlows), alreadyBuiltFlows)
        {
          var depFlow := BuildLegacyFlow(g, rank, g.deps[root][index]);
          DescribesNext(g, root, depFlows, depFlow);
          depFlows := depFlows + [depFlow];
          ReachNext(g, rank, root, index);
          index := index + 1;
        }
        DescribesDependent(g, root, depFlows);
        flow := MultipleDependencyFlow(root, depFlows);
      } else {
        flow := IndividualJobFlow(root);
        DescribesLone(g, root);
      }
      ReachAll(g, rank, root);
      MemoAdds(g, rank, alreadyBuiltFlows, flow);
      alreadyBuiltFlows := alreadyBuiltFlows[flow.Name() := flow];
    }
  }

  lemma NothingYet(g: Graph, rank: map<Job, nat>, k: Job)
    requires g.RankedBy(rank) && k in g.deps
    ensures ReachFirst(g, rank, k, 0) == {} && DescribesFirst(g, k, [])
  {
  }

  lemma DescribesLone(g: Graph, k: Job)
    requires k in g.deps && g.deps[k] == []
    ensures Describes(g, IndividualJobFlow(k))
  {
  }
}
