/** Reachability along dependencies. */
module FlowGraph {
  import opened FlowTypes

  /** j is k or one of its transitive dependencies. */
  ghost predicate Reaches(g: Graph, rank: map<Job, nat>, k: Job, j: Job)
    requires g.RankedBy(rank) && k in g.deps
    decreases rank[k]
  {
    k == j || exists i :: 0 <= i < |g.deps[k]| && Reaches(g, rank, g.deps[k][i], j)
  }

  /** Some of the first n children of k reach j. */
  ghost predicate ChildReaches(g: Graph, rank: map<Job, nat>, k: Job, n: nat, j: Job)
    requires g.RankedBy(rank) && k in g.deps && n <= |g.deps[k]|
  {
    exists i :: 0 <= i < n && Reaches(g, rank, g.deps[k][i], j)
  }

  lemma NoChildReaches(g: Graph, rank: map<Job, nat>, k: Job)
    requires g.RankedBy(rank) && k in g.deps
    ensures forall j :: !ChildReaches(g, rank, k, 0, j)
  {
  }

  lemma AllChildrenReach(g: Graph, rank: map<Job, nat>, k: Job)
    requires g.RankedBy(rank) && k in g.deps
    ensures forall j :: Reaches(g, rank, k, j) <==> j == k || ChildReaches(g, rank, k, |g.deps[k]|, j)
  {
  }

  lemma ChildStep(g: Graph, rank: map<Job, nat>, k: Job, i: nat, j: Job)
    requires g.RankedBy(rank) && k in g.deps && i < |g.deps[k]|
    ensures ChildReaches(g, rank, k, i + 1, j) <==>
              ChildReaches(g, rank, k, i, j) || Reaches(g, rank, g.deps[k][i], j)
  {
    if ChildReaches(g, rank, k, i, j) {
      var c :| 0 <= c < i && Reaches(g, rank, g.deps[k][c], j);
      assert 0 <= c < i + 1;
    }
  }

  lemma {:induction false} ReachesChild(g: Graph, rank: map<Job, nat>, k: Job, m: Job, i: nat)
    requires g.RankedBy(rank) && k in g.deps && m in g.deps && Reaches(g, rank, k, m) && i < |g.deps[m]|
    ensures Reaches(g, rank, k, g.deps[m][i])
    decreases rank[k]
  {
    if k == m {
      assert Reaches(g, rank, g.deps[k][i], g.deps[m][i]);
    } else {
      var c :| 0 <= c < |g.deps[k]| && Reaches(g, rank, g.deps[k][c], m);
      ReachesChild(g, rank, g.deps[k][c], m, i);
    }
  }
}
