/** A flow in which a job starts although one of its transitive dependencies fails. */
module FlowMarked {
  import opened FlowTypes
  import opened FlowRuns
  import opened FlowTheorems
  import opened FlowRestart
  import opened FlowExact

  ghost predicate AllDifferent(r: Job, a: Job, b: Job, c: Job) {
    r != a && r != b && r != c && a != b && a != c && b != c
  }

  /** The root r depends on a and c, c on b, and b on a. */
  function Diamond(r: Job, a: Job, b: Job, c: Job): Graph {
    Graph(map[r := [a, c], c := [b], b := [a], a := []], r)
  }

  /** All flows are new, but b was marked as completed. */
  function BMarked(r: Job, a: Job, b: Job, c: Job): map<Job, Flow> {
    var new3 := Multiple(FRESH, FRESH, FRESH);
    var marked := FRESH.(status := COMPLETED, parentProps := Some(map[]));
    map[r := new3, c := new3, b := new3.(composed := marked), a := Single(FRESH)]
  }

  lemma DiamondRanked(r: Job, a: Job, b: Job, c: Job) returns (rank: map<Job, nat>)
    requires AllDifferent(r, a, b, c)
    ensures Diamond(r, a, b, c).RankedBy(rank)
  {
    rank := map[a := 0, b := 1, c := 2, r := 3];
  }

  lemma LiveBoth(r: Job, a: Job, b: Job, c: Job)
    requires AllDifferent(r, a, b, c)
    ensures Live(Diamond(r, a, b, c), BMarked(r, a, b, c), a) && Live(Diamond(r, a, b, c), BMarked(r, a, b, c), c)
  {
    var g, flows := Diamond(r, a, b, c), BMarked(r, a, b, c);
    forall x | x in [a, c] ensures Live(g, flows, x) {
      assert LivePath(g, flows, [r, x]) && [r, x][|[r, x]| - 1] == x;
    }
    assert a in [a, c] && c in [a, c];
  }

  lemma OnlyThroughB(r: Job, a: Job, b: Job, c: Job)
    requires AllDifferent(r, a, b, c)
    ensures !OpenPath(Diamond(r, a, b, c), BMarked(r, a, b, c), c, a)
  {
    var g, flows := Diamond(r, a, b, c), BMarked(r, a, b, c);
    forall q | DependencyPath(g, q) && |q| > 0 && q[0] == c && q[|q| - 1] == a ensures !UnmarkedAtStart(g, flows, q) {
      assert q[0 + 1] in g.deps[q[0]];
      assert q[1] == b;
    }
  }

  /** The claim that no transitive dependent of a failed job ever starts is false once jobs may be
      marked as completed: here c depends on a through b, b was marked, and there is a run in which a
      fails and c starts. */
  lemma {:induction false} DependentOfAFailedJobStarts(r: Job, a: Job, b: Job, c: Job)
    requires AllDifferent(r, a, b, c)
    ensures DependencyPath(Diamond(r, a, b, c), [c, b, a])
    ensures StartsByTurns(Diamond(r, a, b, c), map[], BMarked(r, a, b, c), c, a)
  {
    hide Live, OpenPath, StartsDespite, StartsByTurns, DependencyPath, Startable, Diamond, BMarked;
    var rank := DiamondRanked(r, a, b, c);
    PathDown(r, a, b, c);
    BMarkedFits(r, a, b, c);
    LiveBoth(r, a, b, c);
    OnlyThroughB(r, a, b, c);
    StartsDespiteIff(Diamond(r, a, b, c), map[], BMarked(r, a, b, c), rank, c, a);
  }

  lemma PathDown(r: Job, a: Job, b: Job, c: Job)
    requires AllDifferent(r, a, b, c)
    ensures DependencyPath(Diamond(r, a, b, c), [c, b, a])
  {
  }

  lemma BMarkedFits(r: Job, a: Job, b: Job, c: Job)
    requires AllDifferent(r, a, b, c)
    ensures Startable(Diamond(r, a, b, c), map[], BMarked(r, a, b, c))
  {
    hide Startable;
    FreshIsStartable(Diamond(r, a, b, c), map[], BMarked(r, a, b, c));
  }
}
