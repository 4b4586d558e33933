/** Exactly when resetFailedFlows turns a job that was set to IGNORED into one that will run. */
module FlowIgnored {
  import opened FlowTypes
  import opened FlowSteps
  import opened FlowInvariant
  import opened FlowDeliverSteps
  import opened FlowRuns
  import opened FlowTheorems
  import opened FlowOutcome
  import opened FlowRestart
  import opened FlowReset
  import opened FlowGraph
  import opened FlowThreads
  import opened FlowTermination
  import opened FlowSchedules
  import opened FlowExact

  /** This run of threads has come to an end after which the reset leaves job j READY. */
  ghost predicate ShowsForgotten(g: Graph, p: PropMap, flows: map<Job, Flow>, rank: map<Job, nat>, j: Job,
                                 run: seq<Machine>)
    requires g.RankedBy(rank)
  {
    && ThreadRunOf(g, p, run) && run[0].flows == flows
    && var m := run[|run| - 1];
       && Ended(m) && j in m.flows && m.flows[j].GetStatus() == FAILED
       && AfterReset(g, rank, m.flows, g.root)[j].job.status == READY
  }

  ghost predicate Forgets(g: Graph, p: PropMap, flows: map<Job, Flow>, rank: map<Job, nat>, j: Job)
    requires g.RankedBy(rank)
  {
    exists run: seq<Machine> :: ShowsForgotten(g, p, flows, rank, j, run)
  }

  /** Even threads that do not interrupt each other can bring it there. */
  ghost predicate ForgetsByTurns(g: Graph, p: PropMap, flows: map<Job, Flow>, rank: map<Job, nat>, j: Job)
    requires g.RankedBy(rank)
  {
    exists run: seq<Machine> :: ShowsForgotten(g, p, flows, rank, j, run) && OneAtATime(g, run)
  }

  /** A live path passes through j on its way down to a ready job e. */
  ghost predicate LiveThrough(g: Graph, flows: map<Job, Flow>, j: Job, e: Job) {
    && e in flows && flows[e].job.status == READY
    && exists path :: LivePath(g, flows, path) && j in path && path[|path| - 1] == e
  }

  // ---- At the end of a run ----

  /** At the end of a run a job that is IGNORED or COMPLETED stays so through the reset exactly if its flow
      has not failed, and it has failed exactly if it was executed and one of its dependencies failed. */
  lemma {:induction false} ResetForgetsIff(g: Graph, p: PropMap, run: seq<State>, rank: map<Job, nat>, j: Job)
    requires RunOf(g, p, run) && g.RankedBy(rank) && run[|run| - 1].pending == []
    requires j in run[|run| - 1].flows && run[|run| - 1].flows[j].job.status in {IGNORED, COMPLETED}
    ensures var s := run[|run| - 1]; var f := s.flows[j];
            && g.Closed() && j in g.deps && s.flows.Keys == g.deps.Keys
            && AfterReset(g, rank, s.flows, g.root)[j].job.status ==
                 (if f.GetStatus() == FAILED then READY else f.job.status)
            && (f.GetStatus() == FAILED <==>
                  && f.GetStatus() !in {READY, COMPLETED, IGNORED}
                  && exists d :: d in g.deps[j] && s.flows[d].GetStatus() == FAILED)
  {
    hide RunOf, Inv, Shape, Truthful, Conserved, PropsOk, RequestsOk, FlowOk, TriesOk, NotifyOk, JobOk, GroupOk,
         ComposedAt, Reaches;
    NonEmpty(g, p, run);
    var s := run[|run| - 1];
    RunFits(g, p, run, |run| - 1);
    InvShape(g, p, s);
    FlowParts(g, s, j);
    NothingRuns(g, p, s, rank, j);
    if s.flows[j].GetStatus() == FAILED {
      ResetAtEnd(g, p, s, rank, j);
      FailedGroup(g, s, j);
    } else if s.flows[j].GetStatus() == SUCCEEDED {
      SuccessBelow(g, p, s, j);
    }
  }

  // ---- A job that was ignored and executed ----

  /** A wrapped job that is COMPLETED has been executed. */
  ghost predicate MarkedByRun(s: State, j: Job) {
    j in s.flows && s.flows[j].Multiple? && (s.flows[j].job.status == COMPLETED ==> s.handed[DependerCallback(j)] > 0)
  }

  /** Only entering the wrapped job itself changes it. */
  lemma EnterChangesJob(g: Graph, s: State, n: Node, p: PropMap, cb: Callback)
    requires Fits(g, s) && g.IsNode(n)
    ensures var e := EnterEffect(g, s, n, p, cb);
            e.job == n.job && e.job in s.flows && (e.flow.job != s.flows[e.job].job ==> n.IndividualNode?)
  {
    hide EnterNode, Tries;
  }

  lemma MarkedStep(g: Graph, p: PropMap, s: State, s': State, j: Job)
    requires Inv(g, p, s) && Next(g, s, s') && MarkedByRun(s, j) && j in s'.flows
    ensures MarkedByRun(s', j)
  {
    hide StepEffect, Inv, Without, EnterEffect;
    var i: nat, c: Choice :| StepsTo(g, s, i, c, s');
    var t := s.pending[i];
    StepJobMove(g, s, t, c);
    StepBackward(g, s, t, c);
    if t.Enter? { EnteredByDepender(g, p, s, i, c, j); }
    if t.Load? || t.Run? { PendingJobRuns(g, p, s, t); }
  }

  lemma EnteredByDepender(g: Graph, p: PropMap, s: State, i: nat, c: Choice, j: Job)
    requires Inv(g, p, s) && Fits(g, s) && i < |s.pending| && s.pending[i].Enter? && TaskFits(g, s.pending[i])
    requires j in s.flows && s.flows[j].Multiple?
    ensures var e := StepEffect(g, s, s.pending[i], c);
            e.job == j && e.flow.job != s.flows[j].job ==> s.handed[DependerCallback(j)] > 0
  {
    var t := s.pending[i];
    InvShape(g, p, s);
    hide Inv, EnterEffect;
    assert g.IsNode(t.target);
    EnterChangesJob(g, s, t.target, t.props, t.callback);
    EntryHanded(g, s, t);
  }

  lemma {:induction false} MarkedByRuns(g: Graph, p: PropMap, run: seq<State>, i: nat, j: Job)
    requires RunOf(g, p, run) && i < |run| && j in g.deps && g.deps[j] != []
    requires j in run[0].flows && run[0].flows[j].job.status != COMPLETED
    ensures MarkedByRun(run[i], j)
  {
    hide RunOf, Next, Inv;
    RunFits(g, p, run, i);
    if i > 0 {
      RunFits(g, p, run, i - 1);
      MarkedByRuns(g, p, run, i - 1, j);
      MarkedStep(g, p, run[i - 1], run[i], j);
    }
  }

  lemma ExecutedNotFailed(g: Graph, s: State, j: Job)
    requires Shape(g, s) && Truthful(g, s) && j in s.flows && s.flows[j].Multiple? && ComposedAt(s, j)
    requires s.flows[j].job.status == COMPLETED && s.handed[DependerCallback(j)] > 0
    ensures s.flows[j].GetStatus() != FAILED
  {
    LoggedTrue(g, s, Completion(DependerCallback(j), FAILED));
  }

  /** After a run, the reset changes no job that is SUCCEEDED or COMPLETED, unless a wrapped job was set to
      COMPLETED, apart from its flow, before the run. */
  lemma {:induction false} ResetKeepsDone(g: Graph, p: PropMap, run: seq<State>, rank: map<Job, nat>, j: Job)
    requires RunOf(g, p, run) && g.RankedBy(rank) && j in g.deps && j in run[0].flows
    requires run[0].flows[j].Multiple? ==> run[0].flows[j].job.status != COMPLETED
    ensures var s := run[|run| - 1];
            && j in s.flows && j in AfterReset(g, rank, s.flows, g.root)
            && (IsDone(s.flows[j].job.status) ==> AfterReset(g, rank, s.flows, g.root)[j] == s.flows[j])
  {
    hide RunOf, Inv, Shape, Truthful, Conserved, PropsOk, RequestsOk, FlowOk, TriesOk, NotifyOk, JobOk, GroupOk,
         ComposedAt, Reaches;
    NonEmpty(g, p, run);
    var s := run[|run| - 1];
    RunFits(g, p, run, |run| - 1);
    RunFits(g, p, run, 0);
    InvShape(g, p, s);
    FlowParts(g, s, j);
    ResetKeepsSuccess(g, p, s, rank, j);
    if s.flows[j].job.status == COMPLETED && s.flows[j].Multiple? {
      MarkedByRuns(g, p, run, |run| - 1, j);
      ExecutedNotFailed(g, s, j);
    }
  }

  // ---- What a run that forgets shows about the start ----

  /** Below a failed flow there is a path of failed flows, all ready at the start, to a failed job. */
  lemma {:induction false} PathToCause(g: Graph, p: PropMap, run: seq<State>, rank: map<Job, nat>, path: seq<Job>)
    returns (longer: seq<Job>)
    requires RunOf(g, p, run) && g.RankedBy(rank) && |run| > 0 && |path| > 0 && LivePath(g, run[0].flows, path)
    requires var k := path[|path| - 1];
              k in g.deps && k in run[|run| - 1].flows && run[|run| - 1].flows[k].GetStatus() == FAILED
    ensures LivePath(g, run[0].flows, longer) && path <= longer && |longer| > 0
    ensures var e := longer[|longer| - 1]; e in run[0].flows && run[0].flows[e].job.status == READY
    decreases rank[path[|path| - 1]]
  {
    hide RunOf, Inv, Shape, Conserved, Truthful, PropsOk, RequestsOk, FlowOk, TriesOk, NotifyOk, JobOk, GroupOk,
         ComposedAt, LivePath;
    var s, k := run[|run| - 1], path[|path| - 1];
    InvRun(g, p, run, |run| - 1);
    InvShape(g, p, s);
    FlowParts(g, s, k);
    RunKeys(g, p, run, |run| - 1, k);
    if s.flows[k].job.status == FAILED {
      FailedWasReady(g, p, run, |run| - 1, k);
      longer := path;
    } else {
      FailedGroup(g, s, k);
      var i :| 0 <= i < |g.deps[k]| && s.flows[g.deps[k][i]].GetStatus() == FAILED;
      var d := g.deps[k][i];
      UnfinishedWasReady(g, p, run, |run| - 1, d);
      PathDownOne(g, run[0].flows, path, d);
      longer := PathToCause(g, p, run, rank, path + [d]);
    }
  }

  lemma {:induction false} ForgottenIsLive(g: Graph, p: PropMap, flows: map<Job, Flow>, rank: map<Job, nat>, j: Job)
    requires g.RankedBy(rank) && Forgets(g, p, flows, rank, j)
    ensures exists e :: LiveThrough(g, flows, j, e)
  {
    var threads: seq<Machine> :| ShowsForgotten(g, p, flows, rank, j, threads);
    assert |threads| > 0;
    var run := ThreadRunsAreRuns(g, p, threads);
    var last := |run| - 1;
    assert Models(run[0], threads[0]) && Models(run[last], threads[last]);
    hide RunOf, ThreadRunOf, LivePath, Inv, Models, Ended, AfterReset;
    var bound := RankBound(rank, g.deps.Keys);
    RunKeys(g, p, run, last, j);
    var path := LiveUp(g, p, run, last, rank, bound, j);
    LiveEnd(g, flows, path);
    var longer := PathToCause(g, p, run, rank, path);
    assert path[|path| - 1] in longer;
    assert LiveThrough(g, flows, j, longer[|longer| - 1]);
  }

  // ---- The other direction: all goes well but e, which fails ----

  lemma ReadyStep(g: Graph, s: State, s': State, k: Job)
    requires Next(g, s, s') && k in s'.flows && s'.flows[k].GetStatus() == READY
    ensures k in s.flows && s.flows[k].GetStatus() == READY
  {
    var i: nat, c: Choice :| StepsTo(g, s, i, c, s');
    StepBackward(g, s, s.pending[i], c);
    hide StepEffect;
  }

  lemma {:induction false} ReadyBefore(g: Graph, p: PropMap, run: seq<State>, m: nat, n: nat, k: Job)
    requires RunOf(g, p, run) && m <= n < |run| && k in run[n].flows && run[n].flows[k].GetStatus() == READY
    ensures k in run[m].flows && run[m].flows[k].GetStatus() == READY
    decreases n
  {
    hide RunOf, Next, Inv;
    if m < n {
      RunFits(g, p, run, n);
      ReadyStep(g, run[n - 1], run[n], k);
      ReadyBefore(g, p, run, m, n - 1, k);
    }
  }

  lemma FailureStep(g: Graph, p: PropMap, s: State, s': State, j: Job)
    requires Inv(g, p, s) && Next(g, s, s') && j in s.flows && s.flows[j].job.status == FAILED
    ensures j in s'.flows && s'.flows[j].job.status == FAILED
  {
    hide StepEffect, Inv, TaskFits, Without;
    var i: nat, c: Choice :| StepsTo(g, s, i, c, s');
    var t := s.pending[i];
    StepJobMove(g, s, t, c);
    if t.Load? || t.Run? { PendingJobRuns(g, p, s, t); }
  }

  lemma {:induction false} FailureStays(g: Graph, p: PropMap, run: seq<State>, m: nat, n: nat, j: Job)
    requires RunOf(g, p, run) && m <= n < |run| && j in run[m].flows && run[m].flows[j].job.status == FAILED
    ensures j in run[n].flows && run[n].flows[j].job.status == FAILED
    decreases n
  {
    hide RunOf, Next, Inv;
    if m < n {
      RunFits(g, p, run, n);
      RunFits(g, p, run, n - 1);
      FailureStays(g, p, run, m, n - 1, j);
      FailureStep(g, p, run[n - 1], run[n], j);
    }
  }

  lemma {:induction false} LivePrefix(g: Graph, flows: map<Job, Flow>, path: seq<Job>, n: nat)
    requires LivePath(g, flows, path) && 0 < n <= |path|
    ensures LivePath(g, flows, path[..n])
    decreases |path|
  {
    hide LivePath;
    if n < |path| {
      ShorterPath(g, flows, path);
      LivePrefix(g, flows, path[..|path| - 1], n);
      assert path[..|path| - 1][..n] == path[..n];
    } else {
      assert path[..n] == path;
    }
  }

  /** At rest a flow that was entered has succeeded or failed. */
  lemma EndStatus(g: Graph, p: PropMap, run: seq<State>, rank: map<Job, nat>, m: nat, k: Job)
    requires RunOf(g, p, run) && g.RankedBy(rank) && m < |run| && run[|run| - 1].pending == []
    requires k in run[m].flows && run[m].flows[k].GetStatus() in {RUNNING, SUCCEEDED}
    requires k in run[0].flows && run[0].flows[k].GetStatus() == READY
    ensures k in g.deps && k in run[|run| - 1].flows && run[|run| - 1].flows[k].GetStatus() in {SUCCEEDED, FAILED}
  {
    hide RunOf, Inv, Conserved, Truthful, PropsOk, RequestsOk, FlowOk, TriesOk, NotifyOk, JobOk, GroupOk;
    var last := |run| - 1;
    RunFits(g, p, run, last);
    RunKeys(g, p, run, m, k);
    var s := run[last];
    InvShape(g, p, s);
    FlowParts(g, s, k);
    NothingRuns(g, p, s, rank, k);
    StaysUnmarked(g, p, run, last, k);
    if s.flows[k].GetStatus() == READY { ReadyBefore(g, p, run, m, last, k); }
    if s.flows[k].GetStatus() == IGNORED { JobMarkedBefore(g, p, run, last, k); RunKeys(g, p, run, last, k); }
  }

  /** A flow whose own job has failed, or one of whose dependencies has, has not succeeded. */
  lemma FailsAbove(g: Graph, p: PropMap, s: State, k: Job, d: Job)
    requires Inv(g, p, s) && k in s.flows && k in g.deps && d in s.flows
    requires (d == k && s.flows[k].job.status == FAILED) || (d in g.deps[k] && s.flows[d].GetStatus() == FAILED)
    ensures s.flows[k].GetStatus() != SUCCEEDED
  {
    hide Inv;
    if s.flows[k].GetStatus() == SUCCEEDED {
      SucceededJob(g, p, s, k);
      SuccessBelow(g, p, s, k);
    }
  }

  /** So all flows on a live path to e have failed when the run is over. */
  lemma {:induction false} FailsUpThePath(g: Graph, p: PropMap, run: seq<State>, rank: map<Job, nat>, e: Job, m: nat,
                                          path: seq<Job>, i: nat)
    requires RunOf(g, p, run) && g.RankedBy(rank) && m < |run| && run[|run| - 1].pending == []
    requires LivePath(g, run[0].flows, path) && i < |path| && path[|path| - 1] == e
    requires Kept(run[m], e) && AllWell(run[m], e)
    requires e in run[|run| - 1].flows && run[|run| - 1].flows[e].job.status == FAILED
    ensures path[i] in g.deps && path[i] in run[|run| - 1].flows && run[|run| - 1].flows[path[i]].GetStatus() == FAILED
    decreases |path| - i
  {
    hide RunOf, Inv, Kept, AllWell, LivePath, DependsOn;
    var k, last := path[i], |run| - 1;
    ReachedBy(g, p, run, rank, e, m, path, i);
    EndStatus(g, p, run, rank, m, k);
    RunFits(g, p, run, last);
    if i == |path| - 1 {
      FailsAbove(g, p, run[last], k, k);
    } else {
      FailsUpThePath(g, p, run, rank, e, m, path, i + 1);
      LinkAt(g, run[0].flows, path, i);
      FailsAbove(g, p, run[last], k, path[i + 1]);
    }
  }

  lemma LinkAt(g: Graph, flows: map<Job, Flow>, path: seq<Job>, i: nat)
    requires LivePath(g, flows, path) && i + 1 < |path|
    ensures path[i] in g.deps && path[i + 1] in g.deps[path[i]]
  {
    assert DependsOn(g, path[i], path[i + 1]);
  }

  lemma ReachedBy(g: Graph, p: PropMap, run: seq<State>, rank: map<Job, nat>, e: Job, m: nat, path: seq<Job>, i: nat)
    requires RunOf(g, p, run) && g.RankedBy(rank) && m < |run| && LivePath(g, run[0].flows, path) && i < |path|
    requires Kept(run[m], e) && AllWell(run[m], e)
    ensures path[i] in run[m].flows && run[m].flows[path[i]].GetStatus() in {RUNNING, SUCCEEDED}
    ensures path[i] in run[0].flows && run[0].flows[path[i]].GetStatus() == READY
  {
    hide Startable, Inv, Kept, AllWell, LivePath, Next, Launch;
    var first := run[..m + 1];
    assert RunOf(g, p, first) by {
      forall x, y | 0 <= x < y == x + 1 < |first| ensures Next(g, first[x], first[y]) {
        assert Next(g, run[x], run[y]);
      }
    }
    LivePrefix(g, run[0].flows, path, i + 1);
    LiveEntered(g, p, first, rank, e, path[..i + 1]);
    LiveEnd(g, run[0].flows, path[..i + 1]);
  }

  /** Threads can run the flow so that all goes well until only e is at work, which then fails. */
  lemma EndsBadly(g: Graph, p: PropMap, flows: map<Job, Flow>, rank: map<Job, nat>, e: Job) returns (h: History, m: nat)
    requires g.RankedBy(rank) && Startable(g, p, flows) && e in flows && flows[e].job.status == READY
    requires Live(g, flows, e)
    ensures Follows(g, p, h) && h.Whole() && h.run[0].flows == flows && Ended(h.Now())
    ensures h.Bag().pending == [] && m < |h.bags| && Kept(h.bags[m], e) && AllWell(h.bags[m], e)
    ensures e in h.Bag().flows && h.Bag().flows[e].job.status == FAILED
  {
    hide Follows, RunOf, ThreadRunOf, AllWell, Launched, Live, Kept, Fits, Startable, Models, Inv, Ended, OneAtATime;
    BeginsWell(g, p, flows, e, e);
    var h1 := RunUntilKept(g, p, BeginHistory(g, p, flows), e, e);
    FollowsParts(g, p, h1);
    EAtWork(g, p, h1.bags, rank, e);
    var h2 := EFails(g, p, h1, e);
    h := RunToTheEnd(g, p, h2);
    FollowsParts(g, p, h);
    m := |h1.bags| - 1;
    assert h.bags[m] == h1.Bag() && h.bags[|h2.bags| - 1] == h2.Bag();
    FailureStays(g, p, h.bags, |h2.bags| - 1, |h.bags| - 1, e);
  }

  lemma {:induction false} LiveIsForgotten(g: Graph, p: PropMap, flows: map<Job, Flow>, rank: map<Job, nat>, j: Job,
                                           e: Job)
    requires g.RankedBy(rank) && Startable(g, p, flows) && LiveThrough(g, flows, j, e)
    ensures ForgetsByTurns(g, p, flows, rank, j)
  {
    hide Follows, RunOf, ThreadRunOf, AllWell, LivePath, Kept, Fits, Startable, Models, Inv, Ended, AfterReset,
         OneAtATime;
    var path :| LivePath(g, flows, path) && j in path && path[|path| - 1] == e;
    var i :| 0 <= i < |path| && path[i] == j;
    assert Live(g, flows, e);
    var h, m := EndsBadly(g, p, flows, rank, e);
    FollowsParts(g, p, h);
    FailsUpThePath(g, p, h.bags, rank, e, m, path, i);
    ResetAtEnd(g, p, h.Bag(), rank, j);
    assert ShowsForgotten(g, p, flows, rank, j, h.run);
  }

  lemma ResetAtEnd(g: Graph, p: PropMap, s: State, rank: map<Job, nat>, j: Job)
    requires Inv(g, p, s) && g.RankedBy(rank) && s.pending == [] && j in g.deps && j in s.flows
    requires s.flows[j].GetStatus() == FAILED
    ensures j in AfterReset(g, rank, s.flows, g.root) && AfterReset(g, rank, s.flows, g.root)[j].job.status == READY
  {
    hide Inv, Reaches;
    NothingRuns(g, p, s, rank, j);
    var bound := RankBound(rank, g.deps.Keys);
    FailedIsReachable(g, p, s, rank, bound, j);
  }

  /** Before any run: an ignored job can end up READY after a run and a reset exactly if a live path
      passes through it down to a job that is ready, and so may fail. It makes no difference whether
      threads may interrupt each other. */
  lemma {:induction false} ForgetsIff(g: Graph, p: PropMap, flows: map<Job, Flow>, rank: map<Job, nat>, j: Job)
    requires g.RankedBy(rank) && Startable(g, p, flows) && j in flows && flows[j].job.status == IGNORED
    ensures Forgets(g, p, flows, rank, j) <==> exists e :: LiveThrough(g, flows, j, e)
    ensures ForgetsByTurns(g, p, flows, rank, j) <==> Forgets(g, p, flows, rank, j)
  {
    hide ShowsForgotten, LiveThrough, Startable, OneAtATime;
    if Forgets(g, p, flows, rank, j) { ForgottenIsLive(g, p, flows, rank, j); }
    if e :| LiveThrough(g, flows, j, e) { LiveIsForgotten(g, p, flows, rank, j, e); }
  }

  /** The smallest case: the root's job is ignored, and it depends on a, which may fail. */
  lemma {:induction false} IgnoredRootForgotten(r: Job, a: Job, p: PropMap)
    requires r != a
    ensures var g, rank := Graph(map[r := [a], a := []], r), map[r := 1, a := 0];
            var flows := map[r := Multiple(FRESH.(status := IGNORED), FRESH, FRESH), a := Single(FRESH)];
            g.RankedBy(rank) && ForgetsByTurns(g, p, flows, rank, r)
  {
    var g, rank := Graph(map[r := [a], a := []], r), map[r := 1, a := 0];
    var flows := map[r := Multiple(FRESH.(status := IGNORED), FRESH, FRESH), a := Single(FRESH)];
    assert LivePath(g, flows, [r, a]) && [r, a][|[r, a]| - 1] == a;
    assert LiveThrough(g, flows, r, a);
    hide Forgets, ForgetsByTurns, LiveThrough, LivePath, Startable;
    FreshIsStartable(g, p, flows);
    ForgetsIff(g, p, flows, rank, r);
  }
}
