/** What every run of a flow guarantees. */
module FlowTheorems {
  import opened FlowTypes
  import opened FlowSteps
  import opened FlowInvariant
  import opened FlowJobSteps
  import opened FlowDeliverSteps
  import opened FlowComposedSteps
  import opened FlowRuns

  // ---- Starting jobs ----

  /** The wrapped job has been entered only if all direct dependencies are done. */
  lemma EnteredAfterDependencies(g: Graph, p: PropMap, s: State, j: Job)
    requires Inv(g, p, s) && j in s.flows && s.flows[j].Multiple? && s.handed[DependerCallback(j)] > 0
    ensures forall d :: d in g.deps[j] ==> IsDone(s.flows[d].GetStatus())
  {
    InvShape(g, p, s);
    FlowParts(g, s, j);
    hide Inv, Shape, Conserved, Truthful, PropsOk, RequestsOk, FlowOk, TriesOk, NotifyOk, JobOk, GroupOk;
    assert Completion(DependeeCallback(j), SUCCEEDED) in s.completions;
    GroupDone(g, s, j);
    SucceededGroup(g, s, j);
  }

  lemma SucceededGroup(g: Graph, s: State, k: Job)
    requires Fits(g, s) && k in s.flows && s.flows[k].Multiple? && GroupOk(g, s, k)
    requires s.flows[k].group.status == SUCCEEDED
    ensures forall d :: d in g.deps[k] ==> IsDone(s.flows[d].GetStatus())
  {
  }

  lemma RunningWasEntered(g: Graph, p: PropMap, s: State, j: Job)
    requires Inv(g, p, s) && j in s.flows && s.flows[j].Multiple?
    ensures s.flows[j].job.status in {RUNNING, FAILED} || s.started[j] > 0 ==> s.handed[DependerCallback(j)] > 0
  {
    InvShape(g, p, s);
    FlowParts(g, s, j);
  }

  /** Only a Load task launches a thread. */
  lemma LaunchesOnLoad(g: Graph, s: State, t: Task, c: Choice, j: Job)
    requires Fits(g, s) && TaskFits(g, t)
    ensures StepEffect(g, s, t, c).launched[j] > 0 ==> t == Load(j) && StepEffect(g, s, t, c).launched[j] == 1
  {
    hide EnterEffect, DeliverEffect, Deliveries, FinishJob;
    if t.Enter? {
      assert g.IsNode(t.target);
      EnterLaunches(g, s, t.target, t.props, t.callback);
    } else if t.Deliver? {
      DeliverLaunches(g, s, t.callback, t.verdict);
    }
  }

  lemma EnterLaunches(g: Graph, s: State, n: Node, p: PropMap, cb: Callback)
    requires Fits(g, s) && g.IsNode(n)
    ensures EnterEffect(g, s, n, p, cb).launched == multiset{}
  {
    hide EnterNode, Tries;
  }

  lemma DeliverLaunches(g: Graph, s: State, cb: Callback, v: Status)
    requires Fits(g, s) && g.IsCallback(cb)
    ensures DeliverEffect(g, s, cb, v).launched == multiset{}
  {
    hide UpdateGroup, Deliveries;
  }

  /** A job's thread starts at most once, and only when every direct dependency is
      SUCCEEDED or COMPLETED. */
  lemma {:induction false} StartsAfterDependencies(g: Graph, p: PropMap, run: seq<State>, i: nat, j: Job)
    requires RunOf(g, p, run) && i + 1 < |run|
    requires run[i + 1].started[j] > run[i].started[j]
    ensures run[i].started[j] == 0 && run[i + 1].started[j] == 1
    ensures j in g.deps && forall d :: d in g.deps[j] ==> d in run[i].flows && IsDone(run[i].flows[d].GetStatus())
  {
    InvRun(g, p, run, i);
    assert Next(g, run[i], run[i + 1]);
    StepStarts(g, p, run[i], run[i + 1], j);
  }

  lemma StepStarts(g: Graph, p: PropMap, s: State, s': State, j: Job)
    requires Inv(g, p, s) && Next(g, s, s') && s'.started[j] > s.started[j]
    ensures s.started[j] == 0 && s'.started[j] == 1
    ensures j in g.deps && forall d :: d in g.deps[j] ==> d in s.flows && IsDone(s.flows[d].GetStatus())
  {
    var i: nat, c: Choice :| StepsTo(g, s, i, c, s');
    LaunchesOnLoad(g, s, s.pending[i], c, j);
    assert s.pending[i] == Load(j);
    LoadReady(g, p, s, i, j);
  }

  lemma LoadReady(g: Graph, p: PropMap, s: State, i: nat, j: Job)
    requires Inv(g, p, s) && i < |s.pending| && s.pending[i] == Load(j)
    ensures j in g.deps && s.started[j] == 0
    ensures forall d :: d in g.deps[j] ==> d in s.flows && IsDone(s.flows[d].GetStatus())
  {
    EndParts(g, p, s, i);
    LoadCount(g, p, s, i, j);
    hide Inv, FlowOk, ComposedAt;
    if s.flows[j].Multiple? {
      RunningWasEntered(g, p, s, j);
      EnteredAfterDependencies(g, p, s, j);
    }
  }

  lemma LoadCount(g: Graph, p: PropMap, s: State, i: nat, j: Job)
    requires Inv(g, p, s) && i < |s.pending| && s.pending[i] == Load(j) && j in s.flows
    ensures s.started[j] == 0 && Fits(g, s) && (s.flows[j].Single? ==> g.deps[j] == [])
  {
    InvShape(g, p, s);
    FlowParts(g, s, j);
    assert Load(j) in multiset(s.pending);
  }

  /** However many paths reach a job, its thread starts at most once. */
  lemma {:induction false} StartsAtMostOnce(g: Graph, p: PropMap, run: seq<State>, i: nat, j: Job)
    requires RunOf(g, p, run) && i < |run| && j in g.deps
    ensures run[i].started[j] <= 1
  {
    InvRun(g, p, run, i);
    InvShape(g, p, run[i]);
    FlowParts(g, run[i], j);
  }

  // ---- Failures ----

  /** path leads from a job down to one of its transitive dependencies. */
  ghost predicate DependencyPath(g: Graph, path: seq<Job>) {
    && |path| >= 2
    && (forall x :: x in path ==> x in g.deps)
    && forall i, j {:trigger path[i], path[j]} :: 0 <= i < j == i + 1 < |path| ==> path[j] in g.deps[path[i]]
  }

  /** No job strictly between the ends of the path is marked as completed. */
  ghost predicate Unmarked(s: State, path: seq<Job>) {
    forall i :: 0 < i < |path| - 1 ==> path[i] in s.flows && s.flows[path[i]].GetStatus() != COMPLETED
  }

  /** A flow that succeeded stands on dependencies that are done. */
  lemma SuccessBelow(g: Graph, p: PropMap, s: State, k: Job)
    requires Inv(g, p, s) && k in s.flows && s.flows[k].GetStatus() == SUCCEEDED
    ensures forall d :: d in g.deps[k] ==> d in s.flows && IsDone(s.flows[d].GetStatus())
  {
    InvShape(g, p, s);
    FlowParts(g, s, k);
    hide Inv, FlowOk, Shape, Conserved, Truthful, PropsOk, RequestsOk, TriesOk, NotifyOk, JobOk, GroupOk;
    if s.flows[k].Multiple? {
      SucceededGroup(g, s, k);
    }
  }

  lemma {:induction false} DoneDownThePath(g: Graph, p: PropMap, s: State, path: seq<Job>, i: nat)
    requires Inv(g, p, s) && DependencyPath(g, path) && Unmarked(s, path) && 1 <= i < |path|
    requires forall d :: d in g.deps[path[0]] ==> d in s.flows && IsDone(s.flows[d].GetStatus())
    ensures path[i] in s.flows && IsDone(s.flows[path[i]].GetStatus())
  {
    if i > 1 {
      DoneDownThePath(g, p, s, path, i - 1);
      SuccessBelow(g, p, s, path[i - 1]);
      assert path[i - 1 + 1] in g.deps[path[i - 1]];
    } else {
      assert path[0 + 1] in g.deps[path[0]];
    }
  }

  /** A job does not start before its transitive dependencies are done, unless a job between them was
      marked as completed. */
  lemma {:induction false} NoStartAboveUnfinished(g: Graph, p: PropMap, run: seq<State>, i: nat, path: seq<Job>)
    requires RunOf(g, p, run) && i < |run| && DependencyPath(g, path) && Unmarked(run[i], path)
    requires path[|path| - 1] in run[i].flows && !IsDone(run[i].flows[path[|path| - 1]].GetStatus())
    ensures run[i].started[path[0]] == 0
  {
    var s, k := run[i], path[0];
    InvRun(g, p, run, i);
    InvShape(g, p, s);
    assert path[0 + 1] in g.deps[k];
    hide Inv, RunOf, FlowOk, Conserved, Truthful, PropsOk, RequestsOk;
    assert k in path;
    if s.started[k] > 0 {
      RunningWasEntered(g, p, s, k);
      EnteredAfterDependencies(g, p, s, k);
      DoneDownThePath(g, p, s, path, |path| - 1);
    }
  }

  /** So a transitive dependent of a failed job never starts, with the same exception. */
  lemma {:induction false} NoStartAboveFailure(g: Graph, p: PropMap, run: seq<State>, i: nat, path: seq<Job>)
    requires RunOf(g, p, run) && i < |run| && DependencyPath(g, path) && Unmarked(run[i], path)
    requires path[|path| - 1] in run[i].flows && run[i].flows[path[|path| - 1]].GetStatus() == FAILED
    ensures run[i].started[path[0]] == 0
  {
    hide RunOf, DependencyPath, Unmarked;
    NoStartAboveUnfinished(g, p, run, i, path);
  }

  // ---- Props ----

  /** In no run does execute meet differing props: the exception is unreachable. Every object
      that was entered holds the root's props, and a wrapped job holds them overridden by the
      merged output of its dependencies. */
  lemma {:induction false} PropsAgree(g: Graph, p: PropMap, run: seq<State>, i: nat, k: Job)
    requires RunOf(g, p, run) && i < |run| && k in g.deps
    ensures !run[i].fault && k in run[i].flows
    ensures var f := run[i].flows[k];
            && (f.Front().status in {RUNNING, SUCCEEDED, FAILED} ==> f.Front().parentProps == Some(p))
            && (f.Multiple? && f.group.status in {RUNNING, SUCCEEDED, FAILED} ==> f.group.parentProps == Some(p))
    ensures var f := run[i].flows[k];
            f.Multiple? && run[i].started[k] > 0 ==>
              && (forall d :: d in g.deps[k] ==> d in run[i].flows)
              && f.job.parentProps == Some(p + Merge(run[i].flows, g.deps[k]))
  {
    var s := run[i];
    InvRun(g, p, run, i);
    InvShape(g, p, s);
    PropsOf(g, p, s, k);
    FlowParts(g, s, k);
    hide Inv, RunOf, FlowOk, Conserved, Truthful, PropsOk, RequestsOk;
    if s.flows[k].Multiple? && s.started[k] > 0 {
      RunningWasEntered(g, p, s, k);
      StartedJob(s, k);
      assert s.flows[k].group.status == SUCCEEDED by { GroupDone(g, s, k); }
    }
  }

  lemma StartedJob(s: State, k: Job)
    requires k in s.flows && s.flows[k].Multiple? && JobOk(s, k) && ComposedAt(s, k) && s.started[k] > 0
    ensures s.flows[k].job.status in {RUNNING, SUCCEEDED, FAILED}
    ensures Completion(DependeeCallback(k), SUCCEEDED) in s.completions
  {
  }
}
