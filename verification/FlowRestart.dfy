/** Marking a fresh flow, resetting a failed one, and what a second run may start. */
module FlowRestart {
  import opened FlowTypes
  import opened FlowSteps
  import opened FlowInvariant
  import opened FlowJobSteps
  import opened FlowRuns
  import opened FlowTheorems

  // ---- Fresh flows ----

  const FRESH := NodeState(READY, None, None, [], false)

  /** A new flow of objects, after any calls of markCompleted on it and any setStatus(IGNORED)
      on its job. */
  ghost predicate FreshOrMarked(f: Flow) {
    match f
    case Single(j) =>
      j in {FRESH, FRESH.(status := IGNORED),
            FRESH.(status := COMPLETED, parentProps := Some(map[]), returnProps := Some(map[]))}
    case Multiple(j, c, gr) =>
      && j in {FRESH, FRESH.(status := IGNORED)}
      && c in {FRESH, FRESH.(status := COMPLETED, parentProps := Some(map[]))}
      && gr == FRESH
  }

  /** Fresh flows, marked or not, can be run with any props. */
  lemma {:induction false} FreshIsStartable(g: Graph, p: PropMap, flows: map<Job, Flow>)
    requires g.Closed() && flows.Keys == g.deps.Keys
    requires forall k :: k in flows ==> FreshOrMarked(flows[k]) && (flows[k].Single? <==> g.deps[k] == [])
    ensures Startable(g, p, flows)
  {
    forall k | k in flows ensures AtRest(g, p, flows, k) {}
  }

  // ---- What a run never undoes ----

  /** Read backwards, a step cannot have made a job new, nor marked a composed flow. */
  ghost predicate Backward(f': Flow, f: Flow) {
    && (f'.Single? <==> f.Single?)
    && (f'.job.status == READY ==> f.job.status == READY)
    && (f'.job.status == RUNNING ==> f.job.status in {READY, RUNNING})
    && (f'.Multiple? && f'.composed.status == COMPLETED ==> f.composed.status == COMPLETED)
    && (f'.Multiple? && f'.composed.status == READY ==> f.composed.status == READY)
  }

  lemma EnterNodeStatus(kind: Kind, n: NodeState, p: PropMap, cb: Callback)
    ensures var m := EnterNode(kind, n, p, cb).0;
            && (m.status == READY ==> n.status == READY)
            && (m.status == RUNNING ==> n.status in {READY, RUNNING})
            && (m.status == COMPLETED && kind != Individual ==> n.status == COMPLETED)
  {
  }

  lemma EnterBackward(g: Graph, s: State, n: Node, p: PropMap, cb: Callback)
    requires Fits(g, s) && g.IsNode(n)
    ensures var e := EnterEffect(g, s, n, p, cb); e.job in s.flows && Backward(e.flow, s.flows[e.job])
  {
    hide EnterNode, Tries;
    var f := s.flows[n.job];
    match n {
      case IndividualNode(_) => EnterNodeStatus(Individual, f.job, p, cb);
      case ComposedNode(_) => EnterNodeStatus(Composed, f.composed, p, cb);
      case GroupedNode(_) =>
    }
  }

  lemma DeliverBackward(g: Graph, s: State, cb: Callback, v: Status)
    requires Fits(g, s) && g.IsCallback(cb) && IsVerdict(v)
    ensures var e := DeliverEffect(g, s, cb, v); e.job in s.flows && Backward(e.flow, s.flows[e.job])
  {
    hide UpdateGroup, Deliveries;
  }

  lemma StepBackward(g: Graph, s: State, t: Task, c: Choice)
    requires Fits(g, s) && TaskFits(g, t)
    ensures var e := StepEffect(g, s, t, c); e.job in s.flows && Backward(e.flow, s.flows[e.job])
  {
    hide EnterEffect, DeliverEffect, Deliveries, Backward;
    if t.Enter? {
      assert g.IsNode(t.target);
      EnterBackward(g, s, t.target, t.props, t.callback);
    } else if t.Deliver? {
      DeliverBackward(g, s, t.callback, t.verdict);
    } else {
      OtherBackward(g, s, t, c);
    }
  }

  lemma OtherBackward(g: Graph, s: State, t: Task, c: Choice)
    requires Fits(g, s) && TaskFits(g, t) && !t.Enter? && !t.Deliver?
    ensures var e := StepEffect(g, s, t, c); e.job in s.flows && Backward(e.flow, s.flows[e.job])
  {
    hide EnterEffect, DeliverEffect, Deliveries;
    if t.Load? || t.Run? {
      JobBackward(g, s, t, c);
    } else {
      hide FinishJob;
    }
  }

  lemma JobBackward(g: Graph, s: State, t: Task, c: Choice)
    requires Fits(g, s) && TaskFits(g, t) && (t.Load? || t.Run?)
    ensures var e := StepEffect(g, s, t, c); e.job in s.flows && Backward(e.flow, s.flows[e.job])
  {
    hide EnterEffect, DeliverEffect, Deliveries;
  }

  /** What the state says about how job j started out. */
  ghost predicate Untouched(s: State, j: Job) {
    j in s.flows && (s.flows[j].job.status in {READY, RUNNING} || s.started[j] > 0)
  }

  lemma StepUntouched(g: Graph, p: PropMap, s: State, s': State, j: Job)
    requires Inv(g, p, s) && Next(g, s, s') && Untouched(s', j)
    ensures Untouched(s, j)
  {
    var i: nat, c: Choice :| StepsTo(g, s, i, c, s');
    var t := s.pending[i];
    StepBackward(g, s, t, c);
    LaunchesOnLoad(g, s, t, c, j);
    if t.Load? { EndParts(g, p, s, i); }
    hide StepEffect, Inv;
  }

  lemma {:induction false} UntouchedFromStart(g: Graph, p: PropMap, run: seq<State>, i: nat, j: Job)
    requires RunOf(g, p, run) && i < |run| && Untouched(run[i], j)
    ensures Untouched(run[0], j)
  {
    hide RunOf, Inv, Next, Untouched;
    if i > 0 {
      RunFits(g, p, run, i);
      RunFits(g, p, run, i - 1);
      StepUntouched(g, p, run[i - 1], run[i], j);
      UntouchedFromStart(g, p, run, i - 1, j);
    }
  }

  /** Only jobs that were READY when the root was executed are ever started. */
  lemma {:induction false} OnlyReadyJobsStart(g: Graph, p: PropMap, run: seq<State>, i: nat, j: Job)
    requires RunOf(g, p, run) && i < |run| && j in g.deps && run[i].started[j] > 0
    ensures j in run[0].flows && run[0].flows[j].job.status == READY
  {
    InvRun(g, p, run, i);
    InvShape(g, p, run[i]);
    UntouchedFromStart(g, p, run, i, j);
    assert AtRest(g, p, run[0].flows, j);
  }

  /** What the state says about how the composed flow of job j started out. */
  ghost predicate Unentered(s: State, j: Job) {
    && j in s.flows && s.flows[j].Multiple?
    && (s.flows[j].composed.status == READY || s.handed[DependeeCallback(j)] > 0)
  }

  lemma EnterHands(g: Graph, s: State, n: Node, p: PropMap, cb: Callback, j: Job)
    requires Fits(g, s) && g.IsNode(n)
    ensures EnterEffect(g, s, n, p, cb).handed[DependeeCallback(j)] > 0 ==>
              j in s.flows && s.flows[j].Multiple? && s.flows[j].composed.status == READY
  {
    if n.ComposedNode? {
      assert EnterNode(Composed, s.flows[n.job].composed, p, cb).1 == Begin ==> s.flows[n.job].composed.status == READY;
    }
    hide EnterNode, Tries;
  }

  /** Only a ready composed flow hands out its dependee callback. */
  lemma HandsOnBegin(g: Graph, s: State, t: Task, c: Choice, j: Job)
    requires Fits(g, s) && TaskFits(g, t)
    ensures StepEffect(g, s, t, c).handed[DependeeCallback(j)] > 0 ==>
              j in s.flows && s.flows[j].Multiple? && s.flows[j].composed.status == READY
  {
    hide UpdateGroup, Deliveries, Tries, EnterEffect;
    if t.Enter? {
      assert g.IsNode(t.target);
      EnterHands(g, s, t.target, t.props, t.callback, j);
    }
  }

  lemma StepUnentered(g: Graph, s: State, s': State, j: Job)
    requires Next(g, s, s') && Unentered(s', j)
    ensures Unentered(s, j)
  {
    var i: nat, c: Choice :| StepsTo(g, s, i, c, s');
    StepBackward(g, s, s.pending[i], c);
    HandsOnBegin(g, s, s.pending[i], c, j);
    hide StepEffect;
  }

  lemma {:induction false} UnenteredFromStart(g: Graph, p: PropMap, run: seq<State>, i: nat, j: Job)
    requires RunOf(g, p, run) && i < |run| && Unentered(run[i], j)
    ensures Unentered(run[0], j)
  {
    hide RunOf, Inv, Next, Unentered;
    if i > 0 {
      RunFits(g, p, run, i);
      StepUnentered(g, run[i - 1], run[i], j);
      UnenteredFromStart(g, p, run, i - 1, j);
    }
  }

  /** A job starts only if the flow it belongs to was READY when the root was executed. */
  lemma {:induction false} OnlyReadyFlowsStart(g: Graph, p: PropMap, run: seq<State>, i: nat, j: Job)
    requires RunOf(g, p, run) && i < |run| && j in g.deps && run[i].started[j] > 0
    ensures j in run[0].flows && run[0].flows[j].GetStatus() == READY
  {
    OnlyReadyJobsStart(g, p, run, i, j);
    InvRun(g, p, run, i);
    InvShape(g, p, run[i]);
    FlowParts(g, run[i], j);
    hide Inv, Shape, Conserved, Truthful, PropsOk, RequestsOk, FlowOk, TriesOk, NotifyOk, GroupOk, JobOk, Startable,
         IsRun;
    if run[i].flows[j].Multiple? {
      UnenteredFromStart(g, p, run, i, j);
    } else {
      SameShape(g, p, run, i, j);
    }
  }

  lemma SameShape(g: Graph, p: PropMap, run: seq<State>, i: nat, j: Job)
    requires RunOf(g, p, run) && i < |run| && j in g.deps
    ensures j in run[i].flows && j in run[0].flows && (run[i].flows[j].Single? <==> run[0].flows[j].Single?)
  {
    hide RunOf, Inv;
    RunFits(g, p, run, i);
    RunFits(g, p, run, 0);
  }

  lemma {:induction false} MarksStay(g: Graph, p: PropMap, run: seq<State>, i: nat, j: Job)
    requires RunOf(g, p, run) && i < |run| && j in run[i].flows && j in run[0].flows
    requires run[i].flows[j].Multiple? && run[i].flows[j].composed.status == COMPLETED
    ensures run[0].flows[j].Multiple? && run[0].flows[j].composed.status == COMPLETED
  {
    hide RunOf, Inv, Next;
    if i > 0 {
      RunFits(g, p, run, i);
      RunFits(g, p, run, i - 1);
      StepMark(g, run[i - 1], run[i], j);
      MarksStay(g, p, run, i - 1, j);
    }
  }

  lemma StepMark(g: Graph, s: State, s': State, j: Job)
    requires Next(g, s, s') && j in s'.flows && s'.flows[j].Multiple? && s'.flows[j].composed.status == COMPLETED
    ensures j in s.flows && s.flows[j].Multiple? && s.flows[j].composed.status == COMPLETED
  {
    var i: nat, c: Choice :| StepsTo(g, s, i, c, s');
    StepBackward(g, s, s.pending[i], c);
    hide StepEffect;
  }

  /** No job strictly between the ends of the path was marked as completed before the run. */
  ghost predicate UnmarkedAtStart(g: Graph, flows: map<Job, Flow>, path: seq<Job>) {
    forall i :: 0 < i < |path| - 1 ==>
      path[i] in flows && !(flows[path[i]].Multiple? && flows[path[i]].composed.status == COMPLETED)
  }

  lemma UnmarkedStays(g: Graph, p: PropMap, run: seq<State>, i: nat, path: seq<Job>)
    requires RunOf(g, p, run) && i < |run| && DependencyPath(g, path) && UnmarkedAtStart(g, run[0].flows, path)
    ensures Unmarked(run[i], path)
  {
    var s := run[i];
    InvRun(g, p, run, i);
    InvShape(g, p, s);
    hide Inv, RunOf, Conserved, Truthful, PropsOk, RequestsOk, FlowOk;
    forall x | 0 < x < |path| - 1 ensures path[x] in s.flows && s.flows[path[x]].GetStatus() != COMPLETED {
      assert path[x] in path && path[x + 1] in g.deps[path[x]];
      if s.flows[path[x]].composed.status == COMPLETED { MarksStay(g, p, run, i, path[x]); }
    }
  }

  /** The same as NoStartAboveFailure, with a condition that can be checked before the run. */
  lemma {:induction false} NoStartAboveFailureUnmarked(g: Graph, p: PropMap, run: seq<State>, i: nat, path: seq<Job>)
    requires RunOf(g, p, run) && i < |run| && DependencyPath(g, path) && UnmarkedAtStart(g, run[0].flows, path)
    requires path[|path| - 1] in run[i].flows && run[i].flows[path[|path| - 1]].GetStatus() == FAILED
    ensures run[i].started[path[0]] == 0
  {
    hide RunOf, DependencyPath, Unmarked, UnmarkedAtStart;
    UnmarkedStays(g, p, run, i, path);
    NoStartAboveFailure(g, p, run, i, path);
  }
}
