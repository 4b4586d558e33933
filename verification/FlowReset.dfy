/** Flows.resetFailedFlows, and running a flow again after it. */
module FlowReset {
  import opened FlowTypes
  import opened FlowSteps
  import opened FlowInvariant
  import opened FlowFrame
  import opened FlowJobSteps
  import opened FlowDeliverSteps
  import opened FlowRuns
  import opened FlowOutcome
  import opened FlowRestart
  import opened FlowGraph

  /** reset() of a single object: a running one refuses. */
  function ResetNode(n: NodeState): NodeState {
    if n.status == RUNNING then n else FRESH
  }

  /** reset() of a job's flow: the composed object resets the job it wraps, unless it is running;
      the group is reset in any case. */
  function ResetFlow(f: Flow): Flow {
    match f
    case Single(j) => Single(ResetNode(j))
    case Multiple(j, c, gr) =>
      Multiple(if c.status == RUNNING then j else ResetNode(j), ResetNode(c), ResetNode(gr))
  }

  /** Exactly the failed flows that k reaches are reset. */
  ghost function AfterReset(g: Graph, rank: map<Job, nat>, flows: map<Job, Flow>, k: Job): map<Job, Flow>
    requires g.RankedBy(rank) && k in g.deps
  {
    map j | j in flows ::
      if flows[j].GetStatus() == FAILED && Reaches(g, rank, k, j) then ResetFlow(flows[j]) else flows[j]
  }

  class ExecutableFlows {
    var flows: map<Job, Flow>

    constructor (flows: map<Job, Flow>)
      ensures this.flows == flows
    {
      this.flows := flows;
    }

    /** reset() on the flow of job k. */
    method Reset(k: Job)
      requires k in flows
      modifies this
      ensures flows == old(flows)[k := ResetFlow(old(flows)[k])]
    {
      var f := flows[k];
      match f {
        case Single(j) =>
          flows := flows[k := Single(ResetNode(j))];
        case Multiple(j, c, gr) =>
          var job, composed := j, c;
          if c.status != RUNNING {
            composed := FRESH;
            job := ResetNode(j);
          }
          flows := flows[k := Multiple(job, composed, ResetNode(gr))];
      }
    }

    /** Resets every failed flow that k reaches, shared ones once, and no other. */
    method ResetFailedFlows(g: Graph, ghost rank: map<Job, nat>, k: Job)
      requires g.RankedBy(rank) && k in g.deps && flows.Keys == g.deps.Keys
      modifies this
      ensures flows.Keys == old(flows).Keys
      ensures forall j :: j in flows ==>
                var f := old(flows)[j];
                flows[j] == if f.GetStatus() == FAILED && Reaches(g, rank, k, j) then ResetFlow(f) else f
      ensures flows == AfterReset(g, rank, old(flows), k)
      decreases rank[k]
    {
      hide Reaches, ChildReaches, ResetFlow;
      NoChildReaches(g, rank, k);
      ResetStatus(flows[k]);
      if flows[k].GetStatus() == FAILED {
        Reset(k);
      }
      var i := 0;
      while i < |g.deps[k]|
        invariant i <= |g.deps[k]|
        invariant flows.Keys == g.deps.Keys
        invariant forall j :: j in flows ==>
          flows[j] == if old(flows)[j].GetStatus() == FAILED && (j == k || ChildReaches(g, rank, k, i, j))
                      then ResetFlow(old(flows)[j]) else old(flows)[j]
      {
        label Before:
        ResetFailedFlows(g, rank, g.deps[k][i]);
        forall j | j in flows
          ensures flows[j] == if old(flows)[j].GetStatus() == FAILED && (j == k || ChildReaches(g, rank, k, i + 1, j))
                              then ResetFlow(old(flows)[j]) else old(flows)[j]
        {
          ChildStep(g, rank, k, i, j);
          ResetStatus(old(flows)[j]);
          ResetStatus(old@Before(flows)[j]);
        }
        i := i + 1;
      }
      AllChildrenReach(g, rank, k);
    }
  }

  lemma ResetStatus(f: Flow)
    ensures f.GetStatus() == FAILED ==> ResetFlow(f).GetStatus() == READY
  {
  }

  // ---- After a run has come to rest ----

  /** At rest a failed flow was asked for by a failed flow. */
  lemma FailedRequester(g: Graph, p: PropMap, s: State, rank: map<Job, nat>, d: Job) returns (k: Job, i: nat)
    requires Inv(g, p, s) && g.RankedBy(rank) && s.pending == []
    requires d in s.flows && s.flows[d].GetStatus() == FAILED && d != g.root
    ensures k in g.deps && i < |g.deps[k]| && g.deps[k][i] == d && k in s.flows && s.flows[k].GetStatus() == FAILED
  {
    InvShape(g, p, s);
    RequestOf(g, s, d);
    hide Inv, Conserved, Truthful, PropsOk, RequestsOk, FlowOk;
    k, i :| k in g.deps && i < |g.deps[k]| && g.deps[k][i] == d && s.handed[GroupCallback(k, i)] > 0;
    RequesterUnfinished(g, p, s, k, i);
    NothingRuns(g, p, s, rank, k);
  }

  lemma {:induction false} FailedIsReachable(g: Graph, p: PropMap, s: State, rank: map<Job, nat>, bound: nat, d: Job)
    requires Inv(g, p, s) && g.RankedBy(rank) && s.pending == [] && (forall k :: k in g.deps ==> rank[k] <= bound)
    requires d in s.flows && d in g.deps && s.flows[d].GetStatus() == FAILED
    ensures Reaches(g, rank, g.root, d)
    decreases bound - rank[d]
  {
    hide Inv;
    if d != g.root {
      var k, i := FailedRequester(g, p, s, rank, d);
      FailedIsReachable(g, p, s, rank, bound, k);
      ReachesChild(g, rank, g.root, k, i);
    }
  }

  /** Every queued callback is at its home. */
  ghost predicate QueuesHome(g: Graph, f: Flow, k: Job) {
    && (forall cb :: cb in f.job.callbacks ==> g.IsCallback(cb) && g.Home(cb) == IndividualNode(k))
    && (f.Multiple? ==>
          && (forall cb :: cb in f.composed.callbacks ==> g.IsCallback(cb) && g.Home(cb) == ComposedNode(k))
          && (forall cb :: cb in f.group.callbacks ==> g.IsCallback(cb) && g.Home(cb) == GroupedNode(k)))
  }

  lemma QueuesAtHome(g: Graph, s: State, k: Job)
    requires Shape(g, s) && k in s.flows
    ensures Fits(g, s) && QueuesHome(g, s.flows[k], k)
  {
    var f := s.flows[k];
    assert g.IsNode(IndividualNode(k)) && CallbacksAt(f, IndividualNode(k)) == f.job.callbacks;
    if f.Multiple? {
      assert g.IsNode(ComposedNode(k)) && CallbacksAt(f, ComposedNode(k)) == f.composed.callbacks;
      assert g.IsNode(GroupedNode(k)) && CallbacksAt(f, GroupedNode(k)) == f.group.callbacks;
    }
  }

  lemma RestingSingle(g: Graph, p: PropMap, s: State, k: Job)
    requires Fits(g, s) && k in s.flows && s.flows[k].Single? && JobOk(s, k)
    requires Idle(s.flows[k]) && s.flows[k].GetStatus() != FAILED && PropsAt(s.flows[k], p)
    requires QueuesHome(g, s.flows[k], k)
    ensures AtRest(g, p, s.flows, k)
  {
  }

  lemma RestingMultiple(g: Graph, p: PropMap, s: State, k: Job)
    requires Fits(g, s) && k in s.flows && s.flows[k].Multiple? && ComposedAt(s, k) && GroupOk(g, s, k) && JobOk(s, k)
    requires Idle(s.flows[k]) && s.flows[k].GetStatus() != FAILED && PropsAt(s.flows[k], p)
    requires QueuesHome(g, s.flows[k], k)
    ensures AtRest(g, p, s.flows, k)
  {
    hide PropsAt;
    RestingParts(g, s, k);
  }

  /** A flow at rest that has not failed is ready to be part of another run. */
  lemma RestingFlow(g: Graph, p: PropMap, s: State, k: Job)
    requires Inv(g, p, s) && k in s.flows && Idle(s.flows[k]) && s.flows[k].GetStatus() != FAILED
    ensures Fits(g, s) && AtRest(g, p, s.flows, k)
  {
    InvShape(g, p, s);
    hide Inv, Shape, Conserved, Truthful, PropsOk, RequestsOk, FlowOk, TriesOk, NotifyOk, ComposedAt, GroupOk, JobOk,
         PropsAt, Idle, QueuesHome, AtRest;
    QueuesAtHome(g, s, k);
    PropsOf(g, p, s, k);
    FlowParts(g, s, k);
    if s.flows[k].Multiple? { RestingMultiple(g, p, s, k); } else { RestingSingle(g, p, s, k); }
  }

  lemma RestingParts(g: Graph, s: State, k: Job)
    requires Fits(g, s) && k in s.flows && s.flows[k].Multiple? && ComposedAt(s, k) && GroupOk(g, s, k) && JobOk(s, k)
    requires Idle(s.flows[k]) && s.flows[k].GetStatus() != FAILED
    ensures var f := s.flows[k];
            && f.job.status in {READY, IGNORED, COMPLETED, SUCCEEDED}
            && f.composed.status in {READY, COMPLETED, SUCCEEDED} && f.group.status in {READY, SUCCEEDED}
            && (f.composed.status == READY ==>
                 f.composed.callbacks == [] && f.job.status in {READY, IGNORED, COMPLETED})
            && (f.composed.status == SUCCEEDED ==> f.group.status == SUCCEEDED && IsDone(f.job.status))
            && (f.group.status == READY ==> f.group.callbacks == [] && !f.group.notified)
            && (f.group.status == SUCCEEDED ==>
                  && f.group.notified
                  && (forall d :: d in g.deps[k] ==> IsDone(s.flows[d].GetStatus()))
                  && f.group.returnProps == Some(Merge(s.flows, g.deps[k])))
  {
  }

  /** A resting flow stays so when only flows that are not done are replaced around it. */
  lemma AtRestAround(g: Graph, p: PropMap, flows: map<Job, Flow>, flows': map<Job, Flow>, k: Job)
    requires g.Closed() && flows.Keys == flows'.Keys == g.deps.Keys && k in flows && AtRest(g, p, flows, k)
    requires flows'[k] == flows[k]
    requires forall d :: d in flows && IsDone(flows[d].GetStatus()) ==> flows'[d] == flows[d]
    ensures AtRest(g, p, flows', k)
  {
    if flows[k].Multiple? && flows[k].group.status == SUCCEEDED {
      MergeSame(flows, flows', g.deps[k]);
    }
  }

  lemma ResetRests(g: Graph, p: PropMap, flows: map<Job, Flow>, k: Job, f: Flow)
    requires g.Closed() && flows.Keys == g.deps.Keys && k in flows && flows[k] == ResetFlow(f) && Idle(f)
    requires f.Single? <==> |g.deps[k]| == 0
    ensures AtRest(g, p, flows, k)
  {
  }

  lemma ResetFlowRests(g: Graph, p: PropMap, s: State, rank: map<Job, nat>, bound: nat, j: Job, flows': map<Job, Flow>)
    requires Fits(g, s) && j in s.flows && j in flows' && flows'.Keys == g.deps.Keys
    requires g.RankedBy(rank) && flows' == AfterReset(g, rank, s.flows, g.root)
    requires Inv(g, p, s) && s.pending == [] && (forall k :: k in g.deps ==> rank[k] <= bound)
    ensures AtRest(g, p, flows', j) && flows'[j].GetStatus() != FAILED
  {
    hide Inv, AtRest, Idle, ResetFlow;
    NothingRuns(g, p, s, rank, j);
    if s.flows[j].GetStatus() == FAILED {
      FailedIsReachable(g, p, s, rank, bound, j);
      ResetStatus(s.flows[j]);
      ResetRests(g, p, flows', j, s.flows[j]);
    } else {
      RestingFlow(g, p, s, j);
      AtRestAround(g, p, s.flows, flows', j);
    }
  }

  /** After resetFailedFlows on a run that has come to rest, nothing has failed and the flow can be
      executed again with the same props. */
  lemma {:induction false} ResetMakesStartable(g: Graph, p: PropMap, s: State, rank: map<Job, nat>)
    requires Inv(g, p, s) && g.RankedBy(rank) && s.pending == []
    ensures Startable(g, p, AfterReset(g, rank, s.flows, g.root))
    ensures forall j :: j in s.flows ==> AfterReset(g, rank, s.flows, g.root)[j].GetStatus() != FAILED
  {
    hide Inv, Conserved, Truthful, PropsOk, RequestsOk, FlowOk, AtRest;
    InvShape(g, p, s);
    var bound := RankBound(rank, g.deps.Keys);
    var flows' := AfterReset(g, rank, s.flows, g.root);
    forall j | j in s.flows
      ensures AtRest(g, p, flows', j) && flows'[j].GetStatus() != FAILED
    {
      ResetFlowRests(g, p, s, rank, bound, j, flows');
    }
  }

  /** After a run has come to rest resetFailedFlows makes every failed flow new in all its parts, and changes
      no other flow. */
  lemma {:induction false} ResetExactly(g: Graph, p: PropMap, s: State, rank: map<Job, nat>, j: Job)
    requires Inv(g, p, s) && g.RankedBy(rank) && s.pending == [] && j in s.flows
    ensures j in AfterReset(g, rank, s.flows, g.root)
    ensures var f, f', node := s.flows[j], AfterReset(g, rank, s.flows, g.root)[j],
                               NodeState(READY, None, None, [], false);
            if f.GetStatus() != FAILED then f' == f
            else f' == if f.Single? then Single(node) else Multiple(node, node, node)
  {
    hide Inv, Reaches;
    InvShape(g, p, s);
    var bound := RankBound(rank, g.deps.Keys);
    NothingRuns(g, p, s, rank, j);
    if s.flows[j].GetStatus() == FAILED { FailedIsReachable(g, p, s, rank, bound, j); }
  }

  lemma SuccessNotFailed(g: Graph, s: State, j: Job)
    requires Shape(g, s) && Truthful(g, s) && j in s.flows && (s.flows[j].Multiple? ==> ComposedAt(s, j))
    requires s.flows[j].job.status == SUCCEEDED
    ensures s.flows[j].GetStatus() != FAILED
  {
    LoggedTrue(g, s, Completion(DependerCallback(j), FAILED));
  }

  /** resetFailedFlows changes no flow that is done and no job that succeeded. */
  lemma {:induction false} ResetKeepsSuccess(g: Graph, p: PropMap, s: State, rank: map<Job, nat>, j: Job)
    requires Inv(g, p, s) && g.RankedBy(rank) && j in s.flows
    ensures j in AfterReset(g, rank, s.flows, g.root)
    ensures IsDone(s.flows[j].GetStatus()) ==> AfterReset(g, rank, s.flows, g.root)[j] == s.flows[j]
    ensures s.flows[j].job.status == SUCCEEDED ==> AfterReset(g, rank, s.flows, g.root)[j] == s.flows[j]
  {
    InvShape(g, p, s);
    hide Inv, Shape, Conserved, Truthful, PropsOk, RequestsOk, FlowOk, TriesOk, NotifyOk, GroupOk, JobOk, ComposedAt;
    FlowParts(g, s, j);
    if s.flows[j].job.status == SUCCEEDED { SuccessNotFailed(g, s, j); }
  }

  /** Executing the root again, with the same props, starts no job that had succeeded before. */
  lemma {:induction false} RestartSkipsSuccess(g: Graph, p: PropMap, first: seq<State>, second: seq<State>,
                                               rank: map<Job, nat>,
                            i: nat, j: Job)
    requires RunOf(g, p, first) && g.RankedBy(rank) && first[|first| - 1].pending == []
    requires IsRun(g, second) && i < |second|
    requires second[0] == Launch(g, AfterReset(g, rank, first[|first| - 1].flows, g.root), p)
    requires j in g.deps && second[i].started[j] > 0
    ensures RunOf(g, p, second)
    ensures j in first[|first| - 1].flows && first[|first| - 1].flows[j].job.status != SUCCEEDED
    ensures !IsDone(first[|first| - 1].flows[j].GetStatus())
  {
    var s := first[|first| - 1];
    InvRun(g, p, first, |first| - 1);
    InvShape(g, p, s);
    assert s.flows.Keys == g.deps.Keys;
    hide Inv, Shape, Conserved, Truthful, PropsOk, RequestsOk, FlowOk, IsRun, Startable;
    ResetMakesStartable(g, p, s, rank);
    OnlyReadyJobsStart(g, p, second, i, j);
    OnlyReadyFlowsStart(g, p, second, i, j);
    ResetKeepsSuccess(g, p, s, rank, j);
  }
}
