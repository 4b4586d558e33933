/** Every state of every run satisfies the invariant. */
module FlowRuns {
  import opened FlowTypes
  import opened FlowSteps
  import opened FlowInvariant
  import opened FlowGroupSteps
  import opened FlowJobSteps
  import opened FlowDeliverSteps
  import opened FlowComposedSteps
  import opened FlowEnterSteps
  import opened FlowBeginSteps

  // ---- One step ----

  lemma EnterStep(g: Graph, p: PropMap, s: State, i: nat, c: Choice)
    requires Inv(g, p, s) && i < |s.pending| && s.pending[i].Enter? && TaskFits(g, s.pending[i])
    ensures Inv(g, p, Apply(s, i, StepEffect(g, s, s.pending[i], c)))
  {
    var t := s.pending[i];
    var n := t.target;
    EntryParts(g, p, s, i);
    Accepted(g, s, p, t);
    SaneFlow(g, s, n.job);
    ReadyFresh(g, s, n);
    hide Inv, FlowOk, PropsAt, EnterOk, StepEffect;
    var o := EnterNode(KindOf(n), NodeAt(s.flows[n.job], n), t.props, t.callback).1;
    var e := StepEffect(g, s, t, c);
    EnteredEffect(g, s, i, c, o);
    if o == Begin {
      BeginEffect(g, s, t, e);
      BeginStep(g, p, s, i, e);
    } else {
      SettledStep(g, p, s, i, e, o);
    }
  }

  lemma PhaseStep(g: Graph, p: PropMap, s: State, i: nat, c: Choice)
    requires Inv(g, p, s) && i < |s.pending| && IsPhase(s.pending[i]) && Fits(g, s) && TaskFits(g, s.pending[i])
    ensures Inv(g, p, Apply(s, i, StepEffect(g, s, s.pending[i], c)))
  {
    PhaseParts(g, p, s, i);
    hide Inv, FlowOk, ComposedAt, NotifyOk, StepEffect;
    if OnlyReads(g, s, s.pending[i]) {
      ReadStep(g, p, s, i, c);
    } else {
      CasStep(g, p, s, i, c);
    }
  }

  lemma DeliverStep(g: Graph, p: PropMap, s: State, i: nat, c: Choice)
    requires Inv(g, p, s) && i < |s.pending| && s.pending[i].Deliver? && Fits(g, s) && TaskFits(g, s.pending[i])
    ensures Inv(g, p, Apply(s, i, StepEffect(g, s, s.pending[i], c)))
  {
    assert IsVerdict(s.pending[i].verdict);
    hide Inv, StepEffect, Fits;
    match s.pending[i].callback
    case Caller => CallerStep(g, p, s, i, c);
    case GroupCallback(_, _) => UpdateStep(g, p, s, i, c);
    case DependerCallback(_) => EndsStep(g, p, s, i, c);
    case DependeeCallback(_) =>
      if s.pending[i].verdict == SUCCEEDED { EntersStep(g, p, s, i, c); } else { EndsStep(g, p, s, i, c); }
  }

  lemma AnyStep(g: Graph, p: PropMap, s: State, i: nat, c: Choice)
    requires Inv(g, p, s) && i < |s.pending| && Fits(g, s) && TaskFits(g, s.pending[i])
    ensures Inv(g, p, Apply(s, i, StepEffect(g, s, s.pending[i], c)))
  {
    hide Inv, StepEffect, Fits, TaskFits;
    match s.pending[i]
    case Enter(_, _, _) => EnterStep(g, p, s, i, c);
    case Load(_) => if c.ok { LoadedStep(g, p, s, i, c); } else { EndStep(g, p, s, i, c); }
    case Run(_) => EndStep(g, p, s, i, c);
    case TryChild(_, _) => TryStep(g, p, s, i, c);
    case Deliver(_, _) => DeliverStep(g, p, s, i, c);
    case _ => PhaseStep(g, p, s, i, c);
  }

  /** The invariant survives every step of every thread. */
  lemma {:induction false} InvNext(g: Graph, p: PropMap, s: State, s': State)
    requires Inv(g, p, s) && Next(g, s, s')
    ensures Inv(g, p, s')
  {
    var i: nat, c: Choice :| StepsTo(g, s, i, c, s');
    AnyStep(g, p, s, i, c);
  }

  // ---- Where a run may start ----

  /** A job's flow at rest, ready for root.execute(p, caller): nothing runs, nothing has failed,
      and whatever has succeeded did so under the same props. */
  ghost predicate AtRest(g: Graph, p: PropMap, flows: map<Job, Flow>, k: Job)
    requires k in flows && flows.Keys == g.deps.Keys && g.Closed()
  {
    var f := flows[k];
    && (f.Single? <==> |g.deps[k]| == 0)
    && PropsAt(f, p)
    && f.job.status in {READY, IGNORED, COMPLETED, SUCCEEDED}
    && (f.job.status in {READY, IGNORED} ==> f.job.callbacks == [])
    && (forall cb :: cb in f.job.callbacks ==> g.IsCallback(cb) && g.Home(cb) == IndividualNode(k))
    && (f.Multiple? ==>
          && f.composed.status in {READY, COMPLETED, SUCCEEDED} && f.group.status in {READY, SUCCEEDED}
          && (f.composed.status == READY ==>
                f.composed.callbacks == [] && f.job.status in {READY, IGNORED, COMPLETED})
          && (f.composed.status == SUCCEEDED ==> f.group.status == SUCCEEDED && IsDone(f.job.status))
          && (f.group.status == READY ==> f.group.callbacks == [] && !f.group.notified)
          && (f.group.status == SUCCEEDED ==>
                && f.group.notified
                && (forall d :: d in g.deps[k] ==> IsDone(flows[d].GetStatus()))
                && f.group.returnProps == Some(Merge(flows, g.deps[k])))
          && (forall cb :: cb in f.composed.callbacks ==> g.IsCallback(cb) && g.Home(cb) == ComposedNode(k))
          && (forall cb :: cb in f.group.callbacks ==> g.IsCallback(cb) && g.Home(cb) == GroupedNode(k)))
  }

  ghost predicate Startable(g: Graph, p: PropMap, flows: map<Job, Flow>) {
    && g.Closed() && flows.Keys == g.deps.Keys
    && forall k :: k in flows ==> AtRest(g, p, flows, k)
  }

  lemma LaunchFits(g: Graph, p: PropMap, flows: map<Job, Flow>)
    requires Startable(g, p, flows)
    ensures Fits(g, Launch(g, flows, p))
  {
    forall k | k in flows ensures flows[k].Single? <==> |g.deps[k]| == 0 {
      assert AtRest(g, p, flows, k);
    }
  }

  lemma LaunchHomes(g: Graph, p: PropMap, flows: map<Job, Flow>, n: Node, cb: Callback)
    requires Startable(g, p, flows) && g.IsNode(n) && n.job in flows && (flows[n.job].Multiple? || n.IndividualNode?)
    requires cb in CallbacksAt(flows[n.job], n)
    ensures g.IsCallback(cb) && g.Home(cb) == n
  {
    assert AtRest(g, p, flows, n.job);
  }

  lemma LaunchTask(g: Graph, p: PropMap, flows: map<Job, Flow>)
    requires g.Closed()
    ensures var s := Launch(g, flows, p);
            && s.pending == [Enter(g.Front(g.root), p, Caller)] && !s.fault && TaskFits(g, s.pending[0])
            && s.completions == multiset{} && s.handed == multiset{Caller} && g.IsCallback(Caller)
  {
  }

  lemma LaunchShape(g: Graph, p: PropMap, flows: map<Job, Flow>)
    requires Startable(g, p, flows)
    ensures Shape(g, Launch(g, flows, p))
  {
    LaunchFits(g, p, flows);
    LaunchTask(g, p, flows);
    hide Startable, TaskFits;
    var s := Launch(g, flows, p);
    forall n, cb | g.IsNode(n) && cb in CallbacksAt(s.flows[n.job], n)
      ensures g.IsCallback(cb) && g.Home(cb) == n
    {
      LaunchHomes(g, p, flows, n, cb);
    }
  }

  lemma LaunchNothing(g: Graph, p: PropMap, flows: map<Job, Flow>, x: Task)
    requires g.root in g.deps && !x.Enter?
    ensures multiset(Launch(g, flows, p).pending)[x] == 0 && x !in Launch(g, flows, p).pending
  {
    var s := Launch(g, flows, p);
    assert s.pending == [Enter(g.Front(g.root), p, Caller)];
  }

  lemma LaunchJob(g: Graph, p: PropMap, flows: map<Job, Flow>, k: Job)
    requires g.Closed() && flows.Keys == g.deps.Keys && k in flows && AtRest(g, p, flows, k)
    ensures JobOk(Launch(g, flows, p), k)
  {
    LaunchNothing(g, p, flows, Load(k));
    LaunchNothing(g, p, flows, Run(k));
  }

  lemma LaunchComposed(g: Graph, p: PropMap, flows: map<Job, Flow>, k: Job)
    requires g.Closed() && flows.Keys == g.deps.Keys && k in flows && flows[k].Multiple? && AtRest(g, p, flows, k)
    ensures ComposedAt(Launch(g, flows, p), k)
  {
  }

  lemma LaunchGroup(g: Graph, p: PropMap, flows: map<Job, Flow>, k: Job)
    requires g.Closed() && flows.Keys == g.deps.Keys && Fits(g, Launch(g, flows, p)) && k in flows && flows[k].Multiple?
    requires AtRest(g, p, flows, k)
    ensures GroupOk(g, Launch(g, flows, p), k)
    ensures TriesOk(Launch(g, flows, p), k, |g.deps[k]|) && NotifyOk(Launch(g, flows, p), k, |g.deps[k]|)
  {
    hide Merge;
    forall x: Task | !x.Enter?
      ensures multiset(Launch(g, flows, p).pending)[x] == 0 && x !in Launch(g, flows, p).pending
    {
      LaunchNothing(g, p, flows, x);
    }
  }

  lemma LaunchFlow(g: Graph, p: PropMap, flows: map<Job, Flow>, k: Job)
    requires Startable(g, p, flows) && k in flows && Fits(g, Launch(g, flows, p))
    ensures FlowOk(g, Launch(g, flows, p), k)
  {
    hide AtRest, JobOk, ComposedAt, TriesOk, GroupOk, NotifyOk, FlowOk;
    assert AtRest(g, p, flows, k);
    LaunchJob(g, p, flows, k);
    if flows[k].Multiple? {
      LaunchComposed(g, p, flows, k);
      LaunchGroup(g, p, flows, k);
    }
    FlowWhole(g, Launch(g, flows, p), k);
  }

  lemma LaunchConserved(g: Graph, p: PropMap, flows: map<Job, Flow>)
    requires Startable(g, p, flows) && Fits(g, Launch(g, flows, p))
    ensures Conserved(g, Launch(g, flows, p))
  {
    var s := Launch(g, flows, p);
    assert s.pending[1..] == [];
    assert Carried(s.pending) == multiset{Caller};
    forall cb | g.IsCallback(cb) ensures Owed(g, s, cb) == 0 {
      assert AtRest(g, p, flows, g.Home(cb).job);
    }
  }

  lemma LaunchProps(g: Graph, p: PropMap, flows: map<Job, Flow>)
    requires Startable(g, p, flows) && Shape(g, Launch(g, flows, p))
    ensures PropsOk(g, p, Launch(g, flows, p)) && RequestsOk(g, Launch(g, flows, p))
  {
    forall k | k in flows ensures PropsAt(flows[k], p) && flows[k].GetStatus() !in {RUNNING, FAILED} {
      assert AtRest(g, p, flows, k);
    }
  }

  lemma LaunchTruth(g: Graph, p: PropMap, flows: map<Job, Flow>)
    requires g.root in g.deps && Shape(g, Launch(g, flows, p))
    ensures Truthful(g, Launch(g, flows, p))
  {
  }

  /** A call of the root's execute on flows at rest establishes the invariant. */
  lemma {:induction false} InvLaunch(g: Graph, p: PropMap, flows: map<Job, Flow>)
    requires Startable(g, p, flows)
    ensures Inv(g, p, Launch(g, flows, p))
  {
    var s := Launch(g, flows, p);
    LaunchShape(g, p, flows);
    hide AtRest, PropsOk, RequestsOk, Conserved, Truthful, FlowOk;
    LaunchConserved(g, p, flows);
    LaunchProps(g, p, flows);
    LaunchTruth(g, p, flows);
    forall k | k in flows ensures FlowOk(g, s, k) { LaunchFlow(g, p, flows, k); }
  }

  // ---- Runs ----

  /** A run of root.execute(p, caller). */
  ghost predicate RunOf(g: Graph, p: PropMap, run: seq<State>) {
    IsRun(g, run) && Startable(g, p, run[0].flows) && run[0] == Launch(g, run[0].flows, p)
  }

  lemma {:induction false} InvRun(g: Graph, p: PropMap, run: seq<State>, i: nat)
    requires RunOf(g, p, run) && i < |run|
    ensures Inv(g, p, run[i])
  {
    hide Inv, Startable, Next, Launch;
    if i == 0 {
      InvLaunch(g, p, run[0].flows);
    } else {
      InvRun(g, p, run, i - 1);
      assert Next(g, run[i - 1], run[i - 1 + 1]);
      InvNext(g, p, run[i - 1], run[i]);
    }
  }

  lemma RunFits(g: Graph, p: PropMap, run: seq<State>, i: nat)
    requires RunOf(g, p, run) && i < |run|
    ensures Inv(g, p, run[i]) && Fits(g, run[i])
    ensures i > 0 ==> Next(g, run[i - 1], run[i])
  {
    hide Startable, Next;
    InvRun(g, p, run, i);
    InvShape(g, p, run[i]);
    if i > 0 { assert Next(g, run[i - 1], run[i - 1 + 1]); }
  }
}
