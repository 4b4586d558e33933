/** The steps of a job: loading it and ending its thread; and one turn of a group's loop. */
module FlowJobSteps {
  import opened FlowTypes
  import opened FlowSteps
  import opened FlowInvariant
  import opened FlowFrame
  import opened FlowStepParts
  import opened FlowGroupSteps

  // ---- One turn of the group's loop ----

  lemma TryParts(g: Graph, p: PropMap, s: State, i: nat)
    requires Inv(g, p, s) && i < |s.pending| && s.pending[i].TryChild?
    ensures var t := s.pending[i];
            && TaskFits(g, t) && t.group in s.flows && s.flows[t.group].Multiple? && FlowOk(g, s, t.group)
            && s.flows[t.group].group.status in {RUNNING, SUCCEEDED, FAILED}
            && s.flows[t.group].group.parentProps == Some(p)
  {
    hide Inv, FlowOk, GroupOk, NotifyOk, JobOk, Shape, Conserved, Truthful, RequestsOk;
    var t := s.pending[i];
    var k := t.group;
    InvShape(g, p, s);
    TaskOf(g, s, t);
    FlowParts(g, s, k);
    assert TriesLeft(s, k, t.child) > 0 && GroupCallback(k, t.child).group == k;
    assert PropsAt(s.flows[k], p);
  }

  lemma TryEffect(g: Graph, p: PropMap, s: State, i: nat, c: Choice)
    requires i < |s.pending| && s.pending[i].TryChild? && Fits(g, s) && TaskFits(g, s.pending[i])
    requires s.flows[s.pending[i].group].Multiple?
    requires s.flows[s.pending[i].group].group.parentProps == Some(p)
    ensures var t := s.pending[i]; var e := StepEffect(g, s, t, c);
            && Quiet(g, p, s, i, e) && e.job == t.group && e.launched == multiset{}
            && CarriedBy(t) + e.handed == Carried(e.spawned)
            && (forall x :: x in e.spawned ==> x.Enter?)
            && e.handed == if s.flows[t.group].group.status == FAILED then multiset{}
                           else multiset{GroupCallback(t.group, t.child)}
  {
    var t := s.pending[i];
    var e := StepEffect(g, s, t, c);
    if s.flows[t.group].group.status != FAILED {
      assert e.spawned == [Enter(g.Home(GroupCallback(t.group, t.child)), p, GroupCallback(t.group, t.child))];
      assert e.spawned[1..] == [];
    }
  }

  lemma TryFlow(g: Graph, s: State, i: nat, e: Effect)
    requires Fits(g, s) && i < |s.pending| && s.pending[i].TryChild? && e.job in s.flows && FlowOk(g, s, e.job)
    requires var t := s.pending[i];
             && e.job == t.group && e.flow == s.flows[e.job] && e.flow.Multiple? && t.child < |g.deps[e.job]|
             && e.completed == multiset{} && e.launched == multiset{} && (forall x :: x in e.spawned ==> x.Enter?)
             && s.flows[t.group].group.status in {RUNNING, SUCCEEDED, FAILED}
             && e.handed == if s.flows[t.group].group.status == FAILED then multiset{}
                            else multiset{GroupCallback(t.group, t.child)}
    requires Fits(g, Apply(s, i, e))
    ensures FlowOk(g, Apply(s, i, e), e.job)
  {
    var k, n := e.job, |g.deps[e.job]|;
    ForwardRefl(s.flows[k]);
    assert forall cb :: cb in e.handed ==> cb.GroupCallback?;
    assert ComposedAt(Apply(s, i, e), k);
    hide ComposedAt, Apply, Forward;
    JobKept(s, i, e, k);
    GroupKept(g, s, i, e, k);
    NotifyKept(s, i, e, k, n);
    TryTries(s, i, e, n);
  }

  lemma TryTries(s: State, i: nat, e: Effect, n: nat)
    requires i < |s.pending| && s.pending[i].TryChild? && e.job in s.flows && e.flow == s.flows[e.job]
    requires e.flow.Multiple?
    requires TriesOk(s, e.job, n) && e.job == s.pending[i].group && s.pending[i].child < n
    requires forall x :: x in e.spawned ==> x.Enter?
    requires s.flows[e.job].group.status in {RUNNING, SUCCEEDED, FAILED}
    requires e.handed == if s.flows[e.job].group.status == FAILED then multiset{}
                         else multiset{GroupCallback(e.job, s.pending[i].child)}
    ensures TriesOk(Apply(s, i, e), e.job, n)
  {
    var k, t, s' := e.job, s.pending[i], Apply(s, i, e);
    forall c: nat | c < n
      ensures s'.handed[GroupCallback(k, c)] + TriesLeft(s', k, c)
           == s.handed[GroupCallback(k, c)] + TriesLeft(s, k, c)
              - (if c == t.child && s.flows[k].group.status == FAILED then 1 else 0)
    {
      CountStep(s, i, e, TryChild(k, c));
      assert TryChild(k, c) !in e.spawned;
      assert TryChild(k, c) == t <==> c == t.child;
      assert s'.handed[GroupCallback(k, c)] == s.handed[GroupCallback(k, c)] + e.handed[GroupCallback(k, c)];
    }
    assert s'.handed[DependeeCallback(k)] == s.handed[DependeeCallback(k)];
  }

  lemma TryStep(g: Graph, p: PropMap, s: State, i: nat, c: Choice)
    requires Inv(g, p, s) && i < |s.pending| && s.pending[i].TryChild? && TaskFits(g, s.pending[i])
    ensures Inv(g, p, Apply(s, i, StepEffect(g, s, s.pending[i], c)))
  {
    hide Inv, Quiet, FlowOk, Conserved, Truthful, PropsOk, RequestsOk, StepEffect, Shape;
    InvShape(g, p, s);
    TaskOf(g, s, s.pending[i]);
    TryParts(g, p, s, i);
    var e := StepEffect(g, s, s.pending[i], c);
    TryEffect(g, p, s, i, c);
    QuietShape(g, p, s, i, e);
    QuietFields(g, p, s, i, e);
    NothingMoves(g, s, i, e);
    TryFlow(g, s, i, e);
    QuietStep(g, p, s, i, e);
  }

  lemma QuietFields(g: Graph, p: PropMap, s: State, i: nat, e: Effect)
    requires Fits(g, s) && i < |s.pending| && Quiet(g, p, s, i, e)
    ensures e.job in s.flows && e.flow == s.flows[e.job] && e.completed == multiset{}
  {
  }

  // ---- Loading ----

  lemma LoadedStep(g: Graph, p: PropMap, s: State, i: nat, c: Choice)
    requires Inv(g, p, s) && i < |s.pending| && s.pending[i].Load? && TaskFits(g, s.pending[i]) && c.ok
    ensures Inv(g, p, Apply(s, i, StepEffect(g, s, s.pending[i], c)))
  {
    var j := s.pending[i].job;
    InvShape(g, p, s);
    LoadedEffect(g, p, s, i, c);
    hide Inv, Quiet, FlowOk, Conserved, Truthful, PropsOk, RequestsOk, StepEffect;
    var e := StepEffect(g, s, s.pending[i], c);
    QuietShape(g, p, s, i, e);
    NothingMoves(g, s, i, e);
    LoadedFlow(g, s, i, e);
    QuietStep(g, p, s, i, e);
  }

  lemma LoadedEffect(g: Graph, p: PropMap, s: State, i: nat, c: Choice)
    requires i < |s.pending| && s.pending[i].Load? && Fits(g, s) && TaskFits(g, s.pending[i]) && c.ok
    ensures var j := s.pending[i].job; var e := StepEffect(g, s, s.pending[i], c);
            e == Same(s, j).(spawned := [Run(j)], launched := multiset{j}) && Quiet(g, p, s, i, e)
            && Carried(e.spawned) == multiset{}
  {
    assert Carried([Run(s.pending[i].job)]) == multiset{} by { CarriesNothing([Run(s.pending[i].job)]); }
  }

  lemma LoadedFlow(g: Graph, s: State, i: nat, e: Effect)
    requires Fits(g, s) && i < |s.pending| && e.job in s.flows && FlowOk(g, s, e.job)
    requires s.pending[i] == Load(e.job) && e == Same(s, e.job).(spawned := [Run(e.job)], launched := multiset{e.job})
    requires Fits(g, Apply(s, i, e))
    ensures FlowOk(g, Apply(s, i, e), e.job)
  {
    var k, s' := e.job, Apply(s, i, e);
    CountStep(s, i, e, Load(k));
    CountStep(s, i, e, Run(k));
    assert s'.started[k] == s.started[k] + 1;
    if s.flows[k].Multiple? {
      ForwardRefl(s.flows[k]);
      TriesKept(s, i, e, k, |g.deps[k]|);
      GroupKept(g, s, i, e, k);
      NotifyKept(s, i, e, k, |g.deps[k]|);
    }
  }

  // ---- A job's end: it cannot be loaded, or its thread ends ----

  /** The job's flow after the verdict. */
  ghost predicate EndsJob(f: Flow, f': Flow, v: Status) {
    && (f.Single? <==> f'.Single?) && IsVerdict(v)
    && f'.job == f.job.(status := v, returnProps := f'.job.returnProps)
    && f' == f.(job := f'.job)
  }

  lemma EndEffect(g: Graph, s: State, i: nat, c: Choice)
    requires Fits(g, s) && i < |s.pending| && TaskFits(g, s.pending[i])
    requires s.pending[i].Run? || (s.pending[i].Load? && !c.ok)
    requires s.flows[s.pending[i].job].job.status == RUNNING
    ensures var j := s.pending[i].job; var e := StepEffect(g, s, s.pending[i], c);
            && e.job == j && e.completed == multiset{} && EndsJob(s.flows[j], e.flow, e.flow.job.status)
            && Flushes(g, s, i, e, IndividualNode(j), e.flow.job.status)
            && Fits(g, Apply(s, i, e))
  {
  }

  lemma EndForward(f: Flow, f': Flow, v: Status, a: nat, b: nat, aS: nat, aF: nat, bS: nat, bF: nat)
    requires EndsJob(f, f', v) && f.job.status == RUNNING
    requires f.Multiple? ==> ComposedOk(f, a, b, aS, aF, bS, bF)
    ensures Forward(f, f')
    ensures f'.Multiple? ==> ComposedOk(f', a, b, aS, aF, bS, bF)
  {
  }

  lemma EndFlow(g: Graph, s: State, i: nat, e: Effect, v: Status)
    requires Shape(g, s) && i < |s.pending| && e.job in s.flows && FlowOk(g, s, e.job)
    requires s.pending[i] in {Run(e.job), Load(e.job)} && e.completed == multiset{}
    requires EndsJob(s.flows[e.job], e.flow, v) && Flushes(g, s, i, e, IndividualNode(e.job), v)
    requires s.flows[e.job].job.status == RUNNING && Forward(s.flows[e.job], e.flow)
    requires s.flows[e.job].Multiple? ==> ComposedAt(Apply(s, i, e), e.job)
    requires Fits(g, Apply(s, i, e))
    ensures FlowOk(g, Apply(s, i, e), e.job)
  {
    hide FlowOk, ComposedAt, TriesOk, GroupOk, NotifyOk, JobOk, Flushes, Shape, Forward, Apply;
    var k, s' := e.job, Apply(s, i, e);
    EndFacts(g, s, i, e, v);
    FlowParts(g, s, k);
    EndJob(s, i, e, v);
    if s.flows[k].Multiple? {
      TriesKept(s, i, e, k, |g.deps[k]|);
      EndGroup(g, s, i, e, v);
      NotifyKept(s, i, e, k, |g.deps[k]|);
    }
    FlowWhole(g, s', k);
  }

  lemma EndFacts(g: Graph, s: State, i: nat, e: Effect, v: Status)
    requires Shape(g, s) && i < |s.pending| && e.job in s.flows && Flushes(g, s, i, e, IndividualNode(e.job), v)
    ensures Fits(g, s) && e.handed == multiset{} && e.launched == multiset{}
    ensures forall x :: x in e.spawned ==> x.Deliver?
  {
    hide Shape;
    ShapeFits(g, s);
    forall x | x in e.spawned ensures x.Deliver? {
      FlushedTask(g, s, i, e, IndividualNode(e.job), v, x);
    }
  }

  lemma EndGroup(g: Graph, s: State, i: nat, e: Effect, v: Status)
    requires Shape(g, s) && i < |s.pending| && e.job in s.flows && s.flows[e.job].Multiple? && GroupOk(g, s, e.job)
    requires EndsJob(s.flows[e.job], e.flow, v) && s.flows[e.job].job.status == RUNNING && e.completed == multiset{}
    requires Forward(s.flows[e.job], e.flow) && Fits(g, Apply(s, i, e))
    ensures GroupOk(g, Apply(s, i, e), e.job)
  {
    hide GroupOk, Shape;
    ShapeFits(g, s);
    GroupKept(g, s, i, e, e.job);
  }

  lemma EndJob(s: State, i: nat, e: Effect, v: Status)
    requires i < |s.pending| && e.job in s.flows && JobOk(s, e.job) && s.flows[e.job].job.status == RUNNING
    requires s.pending[i] in {Run(e.job), Load(e.job)} && e.launched == multiset{}
    requires EndsJob(s.flows[e.job], e.flow, v) && forall x :: x in e.spawned ==> x.Deliver?
    ensures JobOk(Apply(s, i, e), e.job)
  {
    CountStep(s, i, e, Load(e.job));
    CountStep(s, i, e, Run(e.job));
  }

  lemma EndComposed(s: State, i: nat, e: Effect)
    requires i < |s.pending| && e.job in s.flows && s.flows[e.job].Multiple? && e.flow.Multiple?
    requires ComposedAt(s, e.job) && e.handed == multiset{} && e.completed == multiset{} && e.launched == multiset{}
    requires EndsJob(s.flows[e.job], e.flow, e.flow.job.status) && s.flows[e.job].job.status == RUNNING
    ensures Forward(s.flows[e.job], e.flow)
    ensures ComposedAt(Apply(s, i, e), e.job)
  {
    var x, y := DependeeCallback(e.job), DependerCallback(e.job);
    EndForward(s.flows[e.job], e.flow, e.flow.job.status, s.handed[x], s.handed[y],
               s.completions[Completion(x, SUCCEEDED)], s.completions[Completion(x, FAILED)],
               s.completions[Completion(y, SUCCEEDED)], s.completions[Completion(y, FAILED)]);
  }

  lemma EndProps(g: Graph, p: PropMap, s: State, i: nat, e: Effect)
    requires Shape(g, s) && PropsOk(g, p, s) && i < |s.pending| && e.job in s.flows
    requires EndsJob(s.flows[e.job], e.flow, e.flow.job.status) && s.flows[e.job].job.status == RUNNING
    ensures PropsAt(e.flow, p)
    ensures forall x :: x in Without(s.pending, i) && x.Enter? && x.target.job == e.job ==> EnterOk(e.flow, p, x)
  {
    EntriesKept(g, p, s, i, e.job);
    assert PropsAt(s.flows[e.job], p);
  }

  lemma RunningJob(s: State, j: Job, t: Task)
    requires j in s.flows && JobOk(s, j) && t in s.pending && t in {Load(j), Run(j)}
    ensures s.flows[j].job.status == RUNNING
  {
    assert multiset(s.pending)[t] > 0;
  }

  lemma RequestOf(g: Graph, s: State, j: Job)
    requires Fits(g, s) && RequestsOk(g, s) && j in s.flows
    ensures s.flows[j].GetStatus() in {RUNNING, FAILED} ==> j == g.root || Requested(g, s, j)
  {
  }

  lemma EndParts(g: Graph, p: PropMap, s: State, i: nat)
    requires Inv(g, p, s) && i < |s.pending| && (s.pending[i].Run? || s.pending[i].Load?)
    ensures var j := s.pending[i].job;
            && TaskFits(g, s.pending[i]) && j in s.flows && s.flows[j].job.status == RUNNING && FlowOk(g, s, j)
            && (s.flows[j].Multiple? ==> ComposedAt(s, j))
            && (s.flows[j].GetStatus() in {RUNNING, FAILED} ==> j == g.root || Requested(g, s, j))
  {
    var j := s.pending[i].job;
    InvShape(g, p, s);
    TaskOf(g, s, s.pending[i]);
    hide Inv, Shape, Conserved, Truthful, PropsOk, RequestsOk, FlowOk, ComposedAt, TriesOk, GroupOk, NotifyOk,
         JobOk, Requested;
    RequestOf(g, s, j);
    FlowParts(g, s, j);
    RunningJob(s, j, s.pending[i]);
  }

  lemma EndRequest(f: Flow, f': Flow, v: Status, r: bool)
    requires EndsJob(f, f', v)
    requires f.job.status == RUNNING
    requires f.GetStatus() in {RUNNING, FAILED} ==> r
    ensures f'.GetStatus() in {RUNNING, FAILED} ==> r
  {
  }

  lemma EndStep(g: Graph, p: PropMap, s: State, i: nat, c: Choice)
    requires Inv(g, p, s) && i < |s.pending| && TaskFits(g, s.pending[i])
    requires s.pending[i].Run? || (s.pending[i].Load? && !c.ok)
    ensures Inv(g, p, Apply(s, i, StepEffect(g, s, s.pending[i], c)))
  {
    var j := s.pending[i].job;
    EndParts(g, p, s, i);
    InvShape(g, p, s);
    EndEffect(g, s, i, c);
    hide Inv, FlowOk, Conserved, Truthful, PropsOk, RequestsOk, StepEffect, Flushes, EndsJob, ComposedAt,
         Forward, PropsAt, EnterOk;
    var e := StepEffect(g, s, s.pending[i], c);
    var v := e.flow.job.status;
    FlushHands(g, s, i, e, IndividualNode(j), v);
    if s.flows[j].Multiple? {
      EndComposed(s, i, e);
    } else {
      EndForward(s.flows[j], e.flow, v, 0, 0, 0, 0, 0, 0);
    }
    EndFlow(g, s, i, e, v);
    EndProps(g, p, s, i, e);
    EndRequest(s.flows[j], e.flow, v, j == g.root || Requested(g, s, j));
    FlushStep(g, p, s, i, e, IndividualNode(j), v);
  }
}
