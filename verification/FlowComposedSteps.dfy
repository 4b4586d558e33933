/** The steps that complete the caller's callback and the two callbacks of a composed flow. */
module FlowComposedSteps {
  import opened FlowTypes
  import opened FlowSteps
  import opened FlowInvariant
  import opened FlowFrame
  import opened FlowStepParts
  import opened FlowGroupSteps
  import opened FlowJobSteps
  import opened FlowDeliverSteps

  // ---- Completions that rewrite nothing ----

  /** The step logs a completion, rewrites nothing, and may enter the wrapped job. */
  ghost predicate Passes(g: Graph, p: PropMap, s: State, i: nat, e: Effect)
    requires Fits(g, s) && i < |s.pending|
  {
    var t := s.pending[i];
    && t.Deliver? && g.IsCallback(t.callback) && IsVerdict(t.verdict) && CallbackOf(t.callback, e.job)
    && e.job in s.flows && e.flow == s.flows[e.job] && !e.fault && e.launched == multiset{}
    && e.completed == multiset{Completion(t.callback, t.verdict)}
    && (forall x :: x in e.spawned ==> x.Enter? && TaskFits(g, x) && x.target.job == e.job && EnterOk(e.flow, p, x))
    && (forall cb :: cb in e.handed ==> g.IsCallback(cb) && cb != Caller && CallbackOf(cb, e.job))
    && e.handed == Carried(e.spawned)
  }

  lemma PassShape(g: Graph, p: PropMap, s: State, i: nat, e: Effect)
    requires Shape(g, s) && i < |s.pending| && Passes(g, p, s, i, e)
    ensures WellFormed(g, s, e) && Shape(g, Apply(s, i, e)) && LocalEffect(s.pending[i], e)
    ensures SpeaksTruth(g, s, Apply(s, i, e), e) && Caller !in e.handed
  {
    HomesKept(g, s, e.job);
    ShapeStep(g, s, i, e);
  }

  lemma PassConserved(g: Graph, p: PropMap, s: State, i: nat, e: Effect)
    requires Shape(g, s) && Conserved(g, s) && i < |s.pending| && Passes(g, p, s, i, e) && Shape(g, Apply(s, i, e))
    ensures Conserved(g, Apply(s, i, e))
  {
    assert IsVerdictLog(s.pending[i], e.completed);
    hide Shape, Conserved;
    ConservedStep(g, s, i, e, IndividualNode(e.job));
  }

  lemma PassProps(g: Graph, p: PropMap, s: State, i: nat, e: Effect)
    requires Shape(g, s) && i < |s.pending| && Passes(g, p, s, i, e) && PropsOk(g, p, s)
    ensures CarriesProps(g, p, s, i, e)
  {
    EntriesKept(g, p, s, i, e.job);
  }

  lemma PassFields(g: Graph, p: PropMap, s: State, i: nat, e: Effect)
    requires Fits(g, s) && i < |s.pending| && Passes(g, p, s, i, e)
    ensures e.job in s.flows && e.flow == s.flows[e.job] && Forward(s.flows[e.job], e.flow)
  {
    ForwardRefl(e.flow);
  }

  lemma PassStep(g: Graph, p: PropMap, s: State, i: nat, e: Effect)
    requires Inv(g, p, s) && i < |s.pending| && Passes(g, p, s, i, e)
    requires Fits(g, Apply(s, i, e)) && FlowOk(g, Apply(s, i, e), e.job)
    ensures Inv(g, p, Apply(s, i, e))
  {
    InvShape(g, p, s);
    hide Inv, Shape, Conserved, Truthful, PropsOk, RequestsOk, FlowOk, Passes, Forward,
         LocalEffect, WellFormed, SpeaksTruth, CarriesProps, Requested;
    PassShape(g, p, s, i, e);
    PassConserved(g, p, s, i, e);
    PassProps(g, p, s, i, e);
    PassFields(g, p, s, i, e);
    RequestOf(g, s, e.job);
    InvStep(g, p, s, i, e);
  }

  // ---- The caller ----

  lemma CallerEffect(g: Graph, p: PropMap, s: State, i: nat, c: Choice)
    requires Fits(g, s) && i < |s.pending| && TaskFits(g, s.pending[i])
    requires s.pending[i].Deliver? && s.pending[i].callback.Caller?
    ensures var e := StepEffect(g, s, s.pending[i], c);
            && Passes(g, p, s, i, e) && e.job == g.root && Fits(g, Apply(s, i, e))
            && e.spawned == [] && e.handed == multiset{}
            && e.completed == multiset{Completion(Caller, s.pending[i].verdict)} && e.launched == multiset{}
            && e.flow == s.flows[e.job]
  {
  }

  lemma CallerSame(s: State, i: nat, e: Effect, k: Job)
    requires i < |s.pending| && s.pending[i].Deliver?
    requires e.spawned == [] && e.handed == multiset{} && e.launched == multiset{}
    requires e.completed == multiset{Completion(Caller, s.pending[i].verdict)}
    ensures SameFor(s, Apply(s, i, e), k)
  {
    forall x: Task | !(x.Enter? || x.Deliver?) && About(x, k)
      ensures multiset(Apply(s, i, e).pending)[x] == multiset(s.pending)[x]
      ensures (x in Apply(s, i, e).pending <==> x in s.pending)
    {
      NoneAdded(s, i, e, x);
    }
  }

  lemma CallerFlow(g: Graph, s: State, i: nat, e: Effect)
    requires Fits(g, s) && i < |s.pending| && s.pending[i].Deliver? && Fits(g, Apply(s, i, e))
    requires e.spawned == [] && e.handed == multiset{} && e.launched == multiset{}
    requires e.completed == multiset{Completion(Caller, s.pending[i].verdict)}
    requires e.job in s.flows && e.flow == s.flows[e.job] && FlowOk(g, s, e.job)
    ensures FlowOk(g, Apply(s, i, e), e.job)
  {
    var s' := Apply(s, i, e);
    forall d | d in s.flows ensures Forward(s.flows[d], s'.flows[d]) { ForwardRefl(s.flows[d]); }
    CallerSame(s, i, e, e.job);
    FrameOther(g, s, s', e.job);
  }

  lemma CallerStep(g: Graph, p: PropMap, s: State, i: nat, c: Choice)
    requires Inv(g, p, s) && i < |s.pending| && TaskFits(g, s.pending[i])
    requires s.pending[i].Deliver? && s.pending[i].callback.Caller?
    ensures Inv(g, p, Apply(s, i, StepEffect(g, s, s.pending[i], c)))
  {
    InvShape(g, p, s);
    hide Inv, FlowOk, Passes, StepEffect, Conserved, Truthful, PropsOk, RequestsOk;
    CallerEffect(g, p, s, i, c);
    var e := StepEffect(g, s, s.pending[i], c);
    CallerFlow(g, s, i, e);
    PassStep(g, p, s, i, e);
  }

  // ---- The group succeeded: the wrapped job is entered ----

  /** A composed flow whose dependee callback is about to be completed is running and
      has not entered its job yet. */
  lemma DependeeParts(g: Graph, p: PropMap, s: State, i: nat)
    requires Inv(g, p, s) && i < |s.pending| && s.pending[i].Deliver? && s.pending[i].callback.DependeeCallback?
    ensures var k := s.pending[i].callback.flow; var x := DependeeCallback(k);
            && TaskFits(g, s.pending[i]) && Fits(g, s) && k in s.flows && s.flows[k].Multiple? && FlowOk(g, s, k)
            && s.handed[x] == 1 && Answered(s, x) == 0 && s.handed[DependerCallback(k)] == 0
            && s.flows[k].composed.status == RUNNING
            && s.flows[k].job.status in {READY, IGNORED, COMPLETED}
            && ComposedAt(s, k)
            && s.flows[k].group.status == s.pending[i].verdict
  {
    var k := s.pending[i].callback.flow;
    InvShape(g, p, s);
    TaskOf(g, s, s.pending[i]);
    DeliverTrue(g, s, i);
    FlowParts(g, s, k);
    hide Inv, Shape, Conserved, Truthful, PropsOk, RequestsOk, FlowOk, ComposedAt, TriesOk, GroupOk, NotifyOk, JobOk;
    DependeeBound(s, k);
    OpenCallback(g, s, i, DependeeCallback(k));
    DependeeOpen(s, k);
  }

  lemma DependeeOpen(s: State, k: Job)
    requires k in s.flows && s.flows[k].Multiple? && ComposedAt(s, k)
    requires s.handed[DependeeCallback(k)] == 1 && Answered(s, DependeeCallback(k)) == 0
    ensures s.handed[DependerCallback(k)] == 0 && s.flows[k].composed.status == RUNNING
    ensures s.flows[k].job.status in {READY, IGNORED, COMPLETED}
  {
  }

  lemma DependerOpen(s: State, k: Job)
    requires k in s.flows && s.flows[k].Multiple? && ComposedAt(s, k)
    requires s.handed[DependerCallback(k)] == 1 && Answered(s, DependerCallback(k)) == 0
    ensures s.flows[k].composed.status == RUNNING
    ensures Completion(DependeeCallback(k), SUCCEEDED) in s.completions
  {
  }

  /** The verdict about to be delivered is true. */
  lemma DeliverTrue(g: Graph, s: State, i: nat)
    requires Shape(g, s) && Truthful(g, s) && i < |s.pending| && s.pending[i].Deliver?
    ensures g.IsCallback(s.pending[i].callback) && TrueOf(g, s, s.pending[i].callback, s.pending[i].verdict)
  {
    assert TaskFits(g, s.pending[i]);
  }

  /** The wrapped job is entered with the flow's props extended by the group's output. */
  ghost predicate EntersJob(g: Graph, p: PropMap, s: State, i: nat, e: Effect)
    requires Fits(g, s) && i < |s.pending|
  {
    var t := s.pending[i];
    && t.Deliver? && t.callback.DependeeCallback? && g.IsCallback(t.callback) && t.verdict == SUCCEEDED
    && var k := t.callback.flow;
       && k in s.flows && s.flows[k].Multiple?
       && e == Same(s, k).(
                 spawned := [Enter(IndividualNode(k), p + OrEmpty(s.flows[k].group.returnProps), DependerCallback(k))],
                 handed := multiset{DependerCallback(k)},
                 completed := multiset{Completion(t.callback, SUCCEEDED)})
  }

  lemma EntersEffect(g: Graph, p: PropMap, s: State, i: nat, c: Choice)
    requires Fits(g, s) && i < |s.pending| && TaskFits(g, s.pending[i])
    requires s.pending[i].Deliver? && s.pending[i].callback.DependeeCallback? && s.pending[i].verdict == SUCCEEDED
    requires s.flows[s.pending[i].callback.flow].Multiple?
    requires s.flows[s.pending[i].callback.flow].composed.parentProps == Some(p)
    ensures EntersJob(g, p, s, i, StepEffect(g, s, s.pending[i], c))
  {
  }

  lemma EntersPasses(g: Graph, p: PropMap, s: State, i: nat, e: Effect)
    requires Fits(g, s) && i < |s.pending| && EntersJob(g, p, s, i, e)
    requires s.flows[e.job].job.status in {READY, IGNORED, COMPLETED}
    ensures Passes(g, p, s, i, e) && Fits(g, Apply(s, i, e))
  {
    assert e.spawned[1..] == [];
  }

  lemma EntersFlow(g: Graph, p: PropMap, s: State, i: nat, e: Effect)
    requires Fits(g, s) && i < |s.pending| && EntersJob(g, p, s, i, e) && FlowOk(g, s, e.job)
    requires ComposedAt(s, e.job) && Fits(g, Apply(s, i, e))
    requires var x := DependeeCallback(e.job);
             && s.handed[x] == 1 && Answered(s, x) == 0 && s.handed[DependerCallback(e.job)] == 0
             && s.flows[e.job].composed.status == RUNNING
    ensures FlowOk(g, Apply(s, i, e), e.job)
  {
    var k, n := e.job, |g.deps[e.job]|;
    FlowParts(g, s, k);
    assert ComposedAt(Apply(s, i, e), k);
    ForwardRefl(s.flows[k]);
    hide FlowOk, ComposedAt, TriesOk, GroupOk, NotifyOk, JobOk;
    JobKept(s, i, e, k);
    TriesKept(s, i, e, k, n);
    GroupKept(g, s, i, e, k);
    NotifyKept(s, i, e, k, n);
    FlowWhole(g, Apply(s, i, e), k);
  }

  lemma EntersStep(g: Graph, p: PropMap, s: State, i: nat, c: Choice)
    requires Inv(g, p, s) && i < |s.pending| && TaskFits(g, s.pending[i])
    requires s.pending[i].Deliver? && s.pending[i].callback.DependeeCallback? && s.pending[i].verdict == SUCCEEDED
    ensures Inv(g, p, Apply(s, i, StepEffect(g, s, s.pending[i], c)))
  {
    var k := s.pending[i].callback.flow;
    InvShape(g, p, s);
    DependeeParts(g, p, s, i);
    PropsOf(g, p, s, k);
    EntersEffect(g, p, s, i, c);
    hide Inv, Shape, Conserved, Truthful, PropsOk, RequestsOk, FlowOk, ComposedAt, StepEffect;
    var e := StepEffect(g, s, s.pending[i], c);
    assert e.job == k;
    EntersPasses(g, p, s, i, e);
    hide EntersJob;
    EntersFlow(g, p, s, i, e);
    PassStep(g, p, s, i, e);
  }

  // ---- The composed flow gets its verdict ----

  /** The composed flow's flow after a verdict. */
  ghost predicate EndsComposed(g: Graph, s: State, i: nat, e: Effect)
    requires Fits(g, s) && i < |s.pending|
  {
    var t := s.pending[i];
    && t.Deliver? && g.IsCallback(t.callback) && IsVerdict(t.verdict)
    && (t.callback.DependerCallback? || (t.callback.DependeeCallback? && t.verdict == FAILED))
    && var k := t.callback.flow;
       && k in s.flows && s.flows[k].Multiple?
       && e == Same(s, k).(
                 flow := s.flows[k].(composed := s.flows[k].composed.(status := t.verdict)),
                 spawned := Deliveries(s.flows[k].composed.callbacks, t.verdict),
                 completed := multiset{Completion(t.callback, t.verdict)})
  }

  lemma DependerParts(g: Graph, p: PropMap, s: State, i: nat)
    requires Inv(g, p, s) && i < |s.pending| && s.pending[i].Deliver? && s.pending[i].callback.DependerCallback?
    ensures var k := s.pending[i].callback.flow; var y := DependerCallback(k);
            && TaskFits(g, s.pending[i]) && Fits(g, s) && k in s.flows && s.flows[k].Multiple? && FlowOk(g, s, k)
            && s.handed[y] == 1 && Answered(s, y) == 0
            && s.flows[k].composed.status == RUNNING && ComposedAt(s, k)
            && s.flows[k].group.status == SUCCEEDED
            && Settles(s.flows[k].job.status, s.pending[i].verdict)
  {
    var k := s.pending[i].callback.flow;
    InvShape(g, p, s);
    TaskOf(g, s, s.pending[i]);
    DeliverTrue(g, s, i);
    FlowParts(g, s, k);
    hide Inv, Shape, Conserved, Truthful, PropsOk, RequestsOk, FlowOk, ComposedAt, TriesOk, GroupOk, NotifyOk, JobOk;
    DependeeBound(s, k);
    OpenCallback(g, s, i, DependerCallback(k));
    DependerOpen(s, k);
    GroupDone(g, s, k);
  }

  lemma GroupDone(g: Graph, s: State, k: Job)
    requires Shape(g, s) && Truthful(g, s) && k in s.flows && s.flows[k].Multiple? && ComposedAt(s, k)
    requires Completion(DependeeCallback(k), SUCCEEDED) in s.completions
    ensures s.flows[k].group.status == SUCCEEDED
  {
    LoggedTrue(g, s, Completion(DependeeCallback(k), SUCCEEDED));
  }

  lemma EndsEffect(g: Graph, s: State, i: nat, c: Choice)
    requires Fits(g, s) && i < |s.pending| && TaskFits(g, s.pending[i]) && s.pending[i].Deliver?
    requires var t := s.pending[i];
             t.callback.DependerCallback? || (t.callback.DependeeCallback? && t.verdict == FAILED)
    requires s.flows[s.pending[i].callback.flow].Multiple?
    ensures EndsComposed(g, s, i, StepEffect(g, s, s.pending[i], c))
  {
  }

  lemma EndsFlushes(g: Graph, s: State, i: nat, e: Effect)
    requires Fits(g, s) && i < |s.pending| && EndsComposed(g, s, i, e)
    requires s.flows[e.job].composed.status == RUNNING
    ensures Flushes(g, s, i, e, ComposedNode(e.job), s.pending[i].verdict) && Fits(g, Apply(s, i, e))
    ensures e.job in s.flows && Forward(s.flows[e.job], e.flow)
    ensures e.flow == s.flows[e.job].(composed := s.flows[e.job].composed.(status := s.pending[i].verdict))
  {
  }

  lemma EndsComposedAt(g: Graph, s: State, i: nat, e: Effect)
    requires Fits(g, s) && i < |s.pending| && EndsComposed(g, s, i, e) && ComposedAt(s, e.job)
    requires s.flows[e.job].composed.status == RUNNING
    requires s.handed[s.pending[i].callback] == 1 && Answered(s, s.pending[i].callback) == 0
    requires s.pending[i].verdict == SUCCEEDED ==>
               s.flows[e.job].group.status == SUCCEEDED && IsDone(s.flows[e.job].job.status)
    ensures ComposedAt(Apply(s, i, e), e.job)
  {
  }

  lemma FlushLogs(g: Graph, s: State, i: nat, e: Effect, v: Status)
    requires Fits(g, s) && i < |s.pending| && s.pending[i].Deliver? && !s.pending[i].callback.GroupCallback?
    requires Flushes(g, s, i, e, ComposedNode(e.job), v)
    ensures e.handed == multiset{} && e.launched == multiset{}
    ensures forall c :: c in e.completed ==> !c.callback.GroupCallback?
  {
  }

  lemma EndsFlow(g: Graph, s: State, i: nat, e: Effect, v: Status)
    requires Shape(g, s) && i < |s.pending| && s.pending[i].Deliver? && !s.pending[i].callback.GroupCallback?
    requires e.job in s.flows && FlowOk(g, s, e.job) && s.flows[e.job].Multiple?
    requires Flushes(g, s, i, e, ComposedNode(e.job), v) && Forward(s.flows[e.job], e.flow)
    requires e.flow == s.flows[e.job].(composed := s.flows[e.job].composed.(status := v))
    requires Fits(g, Apply(s, i, e)) && ComposedAt(Apply(s, i, e), e.job)
    ensures FlowOk(g, Apply(s, i, e), e.job)
  {
    hide FlowOk, ComposedAt, TriesOk, GroupOk, NotifyOk, JobOk, Shape, Flushes, Apply, Forward;
    ShapeFits(g, s);
    var k, n := e.job, |g.deps[e.job]|;
    FlowParts(g, s, k);
    forall x | x in e.spawned ensures x.Deliver? {
      FlushedTask(g, s, i, e, ComposedNode(k), v, x);
    }
    FlushLogs(g, s, i, e, v);
    JobKept(s, i, e, k);
    TriesKept(s, i, e, k, n);
    GroupKept(g, s, i, e, k);
    NotifyKept(s, i, e, k, n);
    FlowWhole(g, Apply(s, i, e), k);
  }

  lemma EndsProps(g: Graph, p: PropMap, s: State, i: nat, k: Job, f': Flow, v: Status)
    requires Shape(g, s) && PropsOk(g, p, s) && i < |s.pending| && k in s.flows && s.flows[k].Multiple?
    requires s.flows[k].composed.status == RUNNING && IsVerdict(v)
    requires f' == s.flows[k].(composed := s.flows[k].composed.(status := v))
    ensures PropsAt(f', p)
    ensures forall x :: x in Without(s.pending, i) && x.Enter? && x.target.job == k ==> EnterOk(f', p, x)
  {
    EntriesKept(g, p, s, i, k);
    PropsOf(g, p, s, k);
  }

  lemma EndsStep(g: Graph, p: PropMap, s: State, i: nat, c: Choice)
    requires Inv(g, p, s) && i < |s.pending| && TaskFits(g, s.pending[i]) && s.pending[i].Deliver?
    requires var t := s.pending[i];
             t.callback.DependerCallback? || (t.callback.DependeeCallback? && t.verdict == FAILED)
    ensures Inv(g, p, Apply(s, i, StepEffect(g, s, s.pending[i], c)))
  {
    var k, v := s.pending[i].callback.flow, s.pending[i].verdict;
    InvShape(g, p, s);
    if s.pending[i].callback.DependerCallback? { DependerParts(g, p, s, i); } else { DependeeParts(g, p, s, i); }
    RequestOf(g, s, k);
    EndsEffect(g, s, i, c);
    hide Inv, Conserved, Truthful, PropsOk, RequestsOk, FlowOk, ComposedAt, StepEffect, Flushes, Forward,
         PropsAt, EnterOk, Requested;
    var e := StepEffect(g, s, s.pending[i], c);
    EndsFlushes(g, s, i, e);
    EndsComposedAt(g, s, i, e);
    hide EndsComposed;
    EndsFlow(g, s, i, e, v);
    EndsProps(g, p, s, i, k, e.flow, v);
    FlushStep(g, p, s, i, e, ComposedNode(k), v);
  }
}
