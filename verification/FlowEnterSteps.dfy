/** The steps that enter an execute method. */
module FlowEnterSteps {
  import opened FlowTypes
  import opened FlowSteps
  import opened FlowInvariant
  import opened FlowFrame
  import opened FlowStepParts
  import opened FlowGroupSteps
  import opened FlowJobSteps
  import opened FlowDeliverSteps

  function NodeAt(f: Flow, n: Node): NodeState
    requires f.Multiple? || n.IndividualNode?
  {
    match n
    case IndividualNode(_) => f.job
    case ComposedNode(_) => f.composed
    case GroupedNode(_) => f.group
  }

  function WithNode(f: Flow, n: Node, m: NodeState): Flow
    requires f.Multiple? || n.IndividualNode?
  {
    match n
    case IndividualNode(_) => f.(job := m)
    case ComposedNode(_) => f.(composed := m)
    case GroupedNode(_) => f.(group := m)
  }

  function KindOf(n: Node): Kind {
    match n
    case IndividualNode(_) => Individual
    case ComposedNode(_) => Composed
    case GroupedNode(_) => Grouped
  }

  /** What a call that begins its object's work leaves to do. */
  function BeginTasks(g: Graph, n: Node, p: PropMap): seq<Task>
    requires n.job in g.deps
  {
    match n
    case IndividualNode(k) => [Load(k)]
    case ComposedNode(k) => [Enter(GroupedNode(k), p, DependeeCallback(k))]
    case GroupedNode(k) => Tries(k, 0, |g.deps[k]|)
  }

  function BeginHands(n: Node): multiset<Callback> {
    if n.ComposedNode? then multiset{DependeeCallback(n.job)} else multiset{}
  }

  // ---- Nothing is refused ----

  /** The object is new to the props, was marked, or holds the same props. */
  ghost predicate Accepts(n: NodeState, p: PropMap) {
    n.parentProps == None || n.status == COMPLETED || n.parentProps == Some(p)
  }

  lemma EntryParts(g: Graph, p: PropMap, s: State, i: nat)
    requires Inv(g, p, s) && i < |s.pending| && s.pending[i].Enter?
    ensures var t := s.pending[i]; var n := t.target; var k := n.job;
            && TaskFits(g, t) && Fits(g, s) && g.IsNode(n) && k in s.flows && FlowOk(g, s, k)
            && (s.flows[k].Multiple? || n.IndividualNode?)
            && PropsAt(s.flows[k], p) && EnterOk(s.flows[k], p, t)
            && s.handed[t.callback] > 0
  {
    hide Inv, Shape, Conserved, Truthful, PropsOk, RequestsOk, FlowOk, PropsAt, EnterOk;
    var t := s.pending[i];
    InvShape(g, p, s);
    EntryHanded(g, s, t);
    TaskOf(g, s, t);
    PropsOf(g, p, s, t.target.job);
    EntryOf(g, p, s, t);
    NodeExists(g, s, t.target, t.callback);
  }

  lemma NodeExists(g: Graph, s: State, n: Node, cb: Callback)
    requires Fits(g, s) && g.IsCallback(cb) && g.Home(cb) == n
    ensures g.IsNode(n) && n.job in s.flows && (s.flows[n.job].Multiple? || n.IndividualNode?)
  {
  }

  lemma EntryOf(g: Graph, p: PropMap, s: State, t: Task)
    requires Shape(g, s) && PropsOk(g, p, s) && t in s.pending && t.Enter? && t.target.job in s.flows
    ensures EnterOk(s.flows[t.target.job], p, t)
  {
  }

  /** The call is accepted, and an object it sets to work gets the props it should hold. */
  lemma Accepted(g: Graph, s: State, p: PropMap, t: Task)
    requires Fits(g, s) && t.Enter? && TaskFits(g, t) && g.IsNode(t.target)
    requires s.flows[t.target.job].Multiple? || t.target.IndividualNode?
    requires PropsAt(s.flows[t.target.job], p) && EnterOk(s.flows[t.target.job], p, t)
    ensures Accepts(NodeAt(s.flows[t.target.job], t.target), t.props)
    ensures t.props == (if t.target.IndividualNode? && s.flows[t.target.job].Multiple?
                        then p + OrEmpty(s.flows[t.target.job].group.returnProps) else p)
    ensures t.callback.DependerCallback? <==> t.target.IndividualNode? && s.flows[t.target.job].Multiple?
  {
    var cb := t.callback;
    assert g.Home(cb) == t.target;
    assert cb.DependeeCallback? ==> t.target.GroupedNode?;
  }

  // ---- What the step does ----

  /** The entered object's fields after the call, and what the call leaves behind. */
  ghost predicate Entered(g: Graph, s: State, t: Task, e: Effect, o: Outcome) {
    && Fits(g, s) && t.Enter? && g.IsNode(t.target) && g.IsCallback(t.callback) && g.Home(t.callback) == t.target
    && var n := t.target; var k := n.job;
    && k in s.flows && (s.flows[k].Multiple? || n.IndividualNode?)
    && var r := EnterNode(KindOf(n), NodeAt(s.flows[k], n), t.props, t.callback);
    && r.1 == o && o != Refuse && o != Drop
    && e == Same(s, k).(
              flow := WithNode(s.flows[k], n, r.0),
              spawned := (match o case Begin => BeginTasks(g, n, t.props)
                                  case Answer(v) => [Deliver(t.callback, v)]
                                  case _ => []),
              handed := if o == Begin then BeginHands(n) else multiset{})
  }

  lemma EnteredEffect(g: Graph, s: State, i: nat, c: Choice, o: Outcome)
    requires Fits(g, s) && i < |s.pending| && s.pending[i].Enter? && TaskFits(g, s.pending[i])
    requires var n := s.pending[i].target;
             && g.IsNode(n) && (s.flows[n.job].Multiple? || n.IndividualNode?)
             && Accepts(NodeAt(s.flows[n.job], n), s.pending[i].props)
             && (n.ComposedNode? ==> s.flows[n.job].composed.status != IGNORED)
             && o == EnterNode(KindOf(n), NodeAt(s.flows[n.job], n), s.pending[i].props, s.pending[i].callback).1
    ensures Entered(g, s, s.pending[i], StepEffect(g, s, s.pending[i], c), o)
  {
  }

  // ---- Calls on an object that runs or is finished ----

  /** The call queues its callback, or is answered at once. */
  ghost predicate Settled(g: Graph, s: State, t: Task, e: Effect, o: Outcome) {
    Entered(g, s, t, e, o) && o != Begin
  }

  /** How such a call may change the object. */
  ghost predicate SettledNode(n: NodeState, m: NodeState, o: Outcome, cb: Callback) {
    && m.returnProps == n.returnProps && m.notified == n.notified
    && (m.status == n.status || (n.status == IGNORED && m.status == COMPLETED))
    && (m.parentProps == n.parentProps || m.status == COMPLETED || n.parentProps == None)
    && (o == Wait ==> n.status == RUNNING && m.status == RUNNING && m.callbacks == n.callbacks + [cb])
    && (o != Wait ==>
          && n.status != RUNNING && n.status != READY && m.callbacks == n.callbacks
          && o.Answer? && Settles(m.status, o.verdict) && IsVerdict(o.verdict))
  }

  lemma SettledChange(g: Graph, s: State, t: Task, e: Effect, o: Outcome)
    requires Settled(g, s, t, e, o) && (t.target.GroupedNode? ==> s.flows[t.target.job].group.status != IGNORED)
    ensures e.job == t.target.job && e.job in s.flows && (e.flow.Single? <==> s.flows[e.job].Single?)
    ensures SettledNode(NodeAt(s.flows[e.job], t.target), NodeAt(e.flow, t.target), o, t.callback)
    ensures e.flow == WithNode(s.flows[e.job], t.target, NodeAt(e.flow, t.target))
    ensures e.spawned == (if o == Wait then [] else [Deliver(t.callback, o.verdict)])
    ensures NodeAt(e.flow, t.target).status != IGNORED
    ensures e.handed == multiset{} && e.completed == multiset{} && e.launched == multiset{} && !e.fault
  {
  }

  lemma SettledHomes(g: Graph, s: State, t: Task, e: Effect, o: Outcome)
    requires Shape(g, s) && Settled(g, s, t, e, o)
    requires t.target.GroupedNode? ==> s.flows[t.target.job].group.status != IGNORED
    ensures WellFormed(g, s, e)
  {
    SettledChange(g, s, t, e, o);
    forall n, cb | g.IsNode(n) && n.job == e.job && g.IsCallback(cb) && cb in CallbacksAt(e.flow, n)
      ensures g.Home(cb) == n
    {
      if cb !in CallbacksAt(s.flows[e.job], n) {
        assert n == t.target && cb == t.callback;
      }
    }
    forall n, cb | g.IsNode(n) && n.job == e.job && cb in CallbacksAt(e.flow, n)
      ensures g.IsCallback(cb)
    {
      if cb !in CallbacksAt(s.flows[e.job], n) {
        assert cb == t.callback;
      }
    }
  }

  /** The other objects of the job are as before. */
  lemma WithNodeSame(f: Flow, n: Node, m: NodeState, x: Node)
    requires f.Multiple? || n.IndividualNode?
    requires f.Multiple? || x.IndividualNode?
    requires x.job == n.job && x != n
    ensures NodeAt(WithNode(f, n, m), x) == NodeAt(f, x)
    ensures OwedBy(WithNode(f, n, m), x) == OwedBy(f, x)
  {
  }

  lemma SettledOwed(f: Flow, n: Node, m: NodeState, o: Outcome, cb: Callback)
    requires f.Multiple? || n.IndividualNode?
    requires SettledNode(NodeAt(f, n), m, o, cb)
    requires n.GroupedNode? && f.group.notified ==> f.group.status in {SUCCEEDED, FAILED}
    ensures multiset(OwedBy(WithNode(f, n, m), n))
         == multiset(OwedBy(f, n)) + (if o == Wait then multiset{cb} else multiset{})
  {
  }

  lemma SettledConserved(g: Graph, s: State, i: nat, e: Effect, o: Outcome)
    requires Shape(g, s) && Conserved(g, s) && i < |s.pending| && Settled(g, s, s.pending[i], e, o)
    requires var n := s.pending[i].target;
             && (n.GroupedNode? ==> s.flows[n.job].group.status != IGNORED)
             && (n.GroupedNode? && s.flows[n.job].group.notified ==> s.flows[n.job].group.status in {SUCCEEDED, FAILED})
    requires Shape(g, Apply(s, i, e))
    ensures Conserved(g, Apply(s, i, e))
  {
    var t := s.pending[i];
    var n := t.target;
    SettledChange(g, s, t, e, o);
    SettledOwed(s.flows[e.job], n, NodeAt(e.flow, n), o, t.callback);
    SettledCarries(s.pending[i], e, o);
    hide Conserved, Settled, SettledNode, OwedBy, Carried;
    forall m | g.IsNode(m) && m != n
      ensures OwedBy(Apply(s, i, e).flows[m.job], m) == OwedBy(s.flows[m.job], m)
    {
      if m.job == n.job { WithNodeSame(s.flows[e.job], n, NodeAt(e.flow, n), m); }
    }
    ConservedStep(g, s, i, e, n);
  }

  lemma SettledCarries(t: Task, e: Effect, o: Outcome)
    requires t.Enter? && (o == Wait || o.Answer?)
    requires e.spawned == (if o == Wait then [] else [Deliver(t.callback, o.verdict)])
    ensures Carried(e.spawned) == if o == Wait then multiset{} else multiset{t.callback}
  {
    if o != Wait { assert e.spawned[1..] == []; }
  }

  lemma SettledForward(f: Flow, n: Node, m: NodeState, o: Outcome, cb: Callback)
    requires f.Multiple? || n.IndividualNode?
    requires SettledNode(NodeAt(f, n), m, o, cb)
    ensures Forward(f, WithNode(f, n, m))
    ensures WithNode(f, n, m).GetStatus() in {RUNNING, FAILED} ==> WithNode(f, n, m).GetStatus() == f.GetStatus()
  {
  }

  lemma SettledProps(g: Graph, p: PropMap, s: State, i: nat, k: Job, n: Node, m: NodeState, o: Outcome, cb: Callback)
    requires Shape(g, s) && PropsOk(g, p, s) && i < |s.pending| && k in s.flows
    requires s.flows[k].Multiple? || n.IndividualNode?
    requires SettledNode(NodeAt(s.flows[k], n), m, o, cb)
    ensures PropsAt(WithNode(s.flows[k], n, m), p)
    ensures forall x :: x in Without(s.pending, i) && x.Enter? && x.target.job == k ==>
              EnterOk(WithNode(s.flows[k], n, m), p, x)
  {
    EntriesKept(g, p, s, i, k);
    PropsOf(g, p, s, k);
  }

  lemma SettledTruth(g: Graph, s: State, i: nat, e: Effect, o: Outcome)
    requires Shape(g, s) && i < |s.pending| && Settled(g, s, s.pending[i], e, o)
    requires s.pending[i].target.GroupedNode? ==> s.flows[s.pending[i].target.job].group.status != IGNORED
    requires Shape(g, Apply(s, i, e))
    ensures SpeaksTruth(g, s, Apply(s, i, e), e) && LocalEffect(s.pending[i], e)
  {
    SettledChange(g, s, s.pending[i], e, o);
  }

  // -- the clauses of the entered job --

  lemma SettledJob(s: State, i: nat, e: Effect, k: Job)
    requires i < |s.pending| && k in s.flows && JobOk(s, k) && e.job == k && e.launched == multiset{}
    requires s.pending[i].Enter? && (forall x :: x in e.spawned ==> x.Deliver?)
    requires var n, m := s.flows[k].job, e.flow.job;
             && (m.status == n.status || (n.status == IGNORED && m.status == COMPLETED))
             && (m.status in {READY, IGNORED} ==> m == n)
    ensures JobOk(Apply(s, i, e), k)
  {
    NoneAdded(s, i, e, Load(k));
    NoneAdded(s, i, e, Run(k));
  }

  lemma SettledComposed(s: State, i: nat, e: Effect, k: Job)
    requires i < |s.pending| && k in s.flows && s.flows[k].Multiple? && e.flow.Multiple? && ComposedAt(s, k)
    requires e.job == k && e.handed == multiset{} && e.completed == multiset{} && e.launched == multiset{}
    requires var f, f' := s.flows[k], e.flow;
             && f'.composed.status == f.composed.status && f'.group.status == f.group.status
             && (f'.job.status == f.job.status || (f.job.status == IGNORED && f'.job.status == COMPLETED))
             && (f'.composed.status == READY ==> f'.composed == f.composed)
             && (f'.group.status == READY ==> f'.group == f.group)
             && f'.group.notified == f.group.notified
    ensures ComposedAt(Apply(s, i, e), k)
  {
  }

  /** What SettledJob and SettledComposed need to know of the change. */
  lemma SettledFields(f: Flow, n: Node, m: NodeState, o: Outcome, cb: Callback)
    requires f.Multiple? || n.IndividualNode?
    requires SettledNode(NodeAt(f, n), m, o, cb) && m.status != IGNORED
    requires f.Multiple? ==> f.composed.status != IGNORED && f.group.status != IGNORED
    ensures var f' := WithNode(f, n, m);
            && (f'.job.status == f.job.status || (f.job.status == IGNORED && f'.job.status == COMPLETED))
            && (f'.job.status in {READY, IGNORED} ==> f'.job == f.job)
            && (f.Multiple? ==>
                  && f'.Multiple?
                  && f'.composed.status == f.composed.status && f'.group.status == f.group.status
                  && (f'.composed.status == READY ==> f'.composed == f.composed)
                  && (f'.group.status == READY ==> f'.group == f.group)
                  && f'.group.notified == f.group.notified && f'.group.returnProps == f.group.returnProps)
  {
  }

  /** The objects a call may find, as far as the settled cases care. */
  ghost predicate Sane(s: State, k: Job)
    requires k in s.flows
  {
    s.flows[k].Multiple? ==>
      && s.flows[k].composed.status != IGNORED && s.flows[k].group.status != IGNORED
      && (s.flows[k].group.notified ==> s.flows[k].group.status in {SUCCEEDED, FAILED})
  }

  lemma NotIgnored(s: State, k: Job)
    requires k in s.flows && s.flows[k].Multiple? && ComposedAt(s, k)
    ensures s.flows[k].composed.status != IGNORED && s.flows[k].group.status != IGNORED
    ensures s.flows[k].group.notified ==> s.flows[k].group.status in {SUCCEEDED, FAILED}
  {
  }

  lemma SaneFlow(g: Graph, s: State, k: Job)
    requires Fits(g, s) && k in s.flows && FlowOk(g, s, k)
    ensures Sane(s, k)
  {
    if s.flows[k].Multiple? { FlowParts(g, s, k); NotIgnored(s, k); }
  }

  /** What a settled call leaves of the job's flow. */
  lemma SettledFacts(g: Graph, s: State, i: nat, e: Effect, o: Outcome)
    requires Fits(g, s) && i < |s.pending| && Settled(g, s, s.pending[i], e, o) && e.job in s.flows && Sane(s, e.job)
    ensures s.pending[i].Enter? && e.job == s.pending[i].target.job && (e.flow.Single? <==> s.flows[e.job].Single?)
    ensures e.handed == multiset{} && e.completed == multiset{} && e.launched == multiset{}
    ensures forall x :: x in e.spawned ==> x.Deliver?
    ensures Forward(s.flows[e.job], e.flow)
    ensures var f, f' := s.flows[e.job], e.flow;
            && (f'.job.status == f.job.status || (f.job.status == IGNORED && f'.job.status == COMPLETED))
            && (f'.job.status in {READY, IGNORED} ==> f'.job == f.job)
            && (f.Multiple? ==>
                  && f'.composed.status == f.composed.status && f'.group.status == f.group.status
                  && (f'.composed.status == READY ==> f'.composed == f.composed)
                  && (f'.group.status == READY ==> f'.group == f.group)
                  && f'.group.notified == f.group.notified && f'.group.returnProps == f.group.returnProps)
  {
    hide Forward;
    var t := s.pending[i];
    SettledChange(g, s, t, e, o);
    SettledFields(s.flows[e.job], t.target, NodeAt(e.flow, t.target), o, t.callback);
    SettledForward(s.flows[e.job], t.target, NodeAt(e.flow, t.target), o, t.callback);
  }

  lemma SettledFlow(g: Graph, s: State, i: nat, e: Effect, o: Outcome)
    requires Shape(g, s) && i < |s.pending| && Settled(g, s, s.pending[i], e, o)
    requires e.job in s.flows && FlowOk(g, s, e.job) && Fits(g, Apply(s, i, e))
    requires Sane(s, e.job)
    ensures FlowOk(g, Apply(s, i, e), e.job)
  {
    hide FlowOk, ComposedAt, TriesOk, GroupOk, NotifyOk, JobOk, Forward, Settled, Shape, Apply, Sane;
    var k := e.job;
    ShapeFits(g, s);
    SettledFacts(g, s, i, e, o);
    FlowParts(g, s, k);
    SettledJob(s, i, e, k);
    if s.flows[k].Multiple? {
      var n := |g.deps[k]|;
      SettledComposed(s, i, e, k);
      TriesKept(s, i, e, k, n);
      GroupKept(g, s, i, e, k);
      NotifyKept(s, i, e, k, n);
    }
    FlowWhole(g, Apply(s, i, e), k);
  }

  lemma SettledBooks(g: Graph, s: State, i: nat, e: Effect, o: Outcome)
    requires Shape(g, s) && Conserved(g, s) && i < |s.pending| && Settled(g, s, s.pending[i], e, o)
    requires s.pending[i].target.job in s.flows && Sane(s, s.pending[i].target.job)
    ensures WellFormed(g, s, e) && Shape(g, Apply(s, i, e)) && LocalEffect(s.pending[i], e)
    ensures SpeaksTruth(g, s, Apply(s, i, e), e) && Conserved(g, Apply(s, i, e))
  {
    SettledHomes(g, s, s.pending[i], e, o);
    hide WellFormed, Conserved, SpeaksTruth, LocalEffect;
    ShapeStep(g, s, i, e);
    SettledTruth(g, s, i, e, o);
    SettledConserved(g, s, i, e, o);
  }

  lemma SettledCarriesProps(g: Graph, p: PropMap, s: State, i: nat, e: Effect, o: Outcome)
    requires Shape(g, s) && PropsOk(g, p, s) && i < |s.pending| && Settled(g, s, s.pending[i], e, o)
    requires s.pending[i].target.job in s.flows && Sane(s, s.pending[i].target.job)
    ensures CarriesProps(g, p, s, i, e)
  {
    var t := s.pending[i];
    SettledChange(g, s, t, e, o);
    assert forall x :: x in e.spawned ==> x.Deliver?;
    hide PropsOk, PropsAt, EnterOk, Settled, SettledNode, NodeAt, WithNode;
    SettledProps(g, p, s, i, e.job, t.target, NodeAt(e.flow, t.target), o, t.callback);
  }

  lemma SettledMoves(g: Graph, s: State, t: Task, e: Effect, o: Outcome)
    requires Settled(g, s, t, e, o) && Sane(s, t.target.job)
    ensures e.job == t.target.job && e.job in s.flows && Forward(s.flows[e.job], e.flow) && Caller !in e.handed
    ensures e.flow.GetStatus() in {RUNNING, FAILED} ==> e.flow.GetStatus() == s.flows[e.job].GetStatus()
  {
    SettledChange(g, s, t, e, o);
    SettledForward(s.flows[e.job], t.target, NodeAt(e.flow, t.target), o, t.callback);
  }

  lemma SettledStep(g: Graph, p: PropMap, s: State, i: nat, e: Effect, o: Outcome)
    requires Inv(g, p, s) && i < |s.pending| && Settled(g, s, s.pending[i], e, o)
    ensures Inv(g, p, Apply(s, i, e))
  {
    var k := s.pending[i].target.job;
    InvShape(g, p, s);
    EntryParts(g, p, s, i);
    hide Inv, Shape, Conserved, Truthful, PropsOk, RequestsOk, FlowOk, Settled, Forward, PropsAt, EnterOk,
         WellFormed, SpeaksTruth, LocalEffect, Requested, Sane, CarriesProps;
    SaneFlow(g, s, k);
    SettledMoves(g, s, s.pending[i], e, o);
    RequestOf(g, s, k);
    SettledBooks(g, s, i, e, o);
    SettledCarriesProps(g, p, s, i, e, o);
    SettledFlow(g, s, i, e, o);
    InvStep(g, p, s, i, e);
  }
}
