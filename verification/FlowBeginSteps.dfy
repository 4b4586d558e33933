/** The execute calls that set an object to work. */
module FlowBeginSteps {
  import opened FlowTypes
  import opened FlowSteps
  import opened FlowInvariant
  import opened FlowFrame
  import opened FlowStepParts
  import opened FlowGroupSteps
  import opened FlowJobSteps
  import opened FlowDeliverSteps
  import opened FlowEnterSteps

  /** A ready object starts to run with the call's props and callback. */
  ghost predicate Begins(g: Graph, s: State, t: Task, e: Effect) {
    && Fits(g, s) && t.Enter? && g.IsNode(t.target) && g.IsCallback(t.callback) && g.Home(t.callback) == t.target
    && var n := t.target; var k := n.job;
    && k in s.flows && (s.flows[k].Multiple? || n.IndividualNode?)
    && var m := NodeAt(s.flows[k], n);
    && m.status == READY && m.callbacks == [] && m.parentProps == None
    && (n.GroupedNode? ==> !m.notified)
    && e == Same(s, k).(
              flow := WithNode(s.flows[k], n,
                               m.(status := RUNNING, parentProps := Some(t.props), callbacks := [t.callback])),
              spawned := BeginTasks(g, n, t.props),
              handed := BeginHands(n))
  }

  lemma BeginEffect(g: Graph, s: State, t: Task, e: Effect)
    requires Entered(g, s, t, e, Begin)
    requires var m := NodeAt(s.flows[t.target.job], t.target);
             m.status == READY ==> m.callbacks == [] && m.parentProps == None && (t.target.GroupedNode? ==> !m.notified)
    ensures Begins(g, s, t, e)
  {
    var m := NodeAt(s.flows[t.target.job], t.target);
    if m.status == READY { assert m.callbacks + [t.callback] == [t.callback]; }
  }

  lemma ReadyFresh(g: Graph, s: State, n: Node)
    requires Fits(g, s) && g.IsNode(n) && n.job in s.flows && FlowOk(g, s, n.job)
    requires s.flows[n.job].Multiple? || n.IndividualNode?
    ensures var m := NodeAt(s.flows[n.job], n);
            m.status == READY ==> m.callbacks == [] && m.parentProps == None && (n.GroupedNode? ==> !m.notified)
  {
    FlowParts(g, s, n.job);
  }

  lemma BeginChange(g: Graph, s: State, t: Task, e: Effect)
    requires Begins(g, s, t, e)
    ensures e.job == t.target.job && e.job in s.flows && (e.flow.Single? <==> s.flows[e.job].Single?)
    ensures e.flow == WithNode(s.flows[e.job], t.target, NodeAt(e.flow, t.target))
    ensures NodeAt(e.flow, t.target).callbacks == [t.callback] && NodeAt(s.flows[e.job], t.target).callbacks == []
    ensures e.completed == multiset{} && e.launched == multiset{} && !e.fault
    ensures e.spawned == BeginTasks(g, t.target, t.props) && e.handed == BeginHands(t.target)
    ensures OwedBy(e.flow, t.target) == [t.callback] && OwedBy(s.flows[e.job], t.target) == []
    ensures Forward(s.flows[e.job], e.flow)
  {
  }

  lemma BeginTask(g: Graph, n: Node, p: PropMap, x: Task)
    requires g.IsNode(n) && g.Closed() && x in BeginTasks(g, n, p)
    ensures TaskFits(g, x) && About(x, n.job) && !x.Deliver?
    ensures x.Enter? ==> n.ComposedNode? && x == Enter(GroupedNode(n.job), p, DependeeCallback(n.job))
    ensures x.TryChild? ==> n.GroupedNode?
    ensures x.Load? ==> n.IndividualNode? && x == Load(n.job)
    ensures !x.Run? && !IsPhase(x)
  {
    if n.GroupedNode? { TriesMember(n.job, 0, |g.deps[n.job]|, x); }
  }

  lemma BeginCarries(g: Graph, n: Node, p: PropMap)
    requires g.IsNode(n)
    ensures Carried(BeginTasks(g, n, p)) == BeginHands(n)
  {
    if n.GroupedNode? {
      TriesCarry(n.job, 0, |g.deps[n.job]|);
    } else {
      assert BeginTasks(g, n, p)[1..] == [];
    }
  }

  lemma BeginShape(g: Graph, s: State, t: Task, e: Effect)
    requires Shape(g, s) && Begins(g, s, t, e)
    ensures WellFormed(g, s, e)
    ensures forall x :: x in e.spawned ==> About(x, e.job) && !x.Deliver?
  {
    BeginChange(g, s, t, e);
    forall x | x in e.spawned ensures TaskFits(g, x) && About(x, e.job) && !x.Deliver? {
      BeginTask(g, t.target, t.props, x);
    }
    forall n, cb | g.IsNode(n) && n.job == e.job && cb in CallbacksAt(e.flow, n)
      ensures g.IsCallback(cb) && g.Home(cb) == n
    {
      if n == t.target {
        assert cb == t.callback;
      } else {
        assert cb in CallbacksAt(s.flows[e.job], n);
      }
    }
  }

  lemma BeginLocal(g: Graph, s: State, i: nat, e: Effect)
    requires Shape(g, s) && i < |s.pending| && Begins(g, s, s.pending[i], e)
    ensures WellFormed(g, s, e) && Shape(g, Apply(s, i, e)) && LocalEffect(s.pending[i], e)
    ensures SpeaksTruth(g, s, Apply(s, i, e), e) && Caller !in e.handed
  {
    BeginShape(g, s, s.pending[i], e);
    BeginChange(g, s, s.pending[i], e);
    ShapeStep(g, s, i, e);
  }

  lemma BeginOthers(g: Graph, s: State, i: nat, e: Effect, m: Node)
    requires Fits(g, s) && i < |s.pending| && Begins(g, s, s.pending[i], e)
    requires g.IsNode(m) && m != s.pending[i].target
    ensures m.job in s.flows && OwedBy(Apply(s, i, e).flows[m.job], m) == OwedBy(s.flows[m.job], m)
  {
  }

  lemma BeginBalance(g: Graph, s: State, i: nat, e: Effect)
    requires Fits(g, s) && i < |s.pending| && Begins(g, s, s.pending[i], e)
    ensures var n := s.pending[i].target;
            && g.IsNode(n) && n.job in s.flows && IsVerdictLog(s.pending[i], e.completed)
            && CarriedBy(s.pending[i]) + multiset(OwedBy(s.flows[n.job], n)) + e.handed
               == Carried(e.spawned) + multiset(OwedBy(Apply(s, i, e).flows[n.job], n)) + CompletedBy(s.pending[i])
  {
    BeginChange(g, s, s.pending[i], e);
    BeginCarries(g, s.pending[i].target, s.pending[i].props);
  }

  lemma BeginConserved(g: Graph, s: State, i: nat, e: Effect)
    requires Shape(g, s) && Conserved(g, s) && i < |s.pending| && Begins(g, s, s.pending[i], e)
    requires Shape(g, Apply(s, i, e))
    ensures Conserved(g, Apply(s, i, e))
  {
    BeginBalance(g, s, i, e);
    var n := s.pending[i].target;
    forall m | g.IsNode(m) && m != n
      ensures OwedBy(Apply(s, i, e).flows[m.job], m) == OwedBy(s.flows[m.job], m)
    {
      BeginOthers(g, s, i, e, m);
    }
    hide Conserved, Begins, OwedBy, Carried, CarriedBy, CompletedBy, IsVerdictLog;
    ConservedStep(g, s, i, e, n);
  }

  // ---- Props ----

  /** No other call is on its way into the same wrapped job. */
  lemma OnlyEntry(g: Graph, s: State, i: nat)
    requires Shape(g, s) && Conserved(g, s) && i < |s.pending| && s.pending[i].Enter?
    requires s.pending[i].callback.DependerCallback? && s.handed[s.pending[i].callback] <= 1
    ensures forall x :: x in Without(s.pending, i) && x.Enter? && x.target.job == s.pending[i].target.job ==>
              !x.callback.DependerCallback?
  {
    var t := s.pending[i];
    TaskOf(g, s, t);
    OpenCallback(g, s, i, t.callback);
    forall x | x in Without(s.pending, i) && x.Enter? && x.target.job == t.target.job
      ensures !x.callback.DependerCallback?
    {
      assert x in s.pending;
      TaskOf(g, s, x);
      assert t.callback !in CarriedBy(x);
    }
  }

  lemma BeginPropsAt(g: Graph, p: PropMap, s: State, t: Task, e: Effect)
    requires Begins(g, s, t, e) && PropsAt(s.flows[t.target.job], p)
    requires t.props == (if t.target.IndividualNode? && s.flows[t.target.job].Multiple?
                         then p + OrEmpty(s.flows[t.target.job].group.returnProps) else p)
    ensures PropsAt(e.flow, p)
  {
  }

  /** The call sets its object to work with the props it should hold. */
  ghost predicate ProperCall(s: State, p: PropMap, t: Task)
    requires t.Enter? && t.target.job in s.flows
  {
    var f := s.flows[t.target.job];
    && t.props == (if t.target.IndividualNode? && f.Multiple? then p + OrEmpty(f.group.returnProps) else p)
    && (t.target.IndividualNode? && f.Multiple? ==> t.callback.DependerCallback?)
    && (t.callback.DependerCallback? ==> f.Multiple? && s.handed[t.callback] <= 1)
  }

  lemma BeginEntries(g: Graph, p: PropMap, s: State, i: nat, e: Effect)
    requires Shape(g, s) && Conserved(g, s) && PropsOk(g, p, s) && i < |s.pending| && Begins(g, s, s.pending[i], e)
    requires ProperCall(s, p, s.pending[i])
    ensures forall x :: x in Without(s.pending, i) && x.Enter? && x.target.job == e.job ==> EnterOk(e.flow, p, x)
  {
    var t := s.pending[i];
    EntriesKept(g, p, s, i, e.job);
    if t.callback.DependerCallback? { OnlyEntry(g, s, i); }
    forall x | x in Without(s.pending, i) && x.Enter? && x.target.job == e.job
      ensures EnterOk(e.flow, p, x)
    {
      assert x in s.pending;
      TaskOf(g, s, x);
      BeginEntry(g, p, s, t, e, x);
    }
  }

  lemma BeginSends(g: Graph, p: PropMap, s: State, t: Task, e: Effect)
    requires Begins(g, s, t, e) && ProperCall(s, p, t)
    ensures forall x :: x in e.spawned && x.Enter? ==> x.target.job == e.job && EnterOk(e.flow, p, x)
  {
    forall x | x in e.spawned && x.Enter?
      ensures x.target.job == e.job && EnterOk(e.flow, p, x)
    {
      BeginTask(g, t.target, t.props, x);
    }
  }

  lemma BeginProps(g: Graph, p: PropMap, s: State, i: nat, e: Effect)
    requires Shape(g, s) && Conserved(g, s) && PropsOk(g, p, s) && i < |s.pending| && Begins(g, s, s.pending[i], e)
    requires ProperCall(s, p, s.pending[i])
    ensures CarriesProps(g, p, s, i, e)
  {
    PropsOf(g, p, s, e.job);
    BeginPropsAt(g, p, s, s.pending[i], e);
    BeginEntries(g, p, s, i, e);
    BeginSends(g, p, s, s.pending[i], e);
  }

  lemma BeginEntry(g: Graph, p: PropMap, s: State, t: Task, e: Effect, x: Task)
    requires Begins(g, s, t, e) && x.Enter? && EnterOk(s.flows[e.job], p, x)
    requires t.target.IndividualNode? && s.flows[e.job].Multiple? ==> !x.callback.DependerCallback?
    requires s.flows[e.job].Single? ==> !x.callback.DependerCallback?
    ensures EnterOk(e.flow, p, x)
  {
  }

  // ---- The clauses of the job that begins ----

  lemma BeginRequest(g: Graph, s: State, t: Task, e: Effect)
    requires Begins(g, s, t, e) && s.handed[t.callback] > 0
    requires s.flows[e.job].GetStatus() in {RUNNING, FAILED} ==> e.job == g.root || Requested(g, s, e.job)
    ensures e.flow.GetStatus() in {RUNNING, FAILED} ==> e.job == g.root || Requested(g, s, e.job)
  {
    if e.flow.GetStatus() != s.flows[e.job].GetStatus() {
      assert t.target == g.Front(e.job);
      if t.callback.GroupCallback? {
        assert g.deps[t.callback.group][t.callback.child] == e.job;
      }
    }
  }

  lemma BeginJob(g: Graph, s: State, i: nat, e: Effect)
    requires Fits(g, s) && i < |s.pending| && Begins(g, s, s.pending[i], e) && JobOk(s, e.job)
    ensures JobOk(Apply(s, i, e), e.job)
  {
    var k, n := e.job, s.pending[i].target;
    assert s.pending[i].Enter?;
    if n.IndividualNode? {
      CountStep(s, i, e, Load(k));
      CountStep(s, i, e, Run(k));
    } else {
      forall x | x in e.spawned ensures x != Load(k) && x != Run(k) {
        BeginTask(g, n, s.pending[i].props, x);
      }
      JobKept(s, i, e, k);
    }
  }

  lemma BeginComposed(g: Graph, s: State, i: nat, e: Effect)
    requires Fits(g, s) && i < |s.pending| && Begins(g, s, s.pending[i], e) && e.job in s.flows
    requires s.flows[e.job].Multiple? && ComposedAt(s, e.job) && s.handed[s.pending[i].callback] > 0
    ensures ComposedAt(Apply(s, i, e), e.job)
  {
    var t := s.pending[i];
    assert t.target.GroupedNode? ==> t.callback == DependeeCallback(e.job);
    assert t.target.IndividualNode? ==> t.callback == DependerCallback(e.job);
    match t.target
    case IndividualNode(_) =>
    case ComposedNode(_) =>
    case GroupedNode(_) =>
  }

  lemma BeginTries(g: Graph, s: State, i: nat, e: Effect)
    requires Fits(g, s) && i < |s.pending| && Begins(g, s, s.pending[i], e) && e.job in s.flows
    requires s.flows[e.job].Multiple? && TriesOk(s, e.job, |g.deps[e.job]|)
    requires s.handed[s.pending[i].callback] > 0
    ensures TriesOk(Apply(s, i, e), e.job, |g.deps[e.job]|)
  {
    var k, t, s' := e.job, s.pending[i], Apply(s, i, e);
    var grouped := t.target.GroupedNode?;
    BeginHandings(g, s, i, e);
    hide Begins, Apply;
    forall c: nat | c < |g.deps[k]|
      ensures TriesLeft(s', k, c) == TriesLeft(s, k, c) + (if grouped then 1 else 0)
    {
      BeginTryCount(g, s, i, e, c);
    }
  }

  lemma BeginHandings(g: Graph, s: State, i: nat, e: Effect)
    requires Fits(g, s) && i < |s.pending| && Begins(g, s, s.pending[i], e) && e.job in s.flows
    requires s.flows[e.job].Multiple?
    requires s.handed[s.pending[i].callback] > 0
    ensures var s', t, k := Apply(s, i, e), s.pending[i], e.job;
            && t.Enter? && t.target.job == k && k in s'.flows && s'.flows[k].Multiple?
            && (forall c: nat :: s'.handed[GroupCallback(k, c)] == s.handed[GroupCallback(k, c)])
            && s'.handed[DependeeCallback(k)] >= s.handed[DependeeCallback(k)]
            && (if t.target.GroupedNode?
                then && s.flows[k].group.status == READY && s'.flows[k].group.status == RUNNING
                     && s.handed[DependeeCallback(k)] > 0
                else s'.flows[k].group.status == s.flows[k].group.status)
  {
    hide Tries;
  }

  lemma BeginTryCount(g: Graph, s: State, i: nat, e: Effect, c: nat)
    requires Fits(g, s) && i < |s.pending| && Begins(g, s, s.pending[i], e) && c < |g.deps[e.job]|
    ensures TriesLeft(Apply(s, i, e), e.job, c)
         == TriesLeft(s, e.job, c) + (if s.pending[i].target.GroupedNode? then 1 else 0)
  {
    var k, t := e.job, s.pending[i];
    CountStep(s, i, e, TryChild(k, c));
    hide Apply, Tries;
    if t.target.GroupedNode? {
      TriesOnce(k, 0, |g.deps[k]|, c);
    } else if TryChild(k, c) in e.spawned {
      BeginTask(g, t.target, t.props, TryChild(k, c));
    }
  }

  lemma NeverAnswered(g: Graph, s: State, k: Job, c: nat)
    requires Fits(g, s) && Conserved(g, s) && k in s.flows && c < |g.deps[k]|
    requires s.handed[GroupCallback(k, c)] == 0
    ensures Answered(s, GroupCallback(k, c)) == 0
  {
    Balance(g, s, GroupCallback(k, c));
  }

  lemma BeginGroup(g: Graph, s: State, i: nat, e: Effect)
    requires Fits(g, s) && Conserved(g, s) && i < |s.pending| && Begins(g, s, s.pending[i], e) && e.job in s.flows
    requires s.flows[e.job].Multiple? && TriesOk(s, e.job, |g.deps[e.job]|) && GroupOk(g, s, e.job)
    requires Fits(g, Apply(s, i, e))
    ensures GroupOk(g, Apply(s, i, e), e.job)
  {
    var k, s' := e.job, Apply(s, i, e);
    BeginChange(g, s, s.pending[i], e);
    hide Begins;
    if s.pending[i].target.GroupedNode? {
      BeginGroupStatus(g, s, s.pending[i], e);
      assert e.flow.group.status == RUNNING && s.flows[k].group.status == READY;
      assert 0 < |g.deps[k]|;
      assert s.handed[GroupCallback(k, 0)] == 0;
      NeverAnswered(g, s, k, 0);
      assert Answered(s', GroupCallback(k, 0)) == 0;
    } else {
      BeginGroupStatus(g, s, s.pending[i], e);
      GroupKept(g, s, i, e, k);
    }
  }

  lemma BeginGroupStatus(g: Graph, s: State, t: Task, e: Effect)
    requires Begins(g, s, t, e) && e.job in s.flows && s.flows[e.job].Multiple?
    ensures e.flow.Multiple?
    ensures t.target.GroupedNode? ==> e.flow.group.status == RUNNING && s.flows[e.job].group.status == READY
    ensures !t.target.GroupedNode? ==> e.flow.group == s.flows[e.job].group
  {
  }

  lemma BeginNotify(g: Graph, s: State, i: nat, e: Effect)
    requires Fits(g, s) && i < |s.pending| && Begins(g, s, s.pending[i], e) && e.job in s.flows
    requires s.flows[e.job].Multiple? && NotifyOk(s, e.job, |g.deps[e.job]|)
    ensures NotifyOk(Apply(s, i, e), e.job, |g.deps[e.job]|)
  {
    var k, t, s' := e.job, s.pending[i], Apply(s, i, e);
    BeginGroupStatus(g, s, t, e);
    forall x | x in e.spawned ensures !IsPhase(x) {
      BeginTask(g, t.target, t.props, x);
    }
    if t.target.GroupedNode? {
      forall c: nat
        ensures CasSucceeded(k, c) !in s'.pending && CasFailed(k, c) !in s'.pending
      {
        CountStep(s, i, e, CasSucceeded(k, c));
        CountStep(s, i, e, CasFailed(k, c));
        assert IsPhase(CasSucceeded(k, c)) && IsPhase(CasFailed(k, c));
      }
    } else {
      NotifyKept(s, i, e, k, |g.deps[k]|);
    }
  }

  lemma BeginFlow(g: Graph, s: State, i: nat, e: Effect)
    requires Fits(g, s) && Conserved(g, s) && i < |s.pending| && Begins(g, s, s.pending[i], e) && e.job in s.flows
    requires FlowOk(g, s, e.job) && Fits(g, Apply(s, i, e)) && s.handed[s.pending[i].callback] > 0
    ensures FlowOk(g, Apply(s, i, e), e.job)
  {
    hide Conserved, FlowOk, ComposedAt, TriesOk, GroupOk, NotifyOk, JobOk, Begins;
    FlowParts(g, s, e.job);
    BeginJob(g, s, i, e);
    if s.flows[e.job].Multiple? {
      BeginComposed(g, s, i, e);
      BeginTries(g, s, i, e);
      BeginGroup(g, s, i, e);
      BeginNotify(g, s, i, e);
    }
    FlowWhole(g, Apply(s, i, e), e.job);
  }

  lemma BeginCall(g: Graph, p: PropMap, s: State, i: nat, e: Effect)
    requires Inv(g, p, s) && i < |s.pending| && Begins(g, s, s.pending[i], e)
    ensures s.pending[i].Enter? && e.job == s.pending[i].target.job && e.job in s.flows
    ensures ProperCall(s, p, s.pending[i])
  {
    hide Inv, Shape, FlowOk, PropsAt, EnterOk, Forward;
    var t := s.pending[i];
    EntryParts(g, p, s, i);
    BeginChange(g, s, t, e);
    Accepted(g, s, p, t);
    DependerOnce(g, s, t);
  }

  lemma BeginStep(g: Graph, p: PropMap, s: State, i: nat, e: Effect)
    requires Inv(g, p, s) && i < |s.pending| && Begins(g, s, s.pending[i], e)
    ensures Inv(g, p, Apply(s, i, e))
  {
    hide Inv, Shape, Conserved, Truthful, PropsOk, RequestsOk, FlowOk, Begins, Forward, PropsAt, EnterOk,
         WellFormed, SpeaksTruth, LocalEffect, Requested, CarriesProps, NodeAt, WithNode, ProperCall, Accepts;
    var t := s.pending[i];
    InvShape(g, p, s);
    BeginCall(g, p, s, i, e);
    EntryParts(g, p, s, i);
    BeginChange(g, s, t, e);
    RequestOf(g, s, e.job);
    BeginRequest(g, s, t, e);
    BeginLocal(g, s, i, e);
    BeginConserved(g, s, i, e);
    BeginProps(g, p, s, i, e);
    BeginFlow(g, s, i, e);
    InvStep(g, p, s, i, e);
  }

  lemma DependerOnce(g: Graph, s: State, t: Task)
    requires Fits(g, s) && t.Enter? && TaskFits(g, t) && t.target.job in s.flows && FlowOk(g, s, t.target.job)
    ensures t.callback.DependerCallback? ==> s.handed[t.callback] <= 1 && s.flows[t.target.job].Multiple?
  {
    if t.callback.DependerCallback? {
      FlowParts(g, s, t.target.job);
      DependeeBound(s, t.target.job);
    }
  }
}
