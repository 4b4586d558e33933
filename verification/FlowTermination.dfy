/** Every run ends: each step uses up some of the work the flow still has in store. */
module FlowTermination {
  import opened FlowTypes
  import opened FlowSteps
  import opened FlowInvariant
  import opened FlowStepParts
  import opened FlowGroupSteps
  import opened FlowJobSteps
  import opened FlowDeliverSteps
  import opened FlowComposedSteps
  import opened FlowEnterSteps
  import opened FlowBeginSteps
  import opened FlowRuns

  // ---- The work in store ----

  /** Work left in completing a callback; completing a dependee callback goes on to enter the job. */
  function Answering(cb: Callback): nat {
    if cb.DependeeCallback? then 7 else 5
  }

  function TaskWork(t: Task): nat {
    match t
    case Enter(_, _, cb) => Answering(cb) + 1
    case Deliver(cb, _) => Answering(cb)
    case TryChild(_, _) => 7
    case Load(_) => 2
    case Run(_) => 1
    case ReadFirst(_, _) => 4
    case CasSucceeded(_, _) => 3
    case ReadSecond(_, _) => 2
    case CasFailed(_, _) => 1
  }

  function QueueWork(q: seq<Task>): nat {
    if q == [] then 0 else TaskWork(q[0]) + QueueWork(q[1..])
  }

  function OwedWork(cbs: seq<Callback>): nat {
    if cbs == [] then 0 else Answering(cbs[0]) + OwedWork(cbs[1..])
  }

  /** Work an object will add when it is first entered, n being the number of dependencies. */
  function ReadyWork(n: Node, st: Status, deps: nat): nat {
    if st != READY then 0
    else match n
      case IndividualNode(_) => 2
      case ComposedNode(_) => 8
      case GroupedNode(_) => 7 * deps
  }

  function NodeWork(f: Flow, n: Node, deps: nat): nat
    requires f.Multiple? || n.IndividualNode?
  {
    ReadyWork(n, NodeAt(f, n).status, deps) + OwedWork(OwedBy(f, n))
  }

  function FlowWork(f: Flow, k: Job, deps: nat): nat {
    if f.Single? then NodeWork(f, IndividualNode(k), deps)
    else NodeWork(f, IndividualNode(k), deps) + NodeWork(f, ComposedNode(k), deps) + NodeWork(f, GroupedNode(k), deps)
  }

  ghost function FlowsWork(g: Graph, flows: map<Job, Flow>, keys: set<Job>): nat
    requires keys <= flows.Keys && keys <= g.deps.Keys
  {
    if keys == {} then 0
    else
      var k :| k in keys;
      FlowWork(flows[k], k, |g.deps[k]|) + FlowsWork(g, flows, keys - {k})
  }

  /** All the work in store: an upper bound on the number of steps still to come. */
  ghost function Work(g: Graph, s: State): nat
    requires Fits(g, s)
  {
    FlowsWork(g, s.flows, g.deps.Keys) + QueueWork(s.pending)
  }

  // ---- Sums ----

  lemma {:induction false} QueueWorkConcat(a: seq<Task>, b: seq<Task>)
    ensures QueueWork(a + b) == QueueWork(a) + QueueWork(b)
  {
    if a == [] {
      assert a + b == b;
    } else {
      assert (a + b)[1..] == a[1..] + b;
      QueueWorkConcat(a[1..], b);
    }
  }

  lemma QueueWorkStep(q: seq<Task>, i: nat, added: seq<Task>)
    requires i < |q|
    ensures QueueWork(Without(q, i) + added) + TaskWork(q[i]) == QueueWork(q) + QueueWork(added)
  {
    assert q == q[..i] + ([q[i]] + q[i + 1..]);
    QueueWorkConcat(q[..i], [q[i]] + q[i + 1..]);
    QueueWorkConcat([q[i]], q[i + 1..]);
    QueueWorkConcat(q[..i], q[i + 1..]);
    QueueWorkConcat(Without(q, i), added);
    assert QueueWork([q[i]]) == TaskWork(q[i]);
  }

  lemma {:induction false} DeliveriesWork(cbs: seq<Callback>, v: Status)
    ensures QueueWork(Deliveries(cbs, v)) == OwedWork(cbs)
  {
    if cbs != [] {
      DeliveriesWork(cbs[1..], v);
      assert Deliveries(cbs, v)[1..] == Deliveries(cbs[1..], v);
    }
  }

  lemma {:induction false} TriesWork(k: Job, i: nat, n: nat)
    requires i <= n
    ensures QueueWork(Tries(k, i, n)) == 7 * (n - i)
    decreases n - i
  {
    if i < n {
      TriesWork(k, i + 1, n);
      assert Tries(k, i, n)[1..] == Tries(k, i + 1, n);
    }
  }

  lemma {:induction false} OwedWorkAppend(cbs: seq<Callback>, cb: Callback)
    ensures OwedWork(cbs + [cb]) == OwedWork(cbs) + Answering(cb)
  {
    if cbs == [] {
      assert cbs + [cb] == [cb];
    } else {
      OwedWorkAppend(cbs[1..], cb);
      assert (cbs + [cb])[1..] == cbs[1..] + [cb];
    }
  }

  lemma {:induction false} FlowsWorkSplit(g: Graph, flows: map<Job, Flow>, keys: set<Job>, k: Job)
    requires keys <= flows.Keys && keys <= g.deps.Keys && k in keys
    ensures FlowsWork(g, flows, keys) == FlowWork(flows[k], k, |g.deps[k]|) + FlowsWork(g, flows, keys - {k})
    decreases |keys|
  {
    var x :| x in keys && FlowsWork(g, flows, keys) ==
                            FlowWork(flows[x], x, |g.deps[x]|) + FlowsWork(g, flows, keys - {x});
    if x != k {
      FlowsWorkSplit(g, flows, keys - {x}, k);
      FlowsWorkSplit(g, flows, keys - {k}, x);
      assert keys - {x} - {k} == keys - {k} - {x};
    }
  }

  lemma {:induction false} FlowsWorkSame(g: Graph, flows: map<Job, Flow>, flows': map<Job, Flow>, keys: set<Job>)
    requires keys <= flows.Keys && keys <= flows'.Keys && keys <= g.deps.Keys
    requires forall k :: k in keys ==> flows[k] == flows'[k]
    ensures FlowsWork(g, flows, keys) == FlowsWork(g, flows', keys)
    decreases |keys|
  {
    if keys != {} {
      var k :| k in keys;
      FlowsWorkSplit(g, flows, keys, k);
      FlowsWorkSplit(g, flows', keys, k);
      FlowsWorkSame(g, flows, flows', keys - {k});
    }
  }

  // ---- One step ----

  /** The step's own balance: the rewritten flow and the new tasks hold less work than the old
      flow and the task just done. */
  ghost predicate Spends(g: Graph, s: State, t: Task, e: Effect)
    requires e.job in s.flows && e.job in g.deps
  {
    FlowWork(e.flow, e.job, |g.deps[e.job]|) + QueueWork(e.spawned)
      < FlowWork(s.flows[e.job], e.job, |g.deps[e.job]|) + TaskWork(t)
  }

  lemma WorkDrops(g: Graph, s: State, i: nat, e: Effect)
    requires Fits(g, s) && i < |s.pending| && e.job in s.flows && Fits(g, Apply(s, i, e))
    requires Spends(g, s, s.pending[i], e)
    ensures Work(g, Apply(s, i, e)) < Work(g, s)
  {
    var s', keys := Apply(s, i, e), g.deps.Keys;
    QueueWorkStep(s.pending, i, e.spawned);
    FlowsWorkSplit(g, s.flows, keys, e.job);
    FlowsWorkSplit(g, s'.flows, keys, e.job);
    FlowsWorkSame(g, s.flows, s'.flows, keys - {e.job});
  }

  lemma QueueWorkOne(t: Task)
    ensures QueueWork([t]) == TaskWork(t)
  {
  }

  /** An effect that leaves the flow alone and replaces the task by at most one lighter one. */
  lemma QuietEffect(g: Graph, s: State, t: Task, e: Effect)
    requires e.job in s.flows && e.job in g.deps && e.flow == s.flows[e.job]
    requires e.spawned == [] || (|e.spawned| == 1 && TaskWork(e.spawned[0]) < TaskWork(t))
    ensures Spends(g, s, t, e)
  {
    if e.spawned != [] {
      assert e.spawned == [e.spawned[0]];
      QueueWorkOne(e.spawned[0]);
    }
    hide FlowWork;
  }

  /** Steps that leave the flow alone. */
  lemma QuietSpends(g: Graph, s: State, t: Task, c: Choice)
    requires Fits(g, s) && TaskFits(g, t)
    requires t.TryChild? || (t.Load? && c.ok)
    ensures var e := StepEffect(g, s, t, c); e.job in s.flows && e.job in g.deps && Spends(g, s, t, e)
  {
    hide Spends, FlowWork;
    QuietEffect(g, s, t, StepEffect(g, s, t, c));
  }

  lemma ReadSpends(g: Graph, s: State, t: Task, c: Choice)
    requires Fits(g, s) && TaskFits(g, t) && OnlyReads(g, s, t)
    ensures var e := StepEffect(g, s, t, c); e.job in s.flows && e.job in g.deps && Spends(g, s, t, e)
  {
    hide Spends, FlowWork;
    QuietEffect(g, s, t, StepEffect(g, s, t, c));
  }

  lemma QuietDeliver(g: Graph, s: State, t: Task, c: Choice)
    requires Fits(g, s) && TaskFits(g, t) && t.Deliver?
    requires t.callback == Caller || (t.callback.DependeeCallback? && t.verdict == SUCCEEDED)
    ensures var e := StepEffect(g, s, t, c); e.job in s.flows && e.job in g.deps && Spends(g, s, t, e)
  {
    hide Spends, FlowWork;
    QuietEffect(g, s, t, StepEffect(g, s, t, c));
  }

  /** Steps that complete everything an object has queued. */
  lemma FlushSpends(g: Graph, s: State, i: nat, e: Effect, n: Node, v: Status)
    requires Fits(g, s) && i < |s.pending| && Flushes(g, s, i, e, n, v)
    requires forall m :: g.IsNode(m) && m.job == e.job && m != n ==>
              NodeAt(e.flow, m).status == NodeAt(s.flows[e.job], m).status
    requires NodeAt(e.flow, n).status != READY
    ensures Spends(g, s, s.pending[i], e)
  {
    var f, f', k, deps := s.flows[e.job], e.flow, e.job, |g.deps[e.job]|;
    DeliveriesWork(CallbacksAt(f, n), v);
    NodeWorks(f, f', n, k, deps);
    assert g.IsNode(IndividualNode(k)) && (f.Multiple? ==> g.IsNode(ComposedNode(k)) && g.IsNode(GroupedNode(k)));
    assert TaskWork(s.pending[i]) >= 1;
  }

  /** The work of a flow, one object set apart. */
  lemma NodeWorks(f: Flow, f': Flow, n: Node, k: Job, deps: nat)
    requires (f.Single? <==> f'.Single?) && n.job == k && (f.Multiple? || n.IndividualNode?)
    requires forall m: Node :: m.job == k && (f.Multiple? || m.IndividualNode?) && m != n ==>
               OwedBy(f', m) == OwedBy(f, m) && NodeAt(f', m).status == NodeAt(f, m).status
    ensures FlowWork(f', k, deps) + NodeWork(f, n, deps) == FlowWork(f, k, deps) + NodeWork(f', n, deps)
  {
    assert IndividualNode(k).job == k;
    if f.Multiple? {
      assert ComposedNode(k).job == k && GroupedNode(k).job == k;
    }
  }

  lemma UpdateSpends(g: Graph, s: State, i: nat, e: Effect)
    requires Fits(g, s) && i < |s.pending| && Updates(g, s, i, e)
    ensures Spends(g, s, s.pending[i], e)
  {
    assert e.spawned[1..] == [];
    var st, st' := s.flows[e.job].group.status, e.flow.group.status;
    assert st' == READY ==> st == READY;
    assert OwedBy(e.flow, GroupedNode(e.job)) == OwedBy(s.flows[e.job], GroupedNode(e.job));
  }

  lemma SettledSpends(g: Graph, s: State, t: Task, e: Effect, o: Outcome)
    requires Settled(g, s, t, e, o) && Sane(s, t.target.job) && t.target.job in g.deps
    ensures e.job in s.flows && e.job in g.deps && Spends(g, s, t, e)
  {
    var n, k := t.target, t.target.job;
    SettledChange(g, s, t, e, o);
    var f, f' := s.flows[k], e.flow;
    forall m: Node | m.job == k && (f.Multiple? || m.IndividualNode?) && m != n
      ensures OwedBy(f', m) == OwedBy(f, m) && NodeAt(f', m).status == NodeAt(f, m).status
    {
      WithNodeSame(f, n, NodeAt(f', n), m);
    }
    NodeWorks(f, f', n, k, |g.deps[k]|);
    if o == Wait {
      OwedWorkAppend(NodeAt(f, n).callbacks, t.callback);
    } else {
      QueueWorkOne(Deliver(t.callback, o.verdict));
    }
  }

  lemma BeginTasksWork(g: Graph, n: Node, p: PropMap)
    requires n.job in g.deps
    ensures QueueWork(BeginTasks(g, n, p)) == ReadyWork(n, READY, |g.deps[n.job]|)
  {
    if n.GroupedNode? {
      TriesWork(n.job, 0, |g.deps[n.job]|);
    } else {
      QueueWorkOne(BeginTasks(g, n, p)[0]);
      assert BeginTasks(g, n, p) == [BeginTasks(g, n, p)[0]];
    }
  }

  lemma BeginSpends(g: Graph, s: State, t: Task, e: Effect)
    requires Begins(g, s, t, e)
    ensures e.job in s.flows && e.job in g.deps && Spends(g, s, t, e)
  {
    var n, k := t.target, t.target.job;
    BeginChange(g, s, t, e);
    var f, f' := s.flows[k], e.flow;
    forall m: Node | m.job == k && (f.Multiple? || m.IndividualNode?) && m != n
      ensures OwedBy(f', m) == OwedBy(f, m) && NodeAt(f', m).status == NodeAt(f, m).status
    {
      WithNodeSame(f, n, NodeAt(f', n), m);
    }
    NodeWorks(f, f', n, k, |g.deps[k]|);
    BeginTasksWork(g, n, t.props);
    assert OwedWork([t.callback]) == Answering(t.callback);
  }

  // ---- Every step of a run ----

  lemma EnterSpends(g: Graph, p: PropMap, s: State, i: nat, c: Choice)
    requires Inv(g, p, s) && i < |s.pending| && s.pending[i].Enter? && Fits(g, s) && TaskFits(g, s.pending[i])
    ensures var e := StepEffect(g, s, s.pending[i], c);
            e.job in s.flows && e.job in g.deps && Spends(g, s, s.pending[i], e)
  {
    var t := s.pending[i];
    var n := t.target;
    EntryParts(g, p, s, i);
    Accepted(g, s, p, t);
    SaneFlow(g, s, n.job);
    ReadyFresh(g, s, n);
    hide Inv, FlowOk, PropsAt, EnterOk, StepEffect, Spends;
    var o := EnterNode(KindOf(n), NodeAt(s.flows[n.job], n), t.props, t.callback).1;
    var e := StepEffect(g, s, t, c);
    EnteredEffect(g, s, i, c, o);
    if o == Begin {
      BeginEffect(g, s, t, e);
      BeginSpends(g, s, t, e);
    } else {
      SettledSpends(g, s, t, e, o);
    }
  }

  lemma EndJobSpends(g: Graph, s: State, i: nat, e: Effect, v: Status)
    requires Fits(g, s) && i < |s.pending| && Flushes(g, s, i, e, IndividualNode(e.job), v)
    requires e.job in s.flows && EndsJob(s.flows[e.job], e.flow, v)
    ensures e.job in g.deps && Spends(g, s, s.pending[i], e)
  {
    FlushSpends(g, s, i, e, IndividualNode(e.job), v);
  }

  lemma EndSpends(g: Graph, p: PropMap, s: State, i: nat, c: Choice)
    requires Inv(g, p, s) && i < |s.pending| && Fits(g, s) && TaskFits(g, s.pending[i])
    requires s.pending[i].Run? || (s.pending[i].Load? && !c.ok)
    ensures var e := StepEffect(g, s, s.pending[i], c);
            e.job in s.flows && e.job in g.deps && Spends(g, s, s.pending[i], e)
  {
    EndParts(g, p, s, i);
    EndEffect(g, s, i, c);
    hide Inv, FlowOk, StepEffect, Spends, ComposedAt, Flushes, EndsJob;
    var e := StepEffect(g, s, s.pending[i], c);
    EndJobSpends(g, s, i, e, e.flow.job.status);
  }

  lemma CasFlagSpends(g: Graph, s: State, i: nat, e: Effect, v: Status)
    requires Fits(g, s) && i < |s.pending| && e.job in s.flows && s.flows[e.job].Multiple?
    requires Flushes(g, s, i, e, GroupedNode(e.job), v)
    requires e.flow == s.flows[e.job].(group := s.flows[e.job].group.(notified := true))
    requires s.flows[e.job].group.status in {SUCCEEDED, FAILED}
    ensures e.job in g.deps && Spends(g, s, s.pending[i], e)
  {
    FlushSpends(g, s, i, e, GroupedNode(e.job), v);
  }

  lemma CasSpends(g: Graph, p: PropMap, s: State, i: nat, c: Choice)
    requires Inv(g, p, s) && i < |s.pending| && WinsFlag(g, s, s.pending[i])
    ensures var e := StepEffect(g, s, s.pending[i], c);
            e.job in s.flows && e.job in g.deps && Spends(g, s, s.pending[i], e)
  {
    PhaseParts(g, p, s, i);
    hide Inv, FlowOk, StepEffect, Spends, ComposedAt, NotifyOk, Flushes;
    CasEffect(g, s, i, c, |g.deps[s.pending[i].group]|);
    var e := StepEffect(g, s, s.pending[i], c);
    CasFlagSpends(g, s, i, e, s.flows[e.job].group.status);
  }

  lemma ComposedVerdictSpends(g: Graph, s: State, i: nat, e: Effect, v: Status)
    requires Fits(g, s) && i < |s.pending| && e.job in s.flows && s.flows[e.job].Multiple?
    requires Flushes(g, s, i, e, ComposedNode(e.job), v)
    requires e.flow == s.flows[e.job].(composed := s.flows[e.job].composed.(status := v))
    ensures e.job in g.deps && Spends(g, s, s.pending[i], e)
  {
    FlushSpends(g, s, i, e, ComposedNode(e.job), v);
  }

  lemma ComposedSpends(g: Graph, p: PropMap, s: State, i: nat, c: Choice)
    requires Inv(g, p, s) && i < |s.pending| && Fits(g, s) && TaskFits(g, s.pending[i]) && s.pending[i].Deliver?
    requires var t := s.pending[i];
             t.callback.DependerCallback? || (t.callback.DependeeCallback? && t.verdict == FAILED)
    ensures var e := StepEffect(g, s, s.pending[i], c);
            e.job in s.flows && e.job in g.deps && Spends(g, s, s.pending[i], e)
  {
    if s.pending[i].callback.DependerCallback? { DependerParts(g, p, s, i); } else { DependeeParts(g, p, s, i); }
    EndsEffect(g, s, i, c);
    hide Inv, FlowOk, StepEffect, Spends, ComposedAt, Flushes;
    var e := StepEffect(g, s, s.pending[i], c);
    EndsFlushes(g, s, i, e);
    hide EndsComposed;
    ComposedVerdictSpends(g, s, i, e, s.pending[i].verdict);
  }

  lemma DeliverSpends(g: Graph, p: PropMap, s: State, i: nat, c: Choice)
    requires Inv(g, p, s) && i < |s.pending| && Fits(g, s) && TaskFits(g, s.pending[i]) && s.pending[i].Deliver?
    ensures var e := StepEffect(g, s, s.pending[i], c);
            e.job in s.flows && e.job in g.deps && Spends(g, s, s.pending[i], e)
  {
    hide Inv, Shape, Spends, StepEffect;
    var t := s.pending[i];
    if t.callback.GroupCallback? {
      UpdateEffect(g, s, i, c);
      UpdateSpends(g, s, i, StepEffect(g, s, t, c));
    } else if t.callback.DependerCallback? || (t.callback.DependeeCallback? && t.verdict == FAILED) {
      ComposedSpends(g, p, s, i, c);
    } else {
      QuietDeliver(g, s, t, c);
    }
  }

  lemma AnySpends(g: Graph, p: PropMap, s: State, i: nat, c: Choice)
    requires Inv(g, p, s) && i < |s.pending| && Fits(g, s) && TaskFits(g, s.pending[i])
    ensures var e := StepEffect(g, s, s.pending[i], c);
            e.job in s.flows && e.job in g.deps && Spends(g, s, s.pending[i], e)
  {
    var t := s.pending[i];
    if IsPhase(t) { PhaseParts(g, p, s, i); }
    hide Inv, StepEffect, Spends, FlowOk, ComposedAt, NotifyOk;
    match t
    case Enter(_, _, _) => EnterSpends(g, p, s, i, c);
    case Load(_) => if c.ok { QuietSpends(g, s, t, c); } else { EndSpends(g, p, s, i, c); }
    case Run(_) => EndSpends(g, p, s, i, c);
    case Deliver(_, _) => DeliverSpends(g, p, s, i, c);
    case TryChild(_, _) => QuietSpends(g, s, t, c);
    case _ => if OnlyReads(g, s, t) { ReadSpends(g, s, t, c); } else { CasSpends(g, p, s, i, c); }
  }

  /** Each step of a run leaves strictly less work. */
  lemma {:induction false} StepSpends(g: Graph, p: PropMap, s: State, s': State)
    requires Inv(g, p, s) && Next(g, s, s')
    ensures Fits(g, s) && Fits(g, s') && Work(g, s') < Work(g, s)
  {
    var i: nat, c: Choice :| StepsTo(g, s, i, c, s');
    InvNext(g, p, s, s');
    InvShape(g, p, s);
    InvShape(g, p, s');
    hide Inv, StepEffect, Spends;
    AnySpends(g, p, s, i, c);
    WorkDrops(g, s, i, StepEffect(g, s, s.pending[i], c));
  }

  /** Every run ends: it has no more steps than the work it started with, on any graph. */
  lemma {:induction false} RunsAreFinite(g: Graph, p: PropMap, run: seq<State>, i: nat)
    requires RunOf(g, p, run) && i < |run|
    ensures Fits(g, run[0]) && Fits(g, run[i]) && Work(g, run[i]) + i <= Work(g, run[0])
  {
    hide RunOf, Inv, Work, Next, Fits;
    RunFits(g, p, run, i);
    RunFits(g, p, run, 0);
    if i > 0 {
      RunsAreFinite(g, p, run, i - 1);
      RunFits(g, p, run, i - 1);
      StepSpends(g, p, run[i - 1], run[i]);
    }
  }

  // ---- How runs grow ----

  lemma NonEmpty(g: Graph, p: PropMap, run: seq<State>)
    requires RunOf(g, p, run)
    ensures |run| > 0
  {
  }

  lemma RunGrows(g: Graph, p: PropMap, run: seq<State>, s': State)
    requires RunOf(g, p, run) && Next(g, run[|run| - 1], s')
    ensures RunOf(g, p, run + [s']) && (run + [s'])[0] == run[0] && (run + [s'])[|run|] == s'
  {
    hide Next, Startable, Launch;
    var longer := run + [s'];
    forall i | 0 <= i < |longer| - 1 ensures Next(g, longer[i], longer[i + 1]) {
      if i < |run| - 1 { assert Next(g, run[i], run[i + 1]); }
    }
  }

  lemma IsStep(g: Graph, s: State, i: nat, c: Choice)
    requires Fits(g, s) && i < |s.pending| && TaskFits(g, s.pending[i])
    ensures Next(g, s, Apply(s, i, StepEffect(g, s, s.pending[i], c)))
  {
    hide Fits, TaskFits, Apply, StepEffect;
    assert StepsTo(g, s, i, c, Apply(s, i, StepEffect(g, s, s.pending[i], c)));
  }

  lemma StartFits(g: Graph, p: PropMap, flows: map<Job, Flow>)
    requires Startable(g, p, flows)
    ensures RunOf(g, p, [Launch(g, flows, p)]) && Fits(g, Launch(g, flows, p))
  {
    LaunchShape(g, p, flows);
  }
}
