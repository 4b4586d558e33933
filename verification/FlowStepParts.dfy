/** The invariant after a step, reduced to what has to be shown about the one flow the step rewrites. */
module FlowStepParts {
  import opened FlowTypes
  import opened FlowSteps
  import opened FlowInvariant
  import opened FlowFrame

  /** The new tasks and log entries name existing objects, and queued callbacks are at home. */
  ghost predicate WellFormed(g: Graph, s: State, e: Effect)
    requires Fits(g, s)
  {
    && e.job in s.flows && !e.fault
    && (e.flow.Single? <==> s.flows[e.job].Single?)
    && (forall x :: x in e.spawned ==> TaskFits(g, x))
    && (forall cb :: cb in e.handed ==> g.IsCallback(cb))
    && (forall c :: c in e.completed ==> g.IsCallback(c.callback) && IsVerdict(c.verdict))
    && (forall n, cb {:trigger g.IsNode(n), g.IsCallback(cb)} ::
          g.IsNode(n) && n.job == e.job && cb in CallbacksAt(e.flow, n) ==> g.IsCallback(cb) && g.Home(cb) == n)
  }

  lemma ShapeStep(g: Graph, s: State, i: nat, e: Effect)
    requires Shape(g, s) && i < |s.pending| && WellFormed(g, s, e)
    ensures Shape(g, Apply(s, i, e))
  {
    var s' := Apply(s, i, e);
    QueueStep(s.pending, i, e.spawned);
    assert s'.flows.Keys == g.deps.Keys;
    forall n, cb | g.IsNode(n) && cb in CallbacksAt(s'.flows[n.job], n)
      ensures g.IsCallback(cb) && g.Home(cb) == n
    {
      if n.job != e.job {
        assert cb in CallbacksAt(s.flows[n.job], n);
      }
    }
  }

  /** Every verdict the step sends or logs is the status of its callback's home. */
  ghost predicate SpeaksTruth(g: Graph, s: State, s': State, e: Effect)
    requires Shape(g, s')
  {
    && (forall x :: x in e.spawned && x.Deliver? && g.IsCallback(x.callback) ==>
          Settles(StatusAt(s'.flows[g.Home(x.callback).job], g.Home(x.callback)), x.verdict))
    && (forall c :: c in e.completed ==> Deliver(c.callback, c.verdict) in s.pending)
  }

  lemma KeepsStatus(f: Flow, f': Flow, n: Node, v: Status)
    requires Forward(f, f') && (f.Multiple? || n.IndividualNode?)
    requires Settles(StatusAt(f, n), v)
    ensures Settles(StatusAt(f', n), v)
  {
  }

  ghost predicate TrueOf(g: Graph, s: State, cb: Callback, v: Status)
    requires Shape(g, s) && g.IsCallback(cb)
  {
    Settles(StatusAt(s.flows[g.Home(cb).job], g.Home(cb)), v)
  }

  lemma TruthStep(g: Graph, s: State, i: nat, e: Effect)
    requires Shape(g, s) && i < |s.pending| && e.job in s.flows && Shape(g, Apply(s, i, e))
    requires Truthful(g, s) && Forward(s.flows[e.job], e.flow)
    requires SpeaksTruth(g, s, Apply(s, i, e), e)
    ensures Truthful(g, Apply(s, i, e))
  {
    var s' := Apply(s, i, e);
    forall t | t in s'.pending && t.Deliver?
      ensures TrueOf(g, s', t.callback, t.verdict)
    {
      assert TaskFits(g, t);
      if t !in e.spawned {
        assert t in s.pending;
        TruthKept(g, s, s', t.callback, t.verdict);
      }
    }
    forall c | c in s'.completions
      ensures TrueOf(g, s', c.callback, c.verdict)
    {
      LoggedTruth(g, s, i, e, c);
    }
  }

  lemma LoggedTruth(g: Graph, s: State, i: nat, e: Effect, c: Completion)
    requires Shape(g, s) && i < |s.pending| && e.job in s.flows && Shape(g, Apply(s, i, e))
    requires Truthful(g, s) && Forward(s.flows[e.job], e.flow)
    requires forall c :: c in e.completed ==> Deliver(c.callback, c.verdict) in s.pending
    requires c in Apply(s, i, e).completions
    ensures g.IsCallback(c.callback) && TrueOf(g, Apply(s, i, e), c.callback, c.verdict)
  {
    assert c in s.completions || c in e.completed;
    if c !in s.completions {
      var t := Deliver(c.callback, c.verdict);
      assert t in s.pending && t.callback == c.callback;
      assert TaskFits(g, t);
    }
    TruthKept(g, s, Apply(s, i, e), c.callback, c.verdict);
  }

  lemma TruthKept(g: Graph, s: State, s': State, cb: Callback, v: Status)
    requires Shape(g, s) && Shape(g, s') && g.IsCallback(cb)
    requires forall d :: d in s.flows ==> s'.flows[d] == s.flows[d] || Forward(s.flows[d], s'.flows[d])
    requires TrueOf(g, s, cb, v)
    ensures TrueOf(g, s', cb, v)
  {
    var n := g.Home(cb);
    assert g.IsNode(n) && n.job in s.flows;
    if s'.flows[n.job] != s.flows[n.job] {
      KeepsStatus(s.flows[n.job], s'.flows[n.job], n, v);
    }
  }

  /** The rewritten flow holds the right props, and entries waiting for it or sent by it carry them. */
  ghost predicate CarriesProps(g: Graph, p: PropMap, s: State, i: nat, e: Effect)
    requires Shape(g, s) && i < |s.pending|
  {
    && PropsAt(e.flow, p)
    && (forall x :: x in Without(s.pending, i) && x.Enter? && x.target.job == e.job ==> EnterOk(e.flow, p, x))
    && (forall x :: x in e.spawned && x.Enter? && x.target.job == e.job ==> EnterOk(e.flow, p, x))
    && (forall x :: x in e.spawned && x.Enter? && x.target.job != e.job ==>
          !x.callback.DependerCallback? && x.props == p)
  }

  lemma EntryStep(g: Graph, p: PropMap, s: State, i: nat, e: Effect, t: Task)
    requires Shape(g, s) && i < |s.pending| && e.job in s.flows
    requires forall x :: x in s.pending && x.Enter? ==> EnterOk(s.flows[x.target.job], p, x)
    requires CarriesProps(g, p, s, i, e)
    requires t in Apply(s, i, e).pending && t.Enter? && t.target.job in s.flows
    ensures EnterOk(Apply(s, i, e).flows[t.target.job], p, t)
  {
    assert t in Without(s.pending, i) || t in e.spawned;
    if t.target.job != e.job && t in Without(s.pending, i) {
      assert t in s.pending;
    }
  }

  lemma PropsStep(g: Graph, p: PropMap, s: State, i: nat, e: Effect)
    requires Shape(g, s) && i < |s.pending| && e.job in s.flows && Shape(g, Apply(s, i, e))
    requires PropsOk(g, p, s) && CarriesProps(g, p, s, i, e)
    ensures PropsOk(g, p, Apply(s, i, e))
  {
    var s' := Apply(s, i, e);
    forall t | t in s'.pending && t.Enter?
      ensures EnterOk(s'.flows[t.target.job], p, t)
    {
      assert TaskFits(g, t);
      EntryStep(g, p, s, i, e, t);
    }
  }

  lemma RequestedStep(g: Graph, s: State, i: nat, e: Effect, d: Job)
    requires i < |s.pending| && Requested(g, s, d)
    ensures Requested(g, Apply(s, i, e), d)
  {
    var k, c: nat :| k in g.deps && c < |g.deps[k]| && g.deps[k][c] == d && s.handed[GroupCallback(k, c)] > 0;
    assert Apply(s, i, e).handed[GroupCallback(k, c)] > 0;
  }

  lemma RequestsStep(g: Graph, s: State, i: nat, e: Effect)
    requires Fits(g, s) && i < |s.pending| && e.job in s.flows && Fits(g, Apply(s, i, e))
    requires RequestsOk(g, s) && Caller !in e.handed
    requires e.flow.GetStatus() in {RUNNING, FAILED} ==> e.job == g.root || Requested(g, s, e.job)
    ensures RequestsOk(g, Apply(s, i, e))
  {
    var s' := Apply(s, i, e);
    forall d | d in s'.flows && s'.flows[d].GetStatus() in {RUNNING, FAILED}
      ensures d == g.root || Requested(g, s', d)
    {
      if d != g.root {
        RequestedStep(g, s, i, e, d);
      }
    }
  }

  /** Everything that has to be shown about a step, except that callbacks are conserved. */
  ghost predicate GoodStep(g: Graph, p: PropMap, s: State, i: nat, e: Effect)
    requires Shape(g, s) && i < |s.pending|
  {
    && WellFormed(g, s, e)
    && Shape(g, Apply(s, i, e))
    && LocalEffect(s.pending[i], e)
    && Forward(s.flows[e.job], e.flow)
    && SpeaksTruth(g, s, Apply(s, i, e), e)
    && CarriesProps(g, p, s, i, e)
    && Caller !in e.handed
    && (e.flow.GetStatus() in {RUNNING, FAILED} ==> e.job == g.root || Requested(g, s, e.job))
    && FlowOk(g, Apply(s, i, e), e.job)
  }

  lemma ForwardRefl(f: Flow)
    ensures Forward(f, f)
  {
  }

  // ---- Steps that leave the flow as it is ----

  lemma HomesKept(g: Graph, s: State, k: Job)
    requires Shape(g, s) && k in s.flows
    ensures forall n, cb {:trigger g.IsNode(n), g.IsCallback(cb)} ::
              g.IsNode(n) && n.job == k && cb in CallbacksAt(s.flows[k], n) ==> g.IsCallback(cb) && g.Home(cb) == n
  {
    forall n, cb | g.IsNode(n) && n.job == k && cb in CallbacksAt(s.flows[k], n)
      ensures g.IsCallback(cb) && g.Home(cb) == n
    {
      assert cb in CallbacksAt(s.flows[n.job], n);
    }
  }

  lemma EntriesKept(g: Graph, p: PropMap, s: State, i: nat, k: Job)
    requires Shape(g, s) && i < |s.pending| && k in s.flows && PropsOk(g, p, s)
    ensures forall x :: x in Without(s.pending, i) && x.Enter? && x.target.job == k ==> EnterOk(s.flows[k], p, x)
  {
    forall x | x in Without(s.pending, i) && x.Enter? && x.target.job == k
      ensures EnterOk(s.flows[k], p, x)
    {
      assert x in s.pending;
    }
  }

  /** The new tasks of a step that rewrites nothing: no verdicts, and entries that pass on the root's props. */
  ghost predicate Quiet(g: Graph, p: PropMap, s: State, i: nat, e: Effect)
    requires Fits(g, s) && i < |s.pending|
  {
    && e.job in s.flows && e.flow == s.flows[e.job] && !e.fault
    && (forall x :: x in e.spawned ==> TaskFits(g, x) && !x.Deliver?)
    && (forall cb :: cb in e.handed ==> g.IsCallback(cb) && cb != Caller)
    && e.completed == multiset{} && LocalEffect(s.pending[i], e)
    && (forall x :: x in e.spawned && x.Enter? ==> x.props == p && !x.callback.DependerCallback?)
  }

  lemma QuietShape(g: Graph, p: PropMap, s: State, i: nat, e: Effect)
    requires Shape(g, s) && i < |s.pending| && Quiet(g, p, s, i, e)
    ensures Shape(g, Apply(s, i, e))
  {
    HomesKept(g, s, e.job);
    ShapeStep(g, s, i, e);
  }

  lemma QuietTruth(g: Graph, p: PropMap, s: State, i: nat, e: Effect)
    requires Shape(g, s) && i < |s.pending| && Quiet(g, p, s, i, e) && Truthful(g, s)
    ensures Shape(g, Apply(s, i, e)) && Truthful(g, Apply(s, i, e))
  {
    QuietShape(g, p, s, i, e);
    ForwardRefl(s.flows[e.job]);
    TruthStep(g, s, i, e);
  }

  lemma QuietProps(g: Graph, p: PropMap, s: State, i: nat, e: Effect)
    requires Shape(g, s) && i < |s.pending| && Quiet(g, p, s, i, e) && PropsOk(g, p, s)
    ensures Shape(g, Apply(s, i, e)) && PropsOk(g, p, Apply(s, i, e))
  {
    QuietShape(g, p, s, i, e);
    EntriesKept(g, p, s, i, e.job);
    PropsStep(g, p, s, i, e);
  }

  lemma QuietRequests(g: Graph, p: PropMap, s: State, i: nat, e: Effect)
    requires Shape(g, s) && i < |s.pending| && Quiet(g, p, s, i, e) && RequestsOk(g, s)
    ensures Shape(g, Apply(s, i, e)) && RequestsOk(g, Apply(s, i, e))
  {
    QuietShape(g, p, s, i, e);
    RequestsStep(g, s, i, e);
  }

  lemma QuietFlows(g: Graph, p: PropMap, s: State, i: nat, e: Effect)
    requires Shape(g, s) && i < |s.pending| && Quiet(g, p, s, i, e)
    requires forall k {:trigger FlowOk(g, s, k)} :: k in s.flows ==> FlowOk(g, s, k)
    requires Fits(g, Apply(s, i, e)) && FlowOk(g, Apply(s, i, e), e.job)
    ensures forall k {:trigger FlowOk(g, Apply(s, i, e), k)} :: k in s.flows ==> FlowOk(g, Apply(s, i, e), k)
  {
    ForwardRefl(s.flows[e.job]);
    FlowsStep(g, s, i, e);
  }

  /** A step that rewrites nothing keeps the invariant once its own job's clauses are shown. */
  lemma QuietStep(g: Graph, p: PropMap, s: State, i: nat, e: Effect)
    requires Inv(g, p, s) && i < |s.pending| && Quiet(g, p, s, i, e)
    requires Shape(g, Apply(s, i, e)) && FlowOk(g, Apply(s, i, e), e.job) && Conserved(g, Apply(s, i, e))
    ensures Inv(g, p, Apply(s, i, e))
  {
    hide Shape, Quiet, FlowOk, Conserved, Truthful, PropsOk, RequestsOk;
    QuietTruth(g, p, s, i, e);
    QuietProps(g, p, s, i, e);
    QuietRequests(g, p, s, i, e);
    QuietFlows(g, p, s, i, e);
  }

  // ---- Steps that complete everything an object has queued ----

  /** The step gives object n a verdict and sends it to all the callbacks queued there. */
  ghost predicate Flushes(g: Graph, s: State, i: nat, e: Effect, n: Node, v: Status)
    requires Fits(g, s) && i < |s.pending|
  {
    && g.IsNode(n) && n.job == e.job && e.job in s.flows && !e.fault && IsVerdict(v)
    && (e.flow.Single? <==> s.flows[e.job].Single?)
    && (forall m :: g.IsNode(m) && m.job == e.job ==> CallbacksAt(e.flow, m) == CallbacksAt(s.flows[e.job], m))
    && OwedBy(s.flows[e.job], n) == CallbacksAt(s.flows[e.job], n) && OwedBy(e.flow, n) == []
    && (forall m :: g.IsNode(m) && m.job == e.job && m != n ==> OwedBy(e.flow, m) == OwedBy(s.flows[e.job], m))
    && StatusAt(e.flow, n) == v
    && e.spawned == Deliveries(CallbacksAt(s.flows[e.job], n), v)
    && e.handed == multiset{} && e.launched == multiset{}
    && IsVerdictLog(s.pending[i], e.completed) && About(s.pending[i], e.job)
    && (forall c :: c in e.completed ==> CallbackOf(c.callback, e.job))
  }

  lemma FlushedTask(g: Graph, s: State, i: nat, e: Effect, n: Node, v: Status, x: Task)
    requires Shape(g, s) && i < |s.pending| && Flushes(g, s, i, e, n, v) && x in e.spawned
    ensures x.Deliver? && g.IsCallback(x.callback) && g.Home(x.callback) == n && x.verdict == v
  {
    DeliveriesMember(CallbacksAt(s.flows[e.job], n), v, x);
  }

  lemma FlushShape(g: Graph, s: State, i: nat, e: Effect, n: Node, v: Status)
    requires Shape(g, s) && i < |s.pending| && Flushes(g, s, i, e, n, v)
    ensures WellFormed(g, s, e) && Shape(g, Apply(s, i, e)) && LocalEffect(s.pending[i], e)
  {
    forall x | x in e.spawned ensures x.Deliver? && TaskFits(g, x) {
      FlushedTask(g, s, i, e, n, v, x);
    }
    forall c | c in e.completed ensures g.IsCallback(c.callback) && IsVerdict(c.verdict) {
      assert TaskFits(g, s.pending[i]);
    }
    HomesKept(g, s, e.job);
    assert WellFormed(g, s, e);
    ShapeStep(g, s, i, e);
  }

  lemma FlushTruth(g: Graph, s: State, i: nat, e: Effect, n: Node, v: Status)
    requires Shape(g, s) && i < |s.pending| && Flushes(g, s, i, e, n, v) && Shape(g, Apply(s, i, e))
    ensures SpeaksTruth(g, s, Apply(s, i, e), e)
  {
    forall x | x in e.spawned && x.Deliver? && g.IsCallback(x.callback)
      ensures TrueOf(g, Apply(s, i, e), x.callback, x.verdict)
    {
      FlushedTask(g, s, i, e, n, v, x);
    }
    forall c | c in e.completed ensures Deliver(c.callback, c.verdict) in s.pending {
      assert s.pending[i] == Deliver(c.callback, c.verdict);
    }
  }

  lemma FlushConserved(g: Graph, s: State, i: nat, e: Effect, n: Node, v: Status)
    requires Shape(g, s) && Conserved(g, s) && i < |s.pending| && Flushes(g, s, i, e, n, v)
    requires Shape(g, Apply(s, i, e)) && !s.pending[i].Enter?
    ensures Conserved(g, Apply(s, i, e))
  {
    DeliveriesCarry(CallbacksAt(s.flows[e.job], n), v);
    hide Shape, Conserved;
    assert CarriedBy(s.pending[i]) == CompletedBy(s.pending[i]);
    ConservedStep(g, s, i, e, n);
  }

  lemma FlushProps(g: Graph, p: PropMap, s: State, i: nat, e: Effect, n: Node, v: Status)
    requires Shape(g, s) && i < |s.pending| && Flushes(g, s, i, e, n, v)
    requires PropsAt(e.flow, p)
    requires forall x :: x in Without(s.pending, i) && x.Enter? && x.target.job == e.job ==> EnterOk(e.flow, p, x)
    ensures CarriesProps(g, p, s, i, e)
  {
    forall x | x in e.spawned ensures x.Deliver? {
      FlushedTask(g, s, i, e, n, v, x);
    }
  }

  /** Such a step keeps the invariant once the rewritten flow's own clauses are shown. */
  lemma FlushStep(g: Graph, p: PropMap, s: State, i: nat, e: Effect, n: Node, v: Status)
    requires Inv(g, p, s) && i < |s.pending| && Flushes(g, s, i, e, n, v) && !s.pending[i].Enter?
    requires Forward(s.flows[e.job], e.flow) && PropsAt(e.flow, p)
    requires forall x :: x in Without(s.pending, i) && x.Enter? && x.target.job == e.job ==> EnterOk(e.flow, p, x)
    requires e.flow.GetStatus() in {RUNNING, FAILED} ==> e.job == g.root || Requested(g, s, e.job)
    requires Fits(g, Apply(s, i, e)) && FlowOk(g, Apply(s, i, e), e.job)
    ensures Inv(g, p, Apply(s, i, e))
  {
    hide Flushes, FlowOk, Conserved, Truthful, PropsOk, Forward, PropsAt, EnterOk, LocalEffect, WellFormed;
    FlushShape(g, s, i, e, n, v);
    FlushTruth(g, s, i, e, n, v);
    FlushConserved(g, s, i, e, n, v);
    FlushProps(g, p, s, i, e, n, v);
    FlushHands(g, s, i, e, n, v);
    InvStep(g, p, s, i, e);
  }

  lemma FlushHands(g: Graph, s: State, i: nat, e: Effect, n: Node, v: Status)
    requires Fits(g, s) && i < |s.pending| && Flushes(g, s, i, e, n, v)
    ensures e.handed == multiset{} && e.job in s.flows
  {
  }

  lemma FlowsStep(g: Graph, s: State, i: nat, e: Effect)
    requires Fits(g, s) && i < |s.pending| && e.job in s.flows && Fits(g, Apply(s, i, e))
    requires LocalEffect(s.pending[i], e) && Forward(s.flows[e.job], e.flow)
    requires forall k {:trigger FlowOk(g, s, k)} :: k in s.flows ==> FlowOk(g, s, k)
    requires FlowOk(g, Apply(s, i, e), e.job)
    ensures forall k {:trigger FlowOk(g, Apply(s, i, e), k)} :: k in s.flows ==> FlowOk(g, Apply(s, i, e), k)
  {
    var s' := Apply(s, i, e);
    forall d | d in s.flows ensures Forward(s.flows[d], s'.flows[d]) {
      if d != e.job { ForwardRefl(s.flows[d]); }
    }
    forall k | k in s.flows ensures FlowOk(g, s', k) {
      if k != e.job {
        OthersSame(s, i, e, k);
        FrameOther(g, s, s', k);
      }
    }
  }

  lemma InvStep(g: Graph, p: PropMap, s: State, i: nat, e: Effect)
    requires Inv(g, p, s) && i < |s.pending|
    requires GoodStep(g, p, s, i, e) && Conserved(g, Apply(s, i, e))
    ensures Inv(g, p, Apply(s, i, e))
  {
    TruthStep(g, s, i, e);
    PropsStep(g, p, s, i, e);
    RequestsStep(g, s, i, e);
    FlowsStep(g, s, i, e);
  }
}
