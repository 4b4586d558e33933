/** What a single step leaves alone: facts about task queues, and the clauses of other jobs. */
module FlowFrame {
  import opened FlowTypes
  import opened FlowSteps
  import opened FlowInvariant

  // ---- Queues ----

  lemma {:induction false} CarriedConcat(a: seq<Task>, b: seq<Task>)
    ensures Carried(a + b) == Carried(a) + Carried(b)
  {
    if a == [] {
      assert a + b == b;
    } else {
      hide CarriedBy;
      var rest := a[1..] + b;
      assert (a + b)[0] == a[0] && (a + b)[1..] == rest;
      CarriedConcat(a[1..], b);
      assert Carried(a + b) == CarriedBy(a[0]) + Carried(rest);
      assert Carried(a) == CarriedBy(a[0]) + Carried(a[1..]);
    }
  }

  lemma QueueStep(q: seq<Task>, i: nat, added: seq<Task>)
    requires i < |q|
    ensures Carried(Without(q, i) + added) + CarriedBy(q[i]) == Carried(q) + Carried(added)
    ensures multiset(Without(q, i) + added) + multiset{q[i]} == multiset(q) + multiset(added)
    ensures forall t :: t in Without(q, i) + added <==> t in Without(q, i) || t in added
    ensures forall t :: t in Without(q, i) ==> t in q
    ensures forall t :: t in q && t != q[i] ==> t in Without(q, i)
  {
    var w := Without(q, i);
    assert q == q[..i] + ([q[i]] + q[i + 1..]);
    CarriedConcat(q[..i], [q[i]] + q[i + 1..]);
    CarriedConcat([q[i]], q[i + 1..]);
    assert Carried([q[i]]) == CarriedBy(q[i]);
    CarriedConcat(q[..i], q[i + 1..]);
    CarriedConcat(w, added);
  }

  lemma {:induction false} CarriedMember(q: seq<Task>, t: Task, cb: Callback)
    requires t in q && cb in CarriedBy(t)
    ensures Carried(q)[cb] > 0
  {
    if q[0] != t { CarriedMember(q[1..], t, cb); }
  }

  lemma CarriedOne(t: Task)
    ensures Carried([t]) == CarriedBy(t)
  {
    hide CarriedBy;
    assert [t][0] == t && [t][1..] == [] && Carried([t][1..]) == multiset{};
  }

  lemma DeliveriesHead(cbs: seq<Callback>, v: Status)
    requires cbs != []
    ensures Deliveries(cbs, v) == [Deliver(cbs[0], v)] + Deliveries(cbs[1..], v)
  {
  }

  lemma {:induction false} DeliveriesCarry(cbs: seq<Callback>, v: Status)
    ensures Carried(Deliveries(cbs, v)) == multiset(cbs)
  {
    if cbs != [] {
      var t := Deliver(cbs[0], v);
      assert CarriedBy(t) == multiset{cbs[0]};
      DeliveriesHead(cbs, v);
      hide Carried, CarriedBy, Deliveries;
      DeliveriesCarry(cbs[1..], v);
      CarriedOne(t);
      CarriedConcat([t], Deliveries(cbs[1..], v));
      assert cbs == [cbs[0]] + cbs[1..];
    }
  }

  lemma {:induction false} DeliveriesMember(cbs: seq<Callback>, v: Status, t: Task)
    requires t in Deliveries(cbs, v)
    ensures t.Deliver? && t.callback in cbs && t.verdict == v
  {
    if t != Deliver(cbs[0], v) {
      DeliveriesMember(cbs[1..], v, t);
    }
  }

  /** callCallbacks tells every callback of the list the verdict, in the order of the list. */
  lemma {:induction false} DeliveriesInOrder(cbs: seq<Callback>, v: Status)
    ensures |Deliveries(cbs, v)| == |cbs| && forall i :: 0 <= i < |cbs| ==> Deliveries(cbs, v)[i] == Deliver(cbs[i], v)
  {
    if cbs != [] { DeliveriesInOrder(cbs[1..], v); }
  }

  /** The group's loop turns to its children in order. */
  lemma {:induction false} TriesInOrder(k: Job, i: nat, n: nat)
    requires i <= n
    ensures |Tries(k, i, n)| == n - i && forall x :: 0 <= x < n - i ==> Tries(k, i, n)[x] == TryChild(k, i + x)
    decreases n - i
  {
    if i < n { TriesInOrder(k, i + 1, n); }
  }

  lemma {:induction false} TriesCarry(k: Job, i: nat, n: nat)
    requires i <= n
    ensures Carried(Tries(k, i, n)) == multiset{}
    decreases n - i
  {
    if i < n {
      TriesCarry(k, i + 1, n);
      assert Tries(k, i, n)[1..] == Tries(k, i + 1, n);
    }
  }

  lemma {:induction false} TriesMember(k: Job, i: nat, n: nat, t: Task)
    requires i <= n && t in Tries(k, i, n)
    ensures t.TryChild? && t.group == k && i <= t.child < n
    decreases n - i
  {
    if t != TryChild(k, i) { TriesMember(k, i + 1, n, t); }
  }

  lemma {:induction false} TriesOnce(k: Job, i: nat, n: nat, j: nat)
    requires i <= j < n
    ensures multiset(Tries(k, i, n))[TryChild(k, j)] == 1
    decreases n - i
  {
    var rest := Tries(k, i + 1, n);
    assert Tries(k, i, n) == [TryChild(k, i)] + rest;
    if i == j {
      if TryChild(k, j) in rest { TriesMember(k, i + 1, n, TryChild(k, j)); }
    } else {
      TriesOnce(k, i + 1, n, j);
    }
  }

  // ---- Conservation ----

  function CompletedBy(t: Task): multiset<Callback> {
    match t
    case Deliver(cb, _) => multiset{cb}
    case _ => multiset{}
  }

  /** A step that moves callbacks between its task, the queue of one object n, the new tasks and
      the log keeps the books balanced. */
  lemma ConservedStep(g: Graph, s: State, i: nat, e: Effect, n: Node)
    requires Shape(g, s) && Conserved(g, s) && i < |s.pending|
    requires Shape(g, Apply(s, i, e)) && g.IsNode(n)
    requires IsVerdictLog(s.pending[i], e.completed)
    requires forall m :: g.IsNode(m) && m != n ==>
               OwedBy(Apply(s, i, e).flows[m.job], m) == OwedBy(s.flows[m.job], m)
    requires CarriedBy(s.pending[i]) + multiset(OwedBy(s.flows[n.job], n)) + e.handed
             == Carried(e.spawned) + multiset(OwedBy(Apply(s, i, e).flows[n.job], n)) + CompletedBy(s.pending[i])
    ensures Conserved(g, Apply(s, i, e))
  {
    var s' := Apply(s, i, e);
    forall cb | g.IsCallback(cb)
      ensures s'.handed[cb] == Carried(s'.pending)[cb] + Owed(g, s', cb) + Answered(s', cb)
    {
      AnsweredStep(s, i, e, cb);
      CarriedStep(s, i, e, cb);
      OwedStep(g, s, s', n, cb);
      var m0, m1 := multiset(OwedBy(s.flows[n.job], n)), multiset(OwedBy(s'.flows[n.job], n));
      SumAt(CarriedBy(s.pending[i]), m0, e.handed, Carried(e.spawned), m1, CompletedBy(s.pending[i]), cb);
    }
  }

  lemma SumAt(a: multiset<Callback>, b: multiset<Callback>, c: multiset<Callback>,
              x: multiset<Callback>, y: multiset<Callback>, z: multiset<Callback>, cb: Callback)
    requires a + b + c == x + y + z
    ensures a[cb] + b[cb] + c[cb] == x[cb] + y[cb] + z[cb]
  {
    assert (a + b + c)[cb] == (x + y + z)[cb];
  }

  lemma AnsweredStep(s: State, i: nat, e: Effect, cb: Callback)
    requires i < |s.pending| && IsVerdictLog(s.pending[i], e.completed)
    ensures Answered(Apply(s, i, e), cb) == Answered(s, cb) + CompletedBy(s.pending[i])[cb]
  {
    var log := Apply(s, i, e).completions;
    assert log == s.completions + e.completed;
    assert log[Completion(cb, SUCCEEDED)]
        == s.completions[Completion(cb, SUCCEEDED)] + e.completed[Completion(cb, SUCCEEDED)];
    assert log[Completion(cb, FAILED)] == s.completions[Completion(cb, FAILED)] + e.completed[Completion(cb, FAILED)];
  }

  lemma CarriedStep(s: State, i: nat, e: Effect, cb: Callback)
    requires i < |s.pending|
    ensures Carried(Apply(s, i, e).pending)[cb] + CarriedBy(s.pending[i])[cb]
         == Carried(s.pending)[cb] + Carried(e.spawned)[cb]
  {
    QueueStep(s.pending, i, e.spawned);
    assert (Carried(Apply(s, i, e).pending) + CarriedBy(s.pending[i]))[cb]
        == (Carried(s.pending) + Carried(e.spawned))[cb];
  }

  lemma OwedStep(g: Graph, s: State, s': State, n: Node, cb: Callback)
    requires Shape(g, s) && Shape(g, s') && g.IsNode(n) && g.IsCallback(cb)
    requires forall m :: g.IsNode(m) && m != n ==> OwedBy(s'.flows[m.job], m) == OwedBy(s.flows[m.job], m)
    ensures Owed(g, s', cb) + multiset(OwedBy(s.flows[n.job], n))[cb]
         == Owed(g, s, cb) + multiset(OwedBy(s'.flows[n.job], n))[cb]
  {
    assert g.IsNode(g.Home(cb));
    if g.Home(cb) != n {
      OwedHome(g, s, n, cb);
      OwedHome(g, s', n, cb);
    }
  }

  ghost predicate IsVerdictLog(t: Task, log: multiset<Completion>) {
    match t
    case Deliver(cb, v) => IsVerdict(v) && log == multiset{Completion(cb, v)}
    case _ => log == multiset{}
  }

  lemma OwedHome(g: Graph, s: State, n: Node, cb: Callback)
    requires Shape(g, s) && g.IsNode(n) && g.IsCallback(cb) && g.Home(cb) != n
    ensures cb !in OwedBy(s.flows[n.job], n)
  {
    assert forall x :: x in OwedBy(s.flows[n.job], n) ==> x in CallbacksAt(s.flows[n.job], n);
  }

  // ---- Flows only move forward ----

  ghost predicate Keeps(st: Status, st': Status) {
    (IsDone(st) ==> IsDone(st')) && (st == FAILED ==> st' == FAILED)
  }

  /** Verdicts are final, and so is the output of a flow that is done. */
  ghost predicate Forward(f: Flow, f': Flow) {
    && (f.Single? <==> f'.Single?)
    && Keeps(f.job.status, f'.job.status)
    && (f.Multiple? ==>
          Keeps(f.composed.status, f'.composed.status) && Keeps(f.group.status, f'.group.status))
    && (IsDone(f.GetStatus()) ==> f.Output() == f'.Output())
  }

  lemma {:induction false} MergeSame(flows: map<Job, Flow>, flows': map<Job, Flow>, ds: seq<Job>)
    requires forall d :: d in ds ==> d in flows && d in flows' && flows[d].Output() == flows'[d].Output()
    ensures Merge(flows, ds) == Merge(flows', ds)
  {
    if ds != [] { MergeSame(flows, flows', ds[..|ds| - 1]); }
  }

  // ---- Other jobs ----

  /** The job whose bookkeeping a task, or a callback, belongs to. */
  ghost predicate About(t: Task, k: Job) {
    match t
    case Enter(_, _, _) => true
    case Deliver(_, _) => true
    case Load(j) => j == k
    case Run(j) => j == k
    case _ => t.group == k
  }

  ghost predicate CallbackOf(cb: Callback, k: Job) {
    match cb
    case Caller => true
    case GroupCallback(j, _) => j == k
    case DependeeCallback(j) => j == k
    case DependerCallback(j) => j == k
  }

  /** The effect touches the bookkeeping of its own job only. */
  ghost predicate LocalEffect(t: Task, e: Effect) {
    && About(t, e.job)
    && (forall x :: x in e.spawned ==> About(x, e.job))
    && (forall cb :: cb in e.handed ==> CallbackOf(cb, e.job))
    && (forall c :: c in e.completed ==> CallbackOf(c.callback, e.job))
    && (forall j :: j in e.launched ==> j == e.job)
  }

  lemma CountOthers(s: State, i: nat, e: Effect, x: Task, k: Job)
    requires i < |s.pending| && LocalEffect(s.pending[i], e)
    requires !About(x, e.job)
    ensures multiset(Apply(s, i, e).pending)[x] == multiset(s.pending)[x]
    ensures x in Apply(s, i, e).pending <==> x in s.pending
  {
    QueueStep(s.pending, i, e.spawned);
    var m := multiset(Apply(s, i, e).pending);
    assert (m + multiset{s.pending[i]})[x] == (multiset(s.pending) + multiset(e.spawned))[x];
    assert x !in multiset(e.spawned);
    assert x in m <==> x in multiset(s.pending);
  }

  /** A group keeps its clause while its own fields and its callbacks' completions stay the same. */
  lemma FrameGroup(g: Graph, s: State, s': State, k: Job)
    requires Fits(g, s) && Fits(g, s') && k in s.flows && s.flows[k].Multiple?
    requires forall d :: d in s.flows ==> Forward(s.flows[d], s'.flows[d])
    requires GroupOk(g, s, k)
    requires s'.flows[k].group.status == s.flows[k].group.status
    requires s'.flows[k].group.returnProps == s.flows[k].group.returnProps
    requires forall c: nat :: c < |g.deps[k]| ==>
               Answered(s', GroupCallback(k, c)) == Answered(s, GroupCallback(k, c))
    ensures GroupOk(g, s', k)
  {
    var ds, st := g.deps[k], s.flows[k].group.status;
    forall c | 0 <= c < |ds| ensures Forward(s.flows[ds[c]], s'.flows[ds[c]]) {
      assert ds[c] in s.flows;
    }
    if st == SUCCEEDED {
      MergeSame(s.flows, s'.flows, ds);
    } else if st == FAILED {
      var c :| 0 <= c < |ds| && s.flows[ds[c]].GetStatus() == FAILED;
      assert s'.flows[ds[c]].GetStatus() == FAILED;
    } else if st == RUNNING {
      var c: nat :| c < |ds| && Answered(s, GroupCallback(k, c)) == 0;
      assert Answered(s', GroupCallback(k, c)) == 0;
    }
  }

  lemma FrameNotify(s: State, s': State, k: Job, n: nat)
    requires k in s.flows && k in s'.flows && s.flows[k].Multiple? && s'.flows[k].Multiple?
    requires s.flows[k].group.status == s'.flows[k].group.status
    requires s.flows[k].group.notified == s'.flows[k].group.notified
    requires forall c: nat, v :: LeadsToNotify(s.pending, k, c, v) ==> LeadsToNotify(s'.pending, k, c, v)
    requires forall c: nat :: CasSucceeded(k, c) in s'.pending ==> CasSucceeded(k, c) in s.pending
    requires forall c: nat :: CasFailed(k, c) in s'.pending ==> CasFailed(k, c) in s.pending
    requires NotifyOk(s, k, n)
    ensures NotifyOk(s', k, n)
  {
    var gr := s.flows[k].group;
    if gr.status in {SUCCEEDED, FAILED} && !gr.notified {
      var c: nat :| c < n && LeadsToNotify(s.pending, k, c, gr.status);
      assert LeadsToNotify(s'.pending, k, c, gr.status);
    }
  }

  /** What a step of another job leaves unchanged for job k. */
  ghost predicate SameFor(s: State, s': State, k: Job) {
    && (forall x: Task :: !(x.Enter? || x.Deliver?) && About(x, k) ==>
          multiset(s'.pending)[x] == multiset(s.pending)[x] && (x in s'.pending <==> x in s.pending))
    && (forall cb: Callback :: cb != Caller && CallbackOf(cb, k) ==> s'.handed[cb] == s.handed[cb])
    && (forall c: Completion :: c.callback != Caller && CallbackOf(c.callback, k) ==>
         s'.completions[c] == s.completions[c])
    && s'.started[k] == s.started[k]
  }

  lemma OthersSame(s: State, i: nat, e: Effect, k: Job)
    requires i < |s.pending| && LocalEffect(s.pending[i], e) && k != e.job
    ensures SameFor(s, Apply(s, i, e), k)
  {
    var s' := Apply(s, i, e);
    forall x: Task | !(x.Enter? || x.Deliver?) && About(x, k)
      ensures multiset(s'.pending)[x] == multiset(s.pending)[x] && (x in s'.pending <==> x in s.pending)
    {
      CountOthers(s, i, e, x, k);
    }
  }

  lemma FrameTries(s: State, s': State, k: Job, n: nat)
    requires k in s.flows && k in s'.flows && s.flows[k] == s'.flows[k] && s.flows[k].Multiple?
    requires SameFor(s, s', k) && TriesOk(s, k, n)
    ensures TriesOk(s', k, n)
  {
    forall i: nat | i < n
      ensures s'.handed[GroupCallback(k, i)] + TriesLeft(s', k, i)
           == s.handed[GroupCallback(k, i)] + TriesLeft(s, k, i)
    {
      assert About(TryChild(k, i), k) && CallbackOf(GroupCallback(k, i), k);
    }
  }

  lemma FrameJob(s: State, s': State, k: Job)
    requires k in s.flows && k in s'.flows && s.flows[k] == s'.flows[k]
    requires SameFor(s, s', k) && JobOk(s, k)
    ensures JobOk(s', k)
  {
    assert About(Load(k), k) && About(Run(k), k);
  }

  lemma FrameComposed(s: State, s': State, k: Job)
    requires k in s.flows && k in s'.flows && s.flows[k] == s'.flows[k] && s.flows[k].Multiple?
    requires SameFor(s, s', k) && ComposedAt(s, k)
    ensures ComposedAt(s', k)
  {
    assert CallbackOf(DependeeCallback(k), k) && CallbackOf(DependerCallback(k), k);
    assert Completion(DependeeCallback(k), SUCCEEDED).callback == DependeeCallback(k);
    assert Completion(DependeeCallback(k), FAILED).callback == DependeeCallback(k);
    assert Completion(DependerCallback(k), SUCCEEDED).callback == DependerCallback(k);
    assert Completion(DependerCallback(k), FAILED).callback == DependerCallback(k);
  }

  lemma FrameOther(g: Graph, s: State, s': State, k: Job)
    requires Fits(g, s) && Fits(g, s') && k in s.flows && s'.flows[k] == s.flows[k]
    requires forall d :: d in s.flows ==> Forward(s.flows[d], s'.flows[d])
    requires SameFor(s, s', k)
    requires FlowOk(g, s, k)
    ensures FlowOk(g, s', k)
  {
    FrameJob(s, s', k);
    if s.flows[k].Multiple? {
      var n := |g.deps[k]|;
      FrameComposed(s, s', k);
      FrameTries(s, s', k, n);
      forall c: nat
        ensures Answered(s', GroupCallback(k, c)) == Answered(s, GroupCallback(k, c))
      {
        assert Completion(GroupCallback(k, c), SUCCEEDED).callback == GroupCallback(k, c);
        assert Completion(GroupCallback(k, c), FAILED).callback == GroupCallback(k, c);
        assert CallbackOf(GroupCallback(k, c), k);
      }
      FrameGroup(g, s, s', k);
      NotifySame(s, s', k);
      FrameNotify(s, s', k, n);
    }
  }

  lemma NotifySame(s: State, s': State, k: Job)
    requires SameFor(s, s', k)
    ensures forall c: nat, v :: LeadsToNotify(s.pending, k, c, v) ==> LeadsToNotify(s'.pending, k, c, v)
    ensures forall c: nat :: CasSucceeded(k, c) in s'.pending ==> CasSucceeded(k, c) in s.pending
    ensures forall c: nat :: CasFailed(k, c) in s'.pending ==> CasFailed(k, c) in s.pending
  {
    forall c: nat
      ensures ReadFirst(k, c) in s'.pending <==> ReadFirst(k, c) in s.pending
      ensures ReadSecond(k, c) in s'.pending <==> ReadSecond(k, c) in s.pending
      ensures CasSucceeded(k, c) in s'.pending <==> CasSucceeded(k, c) in s.pending
      ensures CasFailed(k, c) in s'.pending <==> CasFailed(k, c) in s.pending
    {
      assert About(ReadFirst(k, c), k) && About(ReadSecond(k, c), k);
      assert About(CasSucceeded(k, c), k) && About(CasFailed(k, c), k);
    }
  }
}
