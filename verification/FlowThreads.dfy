/** Java threads with their call stacks. A stack runs its calls strictly in order, nested calls
    first; every run of such threads is a run of the unordered model, so all that is proved there
    holds for it. */
module FlowThreads {
  import opened FlowTypes
  import opened FlowSteps
  import opened FlowInvariant
  import opened FlowFrame
  import opened FlowRuns

  /** Each thread is the list of what it still has to do, innermost call first. */
  datatype Machine = Machine(
    flows: map<Job, Flow>,
    threads: seq<seq<Task>>,
    handed: multiset<Callback>,
    completions: multiset<Completion>,
    started: multiset<Job>,
    fault: bool)

  /** Loading a job starts its thread, and a job's end starts a callback thread; everything else
      is called directly. */
  predicate StartsThread(t: Task) {
    t.Load? || t.Run?
  }

  function Threads(threads: seq<seq<Task>>, x: nat, t: Task, spawned: seq<Task>): seq<seq<Task>>
    requires x < |threads| && threads[x] != []
  {
    if StartsThread(t) then threads[x := threads[x][1..]] + [spawned]
    else threads[x := spawned + threads[x][1..]]
  }

  ghost predicate ThreadStep(g: Graph, m: Machine, x: nat, c: Choice, m': Machine) {
    && x < |m.threads| && m.threads[x] != []
    && var s := Bag(m); var t := m.threads[x][0];
    && Fits(g, s) && TaskFits(g, t)
    && var e := StepEffect(g, s, t, c);
       m' == Machine(m.flows[e.job := e.flow], Threads(m.threads, x, t, e.spawned),
                     m.handed + e.handed, m.completions + e.completed, m.started + e.launched, m.fault || e.fault)
  }

  ghost predicate ThreadNext(g: Graph, m: Machine, m': Machine) {
    exists x: nat, c: Choice :: ThreadStep(g, m, x, c, m')
  }

  function Flatten(threads: seq<seq<Task>>): seq<Task> {
    if threads == [] then [] else threads[0] + Flatten(threads[1..])
  }

  /** The machine with its stacks thrown into one bag of tasks. */
  function Bag(m: Machine): State {
    State(m.flows, Flatten(m.threads), m.handed, m.completions, m.started, m.fault)
  }

  /** A state of the unordered model that stands for the machine. */
  ghost predicate Models(s: State, m: Machine) {
    && multiset(s.pending) == multiset(Flatten(m.threads))
    && s == Bag(m).(pending := s.pending)
  }

  lemma {:induction false} FlattenUpdate(threads: seq<seq<Task>>, x: nat, q: seq<Task>)
    requires x < |threads|
    ensures multiset(Flatten(threads[x := q])) + multiset(threads[x]) == multiset(Flatten(threads)) + multiset(q)
  {
    var rest, changed := threads[1..], threads[x := q];
    assert Flatten(threads) == threads[0] + Flatten(rest);
    if x == 0 {
      assert changed[1..] == rest && changed[0] == q;
      assert Flatten(changed) == q + Flatten(rest);
    } else {
      FlattenUpdate(rest, x - 1, q);
      assert changed[1..] == rest[x - 1 := q] && changed[0] == threads[0];
      assert Flatten(changed) == threads[0] + Flatten(rest[x - 1 := q]);
      assert threads[x] == rest[x - 1];
      assert multiset(Flatten(changed)) + multiset(rest[x - 1])
          == multiset(threads[0]) + (multiset(Flatten(rest[x - 1 := q])) + multiset(rest[x - 1]));
    }
  }

  lemma {:induction false} FlattenAppend(threads: seq<seq<Task>>, q: seq<Task>)
    ensures multiset(Flatten(threads + [q])) == multiset(Flatten(threads)) + multiset(q)
  {
    if threads == [] {
      assert threads + [q] == [q];
      assert Flatten([q]) == q + Flatten([q][1..]);
      assert [q][1..] == [];
    } else {
      FlattenAppend(threads[1..], q);
      assert (threads + [q])[1..] == threads[1..] + [q];
    }
  }

  lemma ThreadsBag(threads: seq<seq<Task>>, x: nat, t: Task, spawned: seq<Task>)
    requires x < |threads| && threads[x] != [] && t == threads[x][0]
    ensures multiset(Flatten(Threads(threads, x, t, spawned))) + multiset{t}
         == multiset(Flatten(threads)) + multiset(spawned)
  {
    var rest := threads[x][1..];
    assert threads[x] == [t] + rest;
    assert multiset(threads[x]) == multiset{t} + multiset(rest);
    var all := multiset(Flatten(threads));
    if StartsThread(t) {
      var left := threads[x := rest];
      FlattenUpdate(threads, x, rest);
      FlattenAppend(left, spawned);
      Rebalance(multiset(Flatten(left)), all, multiset{t}, multiset(rest), multiset(spawned));
    } else {
      FlattenUpdate(threads, x, spawned + rest);
      Rebalance'(multiset(Flatten(threads[x := spawned + rest])), all, multiset{t}, multiset(rest), multiset(spawned));
    }
  }

  lemma Rebalance(left: multiset<Task>, all: multiset<Task>, t: multiset<Task>, rest: multiset<Task>,
                  spawned: multiset<Task>)
    requires left + (t + rest) == all + rest
    ensures left + spawned + t == all + spawned
  {
    assert left + t == left + (t + rest) - rest;
    assert all == all + rest - rest;
  }

  lemma Rebalance'(left: multiset<Task>, all: multiset<Task>, t: multiset<Task>, rest: multiset<Task>,
                   spawned: multiset<Task>)
    requires left + (t + rest) == all + (spawned + rest)
    ensures left + t == all + spawned
  {
    assert left + t == left + (t + rest) - rest;
    assert all + spawned == all + (spawned + rest) - rest;
  }

  lemma {:induction false} FlattenMember(threads: seq<seq<Task>>, x: nat, t: Task)
    requires x < |threads| && t in threads[x]
    ensures t in Flatten(threads)
  {
    if x > 0 { FlattenMember(threads[1..], x - 1, t); }
  }

  /** Effects depend on the objects alone, not on the order of what is pending. */
  lemma EffectSame(g: Graph, s: State, s': State, t: Task, c: Choice)
    requires Fits(g, s) && TaskFits(g, t) && s' == s.(pending := s'.pending)
    ensures Fits(g, s') && StepEffect(g, s', t, c) == StepEffect(g, s, t, c)
  {
    hide EnterEffect, DeliverEffect, Deliveries, FinishJob;
    if t.Enter? {
      assert g.IsNode(t.target);
      EnterSame(g, s, s', t.target, t.props, t.callback);
    } else if t.Deliver? {
      DeliverSame(g, s, s', t.callback, t.verdict);
    }
  }

  lemma EnterSame(g: Graph, s: State, s': State, n: Node, p: PropMap, cb: Callback)
    requires Fits(g, s) && Fits(g, s') && g.IsNode(n) && s'.flows == s.flows
    ensures EnterEffect(g, s', n, p, cb) == EnterEffect(g, s, n, p, cb)
  {
    hide EnterNode, Tries, EnterOutcome;
  }

  lemma DeliverSame(g: Graph, s: State, s': State, cb: Callback, v: Status)
    requires Fits(g, s) && Fits(g, s') && g.IsCallback(cb) && s'.flows == s.flows
    ensures DeliverEffect(g, s', cb, v) == DeliverEffect(g, s, cb, v)
  {
    hide UpdateGroup, Deliveries;
  }

  lemma BagStep(m: Machine, m': Machine, s: State, i: nat, e: Effect, t: Task)
    requires i < |s.pending| && s.pending[i] == t && Models(s, m)
    requires m'.flows == m.flows[e.job := e.flow] && m'.handed == m.handed + e.handed
    requires m'.completions == m.completions + e.completed && m'.started == m.started + e.launched
    requires m'.fault == (m.fault || e.fault)
    requires multiset(Flatten(m'.threads)) + multiset{t} == multiset(Flatten(m.threads)) + multiset(e.spawned)
    ensures Models(Apply(s, i, e), m')
  {
    hide Without, Carried, Flatten;
    QueueStep(s.pending, i, e.spawned);
    Cancel(multiset(Without(s.pending, i) + e.spawned), multiset(Flatten(m'.threads)), t);
  }

  lemma Cancel(x: multiset<Task>, y: multiset<Task>, t: Task)
    requires x + multiset{t} == y + multiset{t}
    ensures x == y
  {
    assert x == x + multiset{t} - multiset{t};
    assert y == y + multiset{t} - multiset{t};
  }

  lemma PendingIndex(m: Machine, s: State, x: nat) returns (i: nat)
    requires Models(s, m) && x < |m.threads| && m.threads[x] != []
    ensures i < |s.pending| && s.pending[i] == m.threads[x][0]
  {
    var t := m.threads[x][0];
    FlattenMember(m.threads, x, t);
    assert t in multiset(s.pending);
    i :| i < |s.pending| && s.pending[i] == t;
  }

  /** Each step of a thread is a step of the unordered model. */
  lemma {:induction false} Simulates(g: Graph, m: Machine, m': Machine, s: State) returns (s': State)
    requires ThreadNext(g, m, m') && Models(s, m)
    ensures Next(g, s, s') && Models(s', m')
  {
    var x: nat, c: Choice :| ThreadStep(g, m, x, c, m');
    hide StepEffect, Fits, TaskFits, Apply, Threads;
    var t := m.threads[x][0];
    var e := StepEffect(g, Bag(m), t, c);
    EffectSame(g, Bag(m), s, t, c);
    ThreadsBag(m.threads, x, t, e.spawned);
    var i := PendingIndex(m, s, x);
    BagStep(m, m', s, i, e, t);
    s' := Apply(s, i, e);
    assert StepsTo(g, s, i, c, s');
  }

  /** The k outermost calls of a stack. */
  function Bottom(q: seq<Task>, k: nat): seq<Task>
    requires k <= |q|
  {
    q[|q| - k..]
  }

  lemma OuterStep(g: Graph, m: Machine, m': Machine, x: nat, k: nat)
    requires ThreadNext(g, m, m') && x < |m.threads| && k < |m.threads[x]|
    ensures x < |m'.threads| && k <= |m'.threads[x]|
    ensures Bottom(m'.threads[x], k) == Bottom(m.threads[x], k)
  {
    hide StepEffect, Fits, TaskFits;
    var y: nat, c: Choice :| ThreadStep(g, m, y, c, m');
    if x == y {
      var q, spawned := m.threads[x], StepEffect(g, Bag(m), m.threads[x][0], c).spawned;
      var rest := q[1..];
      assert rest[|rest| - k..] == q[|q| - k..];
      if !StartsThread(q[0]) { assert (spawned + rest)[|spawned| + |rest| - k..] == rest[|rest| - k..]; }
    }
  }

  ghost predicate IsThreadRun(g: Graph, run: seq<Machine>) {
    && run != []
    && forall i, j {:trigger run[i], run[j]} :: 0 <= i < j == i + 1 < |run| ==> ThreadNext(g, run[i], run[j])
  }

  /** One thread calls root.execute(p, caller). */
  function LaunchThread(g: Graph, flows: map<Job, Flow>, p: PropMap): Machine
    requires g.root in g.deps
  {
    Machine(flows, [[Enter(g.Front(g.root), p, Caller)]], multiset{Caller}, multiset{}, multiset{}, false)
  }

  ghost predicate ThreadRunOf(g: Graph, p: PropMap, run: seq<Machine>) {
    && IsThreadRun(g, run) && Startable(g, p, run[0].flows) && run[0] == LaunchThread(g, run[0].flows, p)
  }

  lemma LaunchModels(g: Graph, p: PropMap, run: seq<Machine>)
    requires ThreadRunOf(g, p, run)
    ensures g.root in g.deps && Models(Launch(g, run[0].flows, p), run[0])
  {
    assert run[0].threads[1..] == [];
    assert Flatten(run[0].threads) == run[0].threads[0] + [];
  }

  /** Whatever a thread does, the calls at the bottom of its stack wait until everything above them is done. */
  lemma {:induction false} OuterCallsWait(g: Graph, p: PropMap, run: seq<Machine>, i: nat, n: nat, x: nat, k: nat)
    requires ThreadRunOf(g, p, run) && i <= n < |run| && x < |run[i].threads| && k <= |run[i].threads[x]|
    requires forall m :: i <= m < n ==> x < |run[m].threads| && k < |run[m].threads[x]|
    ensures x < |run[n].threads| && k <= |run[n].threads[x]|
    ensures Bottom(run[n].threads[x], k) == Bottom(run[i].threads[x], k)
    decreases n
  {
    hide ThreadRunOf, ThreadNext, Bottom;
    if i < n {
      OuterCallsWait(g, p, run, i, n - 1, x, k);
      ThreadSteps(g, p, run, n);
      OuterStep(g, run[n - 1], run[n], x, k);
    }
  }

  lemma ThreadSteps(g: Graph, p: PropMap, run: seq<Machine>, n: nat)
    requires ThreadRunOf(g, p, run) && 0 < n < |run|
    ensures ThreadNext(g, run[n - 1], run[n])
  {
    hide ThreadNext, Startable;
    assert ThreadNext(g, run[n - 1], run[n - 1 + 1]);
  }

  /** The run of the unordered model up to state n. */
  ghost predicate Prefix(g: Graph, p: PropMap, run: seq<Machine>, n: nat, bags: seq<State>)
    requires n < |run| && g.root in g.deps
  {
    && |bags| == n + 1 && IsRun(g, bags) && bags[0] == Launch(g, run[0].flows, p)
    && forall i :: 0 <= i <= n ==> Models(bags[i], run[i])
  }

  lemma PrefixGrows(g: Graph, p: PropMap, run: seq<Machine>, n: nat, bags: seq<State>, s': State)
    requires 0 < n < |run| && g.root in g.deps && Prefix(g, p, run, n - 1, bags)
    requires Next(g, bags[n - 1], s') && Models(s', run[n])
    ensures Prefix(g, p, run, n, bags + [s'])
  {
    hide Next, Models;
    LongerRun(g, bags, s');
  }

  lemma {:induction false} PrefixRun(g: Graph, p: PropMap, run: seq<Machine>, n: nat) returns (bags: seq<State>)
    requires ThreadRunOf(g, p, run) && n < |run|
    ensures g.root in g.deps && Prefix(g, p, run, n, bags)
  {
    LaunchModels(g, p, run);
    if n == 0 {
      bags := [Launch(g, run[0].flows, p)];
    } else {
      hide ThreadRunOf, ThreadNext, Models, Next;
      bags := PrefixRun(g, p, run, n - 1);
      ThreadSteps(g, p, run, n);
      var s' := Simulates(g, run[n - 1], run[n], bags[n - 1]);
      PrefixGrows(g, p, run, n, bags, s');
      bags := bags + [s'];
    }
  }

  lemma LongerRun(g: Graph, run: seq<State>, s: State)
    requires IsRun(g, run) && Next(g, run[|run| - 1], s)
    ensures IsRun(g, run + [s])
  {
    hide Next;
    var longer := run + [s];
    forall i | 0 <= i < |longer| - 1 ensures Next(g, longer[i], longer[i + 1]) {
      if i < |run| - 1 { assert Next(g, run[i], run[i + 1]); }
    }
  }

  /** Every run of threads is matched, state by state, by a run of the unordered model with the
      same objects and the same logs. */
  lemma {:induction false} ThreadRunsAreRuns(g: Graph, p: PropMap, run: seq<Machine>) returns (bags: seq<State>)
    requires ThreadRunOf(g, p, run)
    ensures RunOf(g, p, bags) && |bags| == |run|
    ensures forall i :: 0 <= i < |run| ==> Models(bags[i], run[i])
  {
    bags := PrefixRun(g, p, run, |run| - 1);
  }
}
