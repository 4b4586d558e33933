/** Runs of threads that exist: choosing which thread goes on, step by step. A run of threads is built
    together with the run of the unordered model that matches it, and no thread goes on before the one
    that went before it has nothing left to do, so that none ever finds a monitor held by another. */
module FlowSchedules {
  import opened FlowTypes
  import opened FlowSteps
  import opened FlowInvariant
  import opened FlowRuns
  import opened FlowThreads
  import opened FlowTermination

  /** A job's own thread has nothing else on its stack. */
  ghost predicate RunsAlone(threads: seq<seq<Task>>) {
    forall x, t: Task {:trigger t in threads[x]} :: 0 <= x < |threads| && t in threads[x] && t.Run? ==>
        |threads[x]| == 1
  }

  /** The thread has nothing left to do. */
  ghost predicate Through(m: Machine, x: nat) {
    x < |m.threads| && m.threads[x] == []
  }

  ghost predicate StepOf(g: Graph, m: Machine, x: nat, m': Machine) {
    exists c: Choice :: ThreadStep(g, m, x, c, m')
  }

  /** turns names the thread of each step, and another thread takes over only from one that is through. */
  ghost predicate ByTurns(g: Graph, run: seq<Machine>, turns: seq<nat>) {
    && |run| == |turns| + 1
    && (forall i, j {:trigger run[i], run[j]} :: 0 <= i < j == i + 1 < |run| ==> StepOf(g, run[i], turns[i], run[j]))
    && (forall i, j {:trigger turns[i], turns[j]} :: 0 <= i < j == i + 1 < |turns| ==>
          turns[i] == turns[j] || Through(run[j], turns[i]))
  }

  /** A thread that has begun is never interrupted by another. */
  ghost predicate OneAtATime(g: Graph, run: seq<Machine>) {
    exists turns :: ByTurns(g, run, turns)
  }

  /** A run of threads, the matching run of the unordered model, and the thread of each step. */
  datatype History = History(run: seq<Machine>, bags: seq<State>, turns: seq<nat>) {
    predicate Whole() {
      |run| == |bags| == |turns| + 1
    }

    function Now(): Machine
      requires Whole()
    {
      run[|run| - 1]
    }

    function Bag(): State
      requires Whole()
    {
      bags[|bags| - 1]
    }

    /** The thread may do the next step. */
    ghost predicate MayGoOn(x: nat)
      requires Whole()
    {
      && x < |Now().threads| && Now().threads[x] != []
      && (turns == [] || turns[|turns| - 1] == x || Through(Now(), turns[|turns| - 1]))
    }

    /** The thread of the last step is not at work in a job. */
    ghost predicate NotInJob()
      requires Whole()
    {
      turns != [] ==>
        && turns[|turns| - 1] < |Now().threads|
        && forall t :: t in Now().threads[turns[|turns| - 1]] ==> !t.Run?
    }

    ghost predicate StartsLike(other: History) {
      run != [] && other.run != [] && run[0] == other.run[0]
    }
  }

  /** Both runs started alike and have come to the same point. */
  ghost predicate Follows(g: Graph, p: PropMap, h: History) {
    && h.Whole()
    && ThreadRunOf(g, p, h.run) && RunOf(g, p, h.bags) && h.bags[0].flows == h.run[0].flows
    && Models(h.Bag(), h.Now()) && RunsAlone(h.Now().threads)
    && ByTurns(g, h.run, h.turns) && h.NotInJob()
  }

  /** Every thread has come to its end. */
  ghost predicate Ended(m: Machine) {
    forall q :: q in m.threads ==> q == []
  }

  // ---- Ends and beginnings ----

  lemma {:induction false} FlattenEnded(threads: seq<seq<Task>>)
    requires forall q :: q in threads ==> q == []
    ensures Flatten(threads) == []
  {
    if threads != [] {
      assert threads[0] in threads && forall q :: q in threads[1..] ==> q in threads;
      FlattenEnded(threads[1..]);
    }
  }

  /** A task still pending stands on some stack. */
  lemma {:induction false} FlattenSource(threads: seq<seq<Task>>, t: Task) returns (x: nat)
    requires t in Flatten(threads)
    ensures x < |threads| && t in threads[x]
  {
    var i :| 0 <= i < |Flatten(threads)| && Flatten(threads)[i] == t;
    if i < |threads[0]| {
      x := 0;
    } else {
      assert Flatten(threads[1..])[i - |threads[0]|] == t;
      var y := FlattenSource(threads[1..], t);
      x := y + 1;
    }
  }

  /** The matching bag is empty exactly when all threads have ended. */
  lemma EndedIff(s: State, m: Machine)
    requires Models(s, m)
    ensures Ended(m) <==> s.pending == []
  {
    if Ended(m) {
      FlattenEnded(m.threads);
      assert |multiset(s.pending)| == |s.pending|;
    } else {
      var q :| q in m.threads && q != [];
      var x :| 0 <= x < |m.threads| && m.threads[x] == q;
      FlattenMember(m.threads, x, q[0]);
      assert q[0] in multiset(s.pending);
    }
  }

  lemma FollowsParts(g: Graph, p: PropMap, h: History)
    requires Follows(g, p, h)
    ensures h.Whole() && ThreadRunOf(g, p, h.run) && RunOf(g, p, h.bags) && h.bags[0].flows == h.run[0].flows
    ensures Models(h.Bag(), h.Now()) && RunsAlone(h.Now().threads) && Inv(g, p, h.Bag()) && Fits(g, h.Bag())
    ensures ByTurns(g, h.run, h.turns) && h.NotInJob() && OneAtATime(g, h.run)
    ensures h.Bag().flows == h.Now().flows && h.Bag().started == h.Now().started
  {
    hide Inv, Startable, Next, ThreadNext, ByTurns;
    RunFits(g, p, h.bags, |h.bags| - 1);
  }

  function BeginHistory(g: Graph, p: PropMap, flows: map<Job, Flow>): (h: History)
    requires g.root in g.deps
    ensures h.Whole() && h.Bag() == Launch(g, flows, p) && h.run[0].flows == flows
  {
    History([LaunchThread(g, flows, p)], [Launch(g, flows, p)], [])
  }

  lemma BeginThreads(g: Graph, p: PropMap, flows: map<Job, Flow>)
    requires Startable(g, p, flows)
    ensures g.root in g.deps && Follows(g, p, BeginHistory(g, p, flows))
  {
    StartFits(g, p, flows);
    hide Startable, Next, ThreadNext;
    var run := [LaunchThread(g, flows, p)];
    assert ThreadRunOf(g, p, run);
    LaunchModels(g, p, run);
  }

  // ---- One step of a chosen thread ----

  /** Only loading a job starts its thread, and that thread has nothing else to do. */
  lemma NoRunSpawned(g: Graph, s: State, t: Task, c: Choice)
    requires Fits(g, s) && TaskFits(g, t)
    ensures var q := StepEffect(g, s, t, c).spawned; forall x: Task :: x in q && x.Run? ==> t.Load? && q == [x]
  {
    hide EnterEffect, DeliverEffect, Deliveries;
    if t.Enter? {
      assert g.IsNode(t.target);
      NoRunEntered(g, s, t.target, t.props, t.callback);
    } else if t.Deliver? {
      NoRunDelivered(g, s, t.callback, t.verdict);
    } else {
      hide FinishJob;
      NoRunElse(g, s, t, c);
    }
  }

  lemma NoRunElse(g: Graph, s: State, t: Task, c: Choice)
    requires Fits(g, s) && TaskFits(g, t) && !t.Enter? && !t.Deliver?
    ensures var q := StepEffect(g, s, t, c).spawned; forall x: Task :: x in q && x.Run? ==> t.Load? && q == [x]
  {
    hide EnterEffect, DeliverEffect, Deliveries, FinishJob;
    forall cbs, v ensures forall x: Task :: x in Deliveries(cbs, v) ==> x.Deliver? { DeliveredOnly(cbs, v); }
  }

  lemma NoRunDelivered(g: Graph, s: State, cb: Callback, v: Status)
    requires Fits(g, s) && g.IsCallback(cb)
    ensures forall x: Task :: x in DeliverEffect(g, s, cb, v).spawned ==> !x.Run?
  {
    hide UpdateGroup, Deliveries;
    if cb.DependeeCallback? || cb.DependerCallback? { DeliveredOnly(s.flows[cb.flow].composed.callbacks, v); }
  }

  lemma {:induction false} DeliveredOnly(cbs: seq<Callback>, v: Status)
    ensures forall x: Task :: x in Deliveries(cbs, v) ==> x.Deliver?
  {
    if cbs != [] { DeliveredOnly(cbs[1..], v); }
  }

  lemma {:induction false} TriesOnly(k: Job, i: nat, n: nat)
    requires i <= n
    ensures forall x: Task :: x in Tries(k, i, n) ==> x.TryChild?
    decreases n - i
  {
    if i < n { TriesOnly(k, i + 1, n); }
  }

  lemma NoRunEntered(g: Graph, s: State, n: Node, p: PropMap, cb: Callback)
    requires Fits(g, s) && g.IsNode(n)
    ensures forall x: Task :: x in EnterEffect(g, s, n, p, cb).spawned ==> !x.Run?
  {
    TriesOnly(n.job, 0, |g.deps[n.job]|);
    hide Tries, EnterNode;
  }

  lemma StaysAlone(threads: seq<seq<Task>>, x: nat, t: Task, spawned: seq<Task>)
    requires RunsAlone(threads) && x < |threads| && threads[x] != [] && t == threads[x][0]
    requires forall y: Task :: y in spawned && y.Run? ==> t.Load? && spawned == [y]
    ensures RunsAlone(Threads(threads, x, t, spawned)) && x < |Threads(threads, x, t, spawned)|
    ensures forall u :: u in Threads(threads, x, t, spawned)[x] ==> !u.Run?
  {
    var threads' := Threads(threads, x, t, spawned);
    if |threads[x]| > 1 {
      forall u | u in threads[x][1..] ensures !u.Run? { assert u in threads[x]; }
    }
    forall y, u: Task | 0 <= y < |threads'| && u in threads'[y] && u.Run? ensures |threads'[y]| == 1 {
      if y < |threads| && y != x {
        assert u in threads[y];
      }
    }
  }

  /** The thread may do its next task, and what comes of it. */
  lemma Advance(g: Graph, p: PropMap, h: History, x: nat, c: Choice) returns (i: nat, h': History)
    requires Follows(g, p, h) && h.Whole() && h.MayGoOn(x)
    ensures Follows(g, p, h') && h'.Whole() && h'.StartsLike(h) && h.bags <= h'.bags
    ensures i < |h.Bag().pending| && h.Bag().pending[i] == h.Now().threads[x][0]
    ensures Fits(g, h.Bag()) && TaskFits(g, h.Bag().pending[i])
    ensures h'.Bag() == Apply(h.Bag(), i, StepEffect(g, h.Bag(), h.Bag().pending[i], c)) && Next(g, h.Bag(), h'.Bag())
  {
    hide Inv, Startable, Fits, TaskFits, StepEffect, Apply, Threads, RunOf, ThreadRunOf, Next, ThreadNext, Models,
         RunsAlone, Shape, Conserved, Truthful, PropsOk, RequestsOk, FlowOk, ByTurns, StepOf;
    FollowsParts(g, p, h);
    var s, m := h.Bag(), h.Now();
    i := PendingIndex(m, s, x);
    InvShape(g, p, s);
    TaskOf(g, s, s.pending[i]);
    var m' := StepBoth(g, m, s, x, i, c);
    var s' := Apply(s, i, StepEffect(g, s, s.pending[i], c));
    IsStep(g, s, i, c);
    RunGrows(g, p, h.bags, s');
    ThreadRunGrows(g, p, h.run, m');
    TurnsGrow(g, h, x, m');
    h' := History(h.run + [m'], h.bags + [s'], h.turns + [x]);
  }

  lemma StepBoth(g: Graph, m: Machine, s: State, x: nat, i: nat, c: Choice) returns (m': Machine)
    requires Models(s, m) && RunsAlone(m.threads) && x < |m.threads| && m.threads[x] != []
    requires i < |s.pending| && s.pending[i] == m.threads[x][0] && Fits(g, s) && TaskFits(g, s.pending[i])
    ensures ThreadNext(g, m, m') && StepOf(g, m, x, m')
    ensures RunsAlone(m'.threads) && x < |m'.threads| && forall u :: u in m'.threads[x] ==> !u.Run?
    ensures Models(Apply(s, i, StepEffect(g, s, s.pending[i], c)), m')
  {
    hide StepEffect, Fits, TaskFits, Apply, Threads, RunsAlone;
    var t := m.threads[x][0];
    EffectSame(g, s, Bag(m), t, c);
    var e := StepEffect(g, s, t, c);
    m' := Machine(m.flows[e.job := e.flow], Threads(m.threads, x, t, e.spawned),
                  m.handed + e.handed, m.completions + e.completed, m.started + e.launched, m.fault || e.fault);
    assert ThreadStep(g, m, x, c, m');
    ThreadsBag(m.threads, x, t, e.spawned);
    BagStep(m, m', s, i, e, t);
    NoRunSpawned(g, s, t, c);
    StaysAlone(m.threads, x, t, e.spawned);
  }

  lemma ThreadRunGrows(g: Graph, p: PropMap, run: seq<Machine>, m': Machine)
    requires ThreadRunOf(g, p, run) && |run| > 0 && ThreadNext(g, run[|run| - 1], m')
    ensures ThreadRunOf(g, p, run + [m']) && (run + [m'])[0] == run[0] && (run + [m'])[|run|] == m'
  {
    hide ThreadNext, Startable, LaunchThread;
    var longer := run + [m'];
    forall i, j | 0 <= i < j == i + 1 < |longer| ensures ThreadNext(g, longer[i], longer[j]) {
      if j < |run| { assert ThreadNext(g, run[i], run[j]); }
    }
  }

  lemma TurnsGrow(g: Graph, h: History, x: nat, m': Machine)
    requires h.Whole() && ByTurns(g, h.run, h.turns) && h.MayGoOn(x) && StepOf(g, h.Now(), x, m')
    ensures ByTurns(g, h.run + [m'], h.turns + [x])
  {
    hide StepOf, Through;
    var run, turns := h.run + [m'], h.turns + [x];
    forall i, j | 0 <= i < j == i + 1 < |run| ensures StepOf(g, run[i], turns[i], run[j]) {
      if j < |h.run| { assert StepOf(g, h.run[i], h.turns[i], h.run[j]); }
    }
    forall i, j | 0 <= i < j == i + 1 < |turns| ensures turns[i] == turns[j] || Through(run[j], turns[i]) {
      if j < |h.turns| { assert h.turns[i] == h.turns[j] || Through(h.run[j], h.turns[i]); }
    }
  }

  // ---- Every run of threads can be brought to its end ----

  /** A thread that may go on: the one that went last, or else any. */
  lemma SomeThread(g: Graph, p: PropMap, h: History) returns (x: nat)
    requires Follows(g, p, h) && h.Whole() && h.Bag().pending != []
    ensures h.MayGoOn(x)
  {
    hide ThreadRunOf, RunOf, ByTurns, Models, RunsAlone;
    if h.turns != [] && h.Now().threads[h.turns[|h.turns| - 1]] != [] {
      x := h.turns[|h.turns| - 1];
    } else {
      EndedIff(h.Bag(), h.Now());
      var q :| q in h.Now().threads && q != [];
      x :| 0 <= x < |h.Now().threads| && h.Now().threads[x] == q;
    }
  }

  lemma {:induction false} RunToTheEnd(g: Graph, p: PropMap, h: History) returns (h': History)
    requires Follows(g, p, h) && h.Whole() && Fits(g, h.Bag())
    ensures Follows(g, p, h') && h'.Whole() && h'.StartsLike(h) && h.bags <= h'.bags
    ensures Ended(h'.Now()) && h'.Bag().pending == []
    decreases Work(g, h.Bag())
  {
    hide Follows, Work, Fits, Inv, Models, RunOf, ThreadRunOf, Ended, Apply, StepEffect, Next, TaskFits, ByTurns,
         RunsAlone;
    FollowsParts(g, p, h);
    EndedIff(h.Bag(), h.Now());
    if h.Bag().pending == [] {
      h' := h;
    } else {
      var x := SomeThread(g, p, h);
      var i, h1 := Advance(g, p, h, x, Choice(true, map[]));
      StepSpends(g, p, h.Bag(), h1.Bag());
      h' := RunToTheEnd(g, p, h1);
    }
  }

  /** Flows at rest can always be executed to an end, by threads with call stacks that do not interrupt each
      other. */
  lemma {:induction false} RestingFlowsRun(g: Graph, p: PropMap, flows: map<Job, Flow>) returns (run: seq<Machine>)
    requires Startable(g, p, flows)
    ensures ThreadRunOf(g, p, run) && run[0].flows == flows && Ended(run[|run| - 1]) && OneAtATime(g, run)
  {
    hide Startable, ThreadNext, Fits, Models, RunsAlone, Ended, Next, ByTurns, Inv;
    BeginThreads(g, p, flows);
    FollowsParts(g, p, BeginHistory(g, p, flows));
    var h := RunToTheEnd(g, p, BeginHistory(g, p, flows));
    FollowsParts(g, p, h);
    run := h.run;
  }
}
