/** One job that may be cancelled while it is being loaded or run. */
module SingleJob {
  import opened FlowTypes
  import opened FlowSteps

  /** What a thread has still to do for the job. */
  datatype Work =
    | Loading
    | Running
    | Announcing(calls: seq<Callback>)                 // callCallbacks(calls, jobState), the status still to be read
    | Completing(callback: Callback, verdict: Status)  // callback.completed(verdict)

  datatype JobState = JobState(
    node: NodeState,
    threads: seq<Work>,
    accepted: multiset<Callback>,
    completed: multiset<Callback>)

  /** What can happen: calls from outside, and the next move of some thread. */
  datatype Event =
    | Execute(props: PropMap, callback: Callback)
    | Cancel
    | Move(thread: nat, choice: Choice)

  function Completions(calls: seq<Callback>, verdict: Status): seq<Work> {
    if calls == [] then [] else [Completing(calls[0], verdict)] + Completions(calls[1..], verdict)
  }

  function Replace(q: seq<Work>, i: nat, added: seq<Work>): seq<Work>
    requires i < |q|
  {
    q[..i] + q[i + 1..] + added
  }

  function Start(): JobState {
    JobState(NodeState(READY, None, None, [], false), [], multiset{}, multiset{})
  }

  predicate Enabled(s: JobState, e: Event) {
    e.Move? ==> e.thread < |s.threads|
  }

  function Step(s: JobState, e: Event): JobState
    requires Enabled(s, e)
  {
    match e
    case Execute(p, cb) =>
      var (n, o) := EnterNode(Individual, s.node, p, cb);
      (match o
       case Begin => s.(node := n, threads := s.threads + [Loading], accepted := s.accepted + multiset{cb})
       case Wait => s.(node := n, accepted := s.accepted + multiset{cb})
       case Answer(v) => s.(node := n, accepted := s.accepted + multiset{cb}, completed := s.completed + multiset{cb})
       case _ => s)
    case Cancel =>
      var (n, calls) := CancelNode(s.node);
      s.(node := n, threads := s.threads + Completions(calls, FAILED))
    case Move(i, c) =>
      match s.threads[i]
      case Loading =>
        if c.ok then s.(threads := Replace(s.threads, i, [Running]))
        else s.(node := s.node.(status := FAILED), threads := Replace(s.threads, i, [Announcing(s.node.callbacks)]))
      case Running =>
        s.(node := FinishJob(s.node, c), threads := Replace(s.threads, i, [Announcing(s.node.callbacks)]))
      case Announcing(calls) =>
        s.(threads := Replace(s.threads, i, Completions(calls, s.node.status)))
      case Completing(cb, v) =>
        s.(threads := Replace(s.threads, i, []), completed := s.completed + multiset{cb})
  }

  // ---- Counting ----

  /** Callbacks a thread will still complete. */
  function Held(w: Work): multiset<Callback> {
    match w
    case Announcing(calls) => multiset(calls)
    case Completing(cb, _) => multiset{cb}
    case _ => multiset{}
  }

  function HeldBy(q: seq<Work>): multiset<Callback> {
    if q == [] then multiset{} else Held(q[0]) + HeldBy(q[1..])
  }

  predicate AtWork(w: Work) {
    w.Loading? || w.Running?
  }

  /** How many threads will still give the job its verdict. */
  function Workers(q: seq<Work>): nat {
    if q == [] then 0 else (if AtWork(q[0]) then 1 else 0) + Workers(q[1..])
  }

  function Queued(n: NodeState): seq<Callback> {
    if n.status == RUNNING then n.callbacks else []
  }

  lemma {:induction false} HeldConcat(a: seq<Work>, b: seq<Work>)
    ensures HeldBy(a + b) == HeldBy(a) + HeldBy(b) && Workers(a + b) == Workers(a) + Workers(b)
  {
    if a == [] {
      assert a + b == b;
    } else {
      assert (a + b)[1..] == a[1..] + b;
      HeldConcat(a[1..], b);
    }
  }

  lemma HeldReplace(q: seq<Work>, i: nat, added: seq<Work>)
    requires i < |q|
    ensures HeldBy(Replace(q, i, added)) + Held(q[i]) == HeldBy(q) + HeldBy(added)
    ensures Workers(Replace(q, i, added)) + (if AtWork(q[i]) then 1 else 0) == Workers(q) + Workers(added)
  {
    assert q == q[..i] + ([q[i]] + q[i + 1..]);
    HeldConcat(q[..i], [q[i]] + q[i + 1..]);
    HeldConcat([q[i]], q[i + 1..]);
    HeldConcat(q[..i], q[i + 1..]);
    HeldConcat(q[..i] + q[i + 1..], added);
    assert HeldBy([q[i]]) == Held(q[i]);
  }

  lemma {:induction false} CompletionsHold(calls: seq<Callback>, v: Status)
    ensures HeldBy(Completions(calls, v)) == multiset(calls) && Workers(Completions(calls, v)) == 0
  {
    if calls != [] {
      CompletionsHold(calls[1..], v);
      assert Completions(calls, v)[1..] == Completions(calls[1..], v);
      assert calls == [calls[0]] + calls[1..];
    }
  }

  // ---- The invariant ----

  ghost predicate Inv(s: JobState) {
    && s.accepted == multiset(Queued(s.node)) + HeldBy(s.threads) + s.completed
    && Workers(s.threads) <= 1
    && (s.node.status == RUNNING ==> Workers(s.threads) == 1)
    && (s.node.status != RUNNING && Workers(s.threads) == 1 ==> s.node.callbacks == [] && s.node.status == FAILED)
    && (s.node.status in {READY, IGNORED} ==> s.node.callbacks == [])
  }

  /** The books stay balanced when callbacks move from one place to the next. */
  lemma Moved(accepted: multiset<Callback>, a: multiset<Callback>, b: multiset<Callback>, c: multiset<Callback>,
              a': multiset<Callback>, b': multiset<Callback>, c': multiset<Callback>, x: multiset<Callback>)
    requires accepted == a + b + c
    requires || (a == a' + x && b' == b + x && c' == c)
             || (a' == a && b == b' + x && c' == c + x)
             || (a' == a && b' == b && c' == c)
    ensures accepted == a' + b' + c'
  {
  }

  lemma OneHolds(w: Work)
    ensures HeldBy([w]) == Held(w) && Workers([w]) == if AtWork(w) then 1 else 0
  {
    hide AtWork, Held;
    assert [w][1..] == [];
    assert HeldBy([w]) == Held(w) + HeldBy([w][1..]);
  }

  lemma LoadingHolds(threads: seq<Work>)
    ensures HeldBy(threads + [Loading]) == HeldBy(threads) && Workers(threads + [Loading]) == Workers(threads) + 1
  {
    OneHolds(Loading);
    HeldConcat(threads, [Loading]);
    hide HeldBy, Workers;
  }

  /** A ready job that has no queue begins with the caller's callback alone, or refuses. */
  lemma EnterReady(n: NodeState, p: PropMap, cb: Callback)
    requires n.status == READY && n.callbacks == []
    ensures var (m, o) := EnterNode(Individual, n, p, cb);
            o == Refuse || (o == Begin && m.status == RUNNING && m.callbacks == [cb])
  {
    assert n.callbacks + [cb] == [cb];
  }

  lemma BeginKeeps(s: JobState, p: PropMap, cb: Callback)
    requires Inv(s) && s.node.status == READY
    ensures Inv(Step(s, Execute(p, cb)))
  {
    hide HeldBy, Workers, EnterNode;
    LoadingHolds(s.threads);
    var (n, o) := EnterNode(Individual, s.node, p, cb);
    EnterReady(s.node, p, cb);
    assert multiset(Queued(s.node)) == multiset{};
    if o == Begin { assert multiset(Queued(n)) == multiset{cb}; }
  }

  lemma EnterRunning(n: NodeState, p: PropMap, cb: Callback)
    requires n.status == RUNNING
    ensures var (m, o) := EnterNode(Individual, n, p, cb);
            o == Refuse || (o == Wait && m.status == RUNNING && m.callbacks == n.callbacks + [cb])
  {
  }

  lemma OneMore(accepted: multiset<Callback>, a: multiset<Callback>, b: multiset<Callback>, c: multiset<Callback>,
                x: multiset<Callback>)
    requires accepted == a + b + c
    ensures accepted + x == a + x + b + c
  {
  }

  lemma QueuedOneMore(s: JobState, n: NodeState, cb: Callback)
    requires Inv(s) && s.node.status == RUNNING && n.status == RUNNING && n.callbacks == s.node.callbacks + [cb]
    ensures Inv(s.(node := n, accepted := s.accepted + multiset{cb}))
  {
    hide HeldBy, Workers;
    assert multiset(n.callbacks) == multiset(s.node.callbacks) + multiset{cb};
    OneMore(s.accepted, multiset(s.node.callbacks), HeldBy(s.threads), s.completed, multiset{cb});
  }

  lemma WaitKeeps(s: JobState, p: PropMap, cb: Callback)
    requires Inv(s) && s.node.status == RUNNING
    ensures Inv(Step(s, Execute(p, cb)))
  {
    hide Inv, EnterNode, CancelNode, FinishJob, Completions, Replace;
    var (n, o) := EnterNode(Individual, s.node, p, cb);
    EnterRunning(s.node, p, cb);
    if o == Wait { QueuedOneMore(s, n, cb); }
  }

  lemma EnterEnded(n: NodeState, p: PropMap, cb: Callback)
    requires n.status !in {READY, RUNNING}
    ensures var (m, o) := EnterNode(Individual, n, p, cb);
            && (o == Refuse || o.Answer?) && m.callbacks == n.callbacks
            && (m.status == n.status || (n.status == IGNORED && m.status == COMPLETED))
  {
  }

  lemma AnswerKeeps(s: JobState, p: PropMap, cb: Callback)
    requires Inv(s) && s.node.status !in {READY, RUNNING}
    ensures Inv(Step(s, Execute(p, cb)))
  {
    hide HeldBy, Workers, EnterNode;
    var (n, o) := EnterNode(Individual, s.node, p, cb);
    EnterEnded(s.node, p, cb);
    assert Queued(n) == [] && Queued(s.node) == [];
  }

  lemma ExecuteKeeps(s: JobState, p: PropMap, cb: Callback)
    requires Inv(s)
    ensures Inv(Step(s, Execute(p, cb)))
  {
    hide Inv, Step;
    if s.node.status == READY {
      BeginKeeps(s, p, cb);
    } else if s.node.status == RUNNING {
      WaitKeeps(s, p, cb);
    } else {
      AnswerKeeps(s, p, cb);
    }
  }

  lemma CancelledHold(threads: seq<Work>, calls: seq<Callback>)
    ensures HeldBy(threads + Completions(calls, FAILED)) == HeldBy(threads) + multiset(calls)
    ensures Workers(threads + Completions(calls, FAILED)) == Workers(threads)
  {
    CompletionsHold(calls, FAILED);
    HeldConcat(threads, Completions(calls, FAILED));
    hide HeldBy, Workers;
  }

  lemma CancelKeeps(s: JobState)
    requires Inv(s)
    ensures Inv(Step(s, Cancel))
  {
    var calls := CancelNode(s.node).1;
    CancelledHold(s.threads, calls);
    hide HeldBy, Workers, Completions;
    assert multiset(calls) == (if s.node.status == RUNNING then multiset(Queued(s.node)) else multiset{});
  }

  lemma {:induction false} WorkerIn(q: seq<Work>, i: nat)
    requires i < |q| && AtWork(q[i])
    ensures Workers(q) >= 1
  {
    if i > 0 { WorkerIn(q[1..], i - 1); }
  }

  /** A working thread is the only one, and finds in the queue all that is still to be told. */
  lemma WorkerParts(s: JobState, i: nat)
    requires Inv(s) && i < |s.threads| && AtWork(s.threads[i])
    ensures Workers(s.threads) == 1 && multiset(Queued(s.node)) == multiset(s.node.callbacks)
    ensures s.node.status in {RUNNING, FAILED}
  {
    WorkerIn(s.threads, i);
  }

  lemma AnnounceHolds(threads: seq<Work>, i: nat, calls: seq<Callback>)
    requires i < |threads| && AtWork(threads[i])
    ensures HeldBy(Replace(threads, i, [Announcing(calls)])) == HeldBy(threads) + multiset(calls)
    ensures Workers(Replace(threads, i, [Announcing(calls)])) + 1 == Workers(threads)
  {
    OneHolds(Announcing(calls));
    HeldReplace(threads, i, [Announcing(calls)]);
    hide HeldBy, Workers, Replace;
    assert Held(threads[i]) == multiset{};
    assert HeldBy(Replace(threads, i, [Announcing(calls)]))
        == HeldBy(Replace(threads, i, [Announcing(calls)])) + multiset{};
  }

  /** The job could not be loaded, or its thread ended: everything queued is handed to one announcement. */
  lemma VerdictKeeps(s: JobState, i: nat, n: NodeState)
    requires Inv(s) && i < |s.threads| && AtWork(s.threads[i])
    requires n.status in {SUCCEEDED, FAILED}
    ensures Inv(s.(node := n, threads := Replace(s.threads, i, [Announcing(s.node.callbacks)])))
  {
    WorkerParts(s, i);
    AnnounceHolds(s.threads, i, s.node.callbacks);
    hide HeldBy, Workers, Replace;
    var s' := s.(node := n, threads := Replace(s.threads, i, [Announcing(s.node.callbacks)]));
    assert Queued(s'.node) == [];
    Moved(s.accepted, multiset(Queued(s.node)), HeldBy(s.threads), s.completed,
          multiset{}, HeldBy(s'.threads), s.completed, multiset(s.node.callbacks));
  }

  lemma LoadedKeeps(s: JobState, i: nat)
    requires Inv(s) && i < |s.threads| && s.threads[i].Loading?
    ensures Inv(s.(threads := Replace(s.threads, i, [Running])))
  {
    OneHolds(Running);
    HeldReplace(s.threads, i, [Running]);
    hide HeldBy, Workers, Replace;
    var threads' := Replace(s.threads, i, [Running]);
    assert HeldBy(threads') == HeldBy(threads') + multiset{} == HeldBy(s.threads);
  }

  lemma AnnounceKeeps(s: JobState, i: nat, calls: seq<Callback>, v: Status)
    requires Inv(s) && i < |s.threads| && s.threads[i] == Announcing(calls)
    ensures Inv(s.(threads := Replace(s.threads, i, Completions(calls, v))))
  {
    HeldReplace(s.threads, i, Completions(calls, v));
    CompletionsHold(calls, v);
    hide HeldBy, Workers, Replace, Completions;
    var threads' := Replace(s.threads, i, Completions(calls, v));
    assert HeldBy(threads') == HeldBy(threads') + Held(s.threads[i]) - Held(s.threads[i]);
    assert HeldBy(threads') == HeldBy(s.threads);
  }

  lemma CompleteKeeps(s: JobState, i: nat, cb: Callback, v: Status)
    requires Inv(s) && i < |s.threads| && s.threads[i] == Completing(cb, v)
    ensures Inv(s.(threads := Replace(s.threads, i, []), completed := s.completed + multiset{cb}))
  {
    HeldReplace(s.threads, i, []);
    assert HeldBy([]) == multiset{};
    hide HeldBy, Workers, Replace;
    Moved(s.accepted, multiset(Queued(s.node)), HeldBy(s.threads), s.completed,
          multiset(Queued(s.node)), HeldBy(Replace(s.threads, i, [])), s.completed + multiset{cb}, multiset{cb});
  }

  lemma MoveKeeps(s: JobState, i: nat, c: Choice)
    requires Inv(s) && i < |s.threads|
    ensures Inv(Step(s, Move(i, c)))
  {
    hide Inv, Replace, Completions;
    match s.threads[i] {
      case Loading =>
        if c.ok { LoadedKeeps(s, i); } else { VerdictKeeps(s, i, s.node.(status := FAILED)); }
      case Running => VerdictKeeps(s, i, FinishJob(s.node, c));
      case Announcing(calls) => AnnounceKeeps(s, i, calls, s.node.status);
      case Completing(cb, v) => CompleteKeeps(s, i, cb, v);
    }
  }

  lemma {:induction false} EventKeeps(s: JobState, e: Event)
    requires Inv(s) && Enabled(s, e)
    ensures Inv(Step(s, e))
  {
    hide Step, Inv;
    match e {
      case Execute(p, cb) => ExecuteKeeps(s, p, cb);
      case Cancel => CancelKeeps(s);
      case Move(x, c) => MoveKeeps(s, x, c);
    }
  }

  ghost predicate Next(s: JobState, s': JobState) {
    exists e: Event :: Enabled(s, e) && s' == Step(s, e)
  }

  ghost predicate IsRun(run: seq<JobState>) {
    && run != [] && run[0] == Start()
    && forall i, j {:trigger run[i], run[j]} :: 0 <= i < j == i + 1 < |run| ==> Next(run[i], run[j])
  }

  lemma InvStart()
    ensures Inv(Start())
  {
  }

  lemma {:induction false} InvRun(run: seq<JobState>, i: nat)
    requires IsRun(run) && i < |run|
    ensures Inv(run[i])
  {
    hide Next, Inv;
    if i == 0 {
      InvStart();
    } else {
      InvRun(run, i - 1);
      assert Next(run[i - 1], run[i - 1 + 1]);
      NextKeeps(run[i - 1], run[i]);
    }
  }

  lemma NextKeeps(s: JobState, s': JobState)
    requires Inv(s) && Next(s, s')
    ensures Inv(s')
  {
    hide Step, Inv, Enabled;
    var e: Event :| Enabled(s, e) && s' == Step(s, e);
    EventKeeps(s, e);
  }

  /** However calls, cancellations and the job's threads interleave, no callback is completed more
      often than it was accepted. */
  lemma {:induction false} CompletedAtMostOnce(run: seq<JobState>, i: nat, cb: Callback)
    requires IsRun(run) && i < |run|
    ensures run[i].completed[cb] <= run[i].accepted[cb]
  {
    InvRun(run, i);
    assert run[i].accepted[cb] == (multiset(Queued(run[i].node)) + HeldBy(run[i].threads) + run[i].completed)[cb];
  }

  /** Once no thread is pending every accepted callback has been completed exactly as often as it
      was accepted, even if a cancelled job finished afterwards. */
  lemma {:induction false} CompletedExactlyOnce(run: seq<JobState>, i: nat)
    requires IsRun(run) && i < |run| && run[i].threads == []
    ensures run[i].completed == run[i].accepted && run[i].node.status != RUNNING
  {
    InvRun(run, i);
  }

  // ---- What callers are told ----

  lemma {:induction false} CompletionsTell(calls: seq<Callback>, v: Status)
    ensures |Completions(calls, v)| == |calls|
    ensures forall x :: 0 <= x < |calls| ==> Completions(calls, v)[x] == Completing(calls[x], v)
  {
    if calls != [] { CompletionsTell(calls[1..], v); }
  }

  /** Cancelling changes nothing about a job at its end. Any other job fails, and exactly the callbacks that were
      queued, in their order, are going to be told FAILED. */
  lemma {:induction false} CancelTells(s: JobState)
    ensures var s' := Step(s, Cancel);
            && (s.node.status in {COMPLETED, SUCCEEDED, FAILED, IGNORED} ==> s' == s)
            && (s.node.status in {READY, RUNNING} ==>
                  && s'.node == NodeState(FAILED, s.node.parentProps, Some(map[]), [], s.node.notified)
                  && s'.accepted == s.accepted && s'.completed == s.completed
                  && |s'.threads| == |s.threads| + |s.node.callbacks|
                  && s'.threads[..|s.threads|] == s.threads
                  && forall x :: 0 <= x < |s.node.callbacks| ==>
                       s'.threads[|s.threads| + x] == Completing(s.node.callbacks[x], FAILED))
  {
    hide Completions;
    CompletionsTell(s.node.callbacks, FAILED);
    CompletionsTell([], FAILED);
  }

  /** An execute with other props than the job holds is refused and changes nothing, unless the job is marked as
      completed. Any other callback is accepted: queued while the job is not at its end, by the first of them with a
      thread that loads the job, and else completed on the spot. */
  lemma {:induction false} ExecuteTells(s: JobState, p: PropMap, cb: Callback)
    ensures var s' := Step(s, Execute(p, cb));
            var refused := s.node.status != COMPLETED && s.node.parentProps.Some? && s.node.parentProps.value != p;
            var queued := s.node.status in {READY, RUNNING};
            && (refused ==> s' == s)
            && (!refused ==>
                  && s'.accepted == s.accepted + multiset{cb}
                  && s'.completed == s.completed + (if queued then multiset{} else multiset{cb})
                  && s'.threads == s.threads + (if s.node.status == READY then [Loading] else [])
                  && s'.node.callbacks == s.node.callbacks + (if queued then [cb] else [])
                  && s'.node.returnProps == s.node.returnProps
                  && s'.node.parentProps == (if s.node.parentProps.Some? then s.node.parentProps else Some(p))
                  && s'.node.status ==
                       if queued then RUNNING else if s.node.status == IGNORED then COMPLETED else s.node.status)
  {
  }

  /** What the job's thread does: a load that fails, and the end of the run, give the job its status and set out to
      tell those queued at that moment; only a good end leaves an output. */
  lemma {:induction false} ThreadTells(s: JobState, i: nat, c: Choice)
    requires i < |s.threads| && AtWork(s.threads[i])
    ensures var s', rest := Step(s, Move(i, c)), s.threads[..i] + s.threads[i + 1..];
            && s'.accepted == s.accepted && s'.completed == s.completed
            && (s.threads[i].Loading? && c.ok ==> s'.node == s.node && s'.threads == rest + [Running])
            && (s.threads[i].Loading? && !c.ok ==>
                  s'.node == s.node.(status := FAILED) && s'.threads == rest + [Announcing(s.node.callbacks)])
            && (s.threads[i].Running? ==>
                  && s'.threads == rest + [Announcing(s.node.callbacks)]
                  && s'.node == s.node.(status := if c.ok then SUCCEEDED else FAILED,
                                        returnProps := Some(if c.ok then c.output else map[])))
  {
  }

  /** Whoever was queued when the job's thread ended is told, in order, the status the job has when the
      announcement is made. */
  lemma {:induction false} AnnouncementTells(s: JobState, i: nat, c: Choice, calls: seq<Callback>)
    requires i < |s.threads| && s.threads[i] == Announcing(calls)
    ensures var s', rest := Step(s, Move(i, c)), s.threads[..i] + s.threads[i + 1..];
            && s'.node == s.node && s'.accepted == s.accepted && s'.completed == s.completed
            && |s'.threads| == |rest| + |calls| && s'.threads[..|rest|] == rest
            && forall x :: 0 <= x < |calls| ==> s'.threads[|rest| + x] == Completing(calls[x], s.node.status)
  {
    hide Completions;
    CompletionsTell(calls, s.node.status);
  }

  // ---- When a failure is final ----

  /** The run can go on so that the job ends well. */
  ghost predicate CanSucceed(run: seq<JobState>)
    requires run != []
  {
    exists longer: seq<JobState> :: IsRun(longer) && run <= longer && longer[|longer| - 1].node.status == SUCCEEDED
  }

  lemma RunGrows(run: seq<JobState>, e: Event)
    requires IsRun(run) && Enabled(run[|run| - 1], e)
    ensures IsRun(run + [Step(run[|run| - 1], e)])
  {
    hide Step, Enabled;
    var longer := run + [Step(run[|run| - 1], e)];
    forall i, j | 0 <= i < j == i + 1 < |longer| ensures Next(longer[i], longer[j]) {
      if j < |run| { assert Next(run[i], run[j]); }
    }
  }

  lemma {:induction false} FindWorker(q: seq<Work>) returns (i: nat)
    requires Workers(q) > 0
    ensures i < |q| && AtWork(q[i])
  {
    if AtWork(q[0]) {
      i := 0;
    } else {
      var x := FindWorker(q[1..]);
      i := x + 1;
    }
  }

  const OK := Choice(true, map[])

  /** A thread that still loads or runs the job may end it well. */
  lemma WorkerSucceeds(run: seq<JobState>)
    requires IsRun(run) && Workers(run[|run| - 1].threads) > 0
    ensures CanSucceed(run)
  {
    hide IsRun;
    assert |run| > 0 by { HasStates(run); }
    var s := run[|run| - 1];
    var i := FindWorker(s.threads);
    var s1 := Step(s, Move(i, OK));
    RunGrows(run, Move(i, OK));
    var longer := run + [s1];
    if s.threads[i].Loading? {
      assert s1.threads[|s1.threads| - 1] == Running;
      RunGrows(longer, Move(|s1.threads| - 1, OK));
      longer := longer + [Step(s1, Move(|s1.threads| - 1, OK))];
    }
    assert IsRun(longer) && run <= longer && longer[|longer| - 1].node.status == SUCCEEDED;
  }

  lemma HasStates(run: seq<JobState>)
    requires IsRun(run)
    ensures |run| > 0
  {
  }

  /** Failed, and no thread is left that could say otherwise. */
  ghost predicate Over(s: JobState) {
    s.node.status == FAILED && Workers(s.threads) == 0
  }

  lemma MoveOver(s: JobState, i: nat, c: Choice)
    requires Over(s) && i < |s.threads|
    ensures Over(Step(s, Move(i, c)))
  {
    if AtWork(s.threads[i]) { WorkerIn(s.threads, i); }
    match s.threads[i] {
      case Announcing(calls) =>
        HeldReplace(s.threads, i, Completions(calls, FAILED));
        CompletionsHold(calls, FAILED);
      case _ => HeldReplace(s.threads, i, []);
    }
  }

  lemma NextOver(s: JobState, s': JobState)
    requires Over(s) && Next(s, s')
    ensures Over(s')
  {
    var e: Event :| Enabled(s, e) && s' == Step(s, e);
    hide Completions, Workers;
    match e {
      case Execute(p, cb) =>
      case Cancel => CancelledHold(s.threads, []);
      case Move(i, c) => hide Step, Over; MoveOver(s, i, c);
    }
  }

  lemma {:induction false} StaysOver(run: seq<JobState>, i: nat, n: nat)
    requires IsRun(run) && i <= n < |run| && Over(run[i])
    ensures Over(run[n])
    decreases n
  {
    hide Next, Over;
    if i < n {
      StaysOver(run, i, n - 1);
      assert Next(run[n - 1], run[n - 1 + 1]);
      NextOver(run[n - 1], run[n]);
    }
  }

  /** In any run, a job that has failed can still end well exactly if a thread that loads or runs it
      is alive. */
  lemma {:induction false} FailedCanSucceedIff(run: seq<JobState>)
    requires IsRun(run) && run[|run| - 1].node.status == FAILED
    ensures CanSucceed(run) <==> Workers(run[|run| - 1].threads) > 0
  {
    var last := |run| - 1;
    if Workers(run[last].threads) > 0 {
      WorkerSucceeds(run);
    } else if CanSucceed(run) {
      var longer: seq<JobState> :| IsRun(longer) && run <= longer && longer[|longer| - 1].node.status == SUCCEEDED;
      hide IsRun;
      StaysOver(longer, last, |longer| - 1);
    }
  }

  /** Cancelling a job that is not at its end always fails it, and this is final exactly if the job was
      not running: the thread of a running job can still make it count as succeeded, although its
      callers hear that it failed. */
  lemma {:induction false} CancelledCanSucceedIff(run: seq<JobState>)
    requires IsRun(run) && run[|run| - 1].node.status in {READY, RUNNING}
    ensures var run' := run + [Step(run[|run| - 1], Cancel)];
            && IsRun(run') && run'[|run|].node.status == FAILED
            && (CanSucceed(run') <==> run[|run| - 1].node.status == RUNNING)
  {
    hide IsRun, CanSucceed, Completions, Workers;
    HasStates(run);
    var s := run[|run| - 1];
    InvRun(run, |run| - 1);
    RunGrows(run, Cancel);
    CancelledHold(s.threads, CancelNode(s.node).1);
    FailedCanSucceedIff(run + [Step(s, Cancel)]);
  }
}
