/** How runs end: nothing gets stuck, every callback is answered once, and the caller hears the truth. */
module FlowOutcome {
  import opened FlowTypes
  import opened FlowSteps
  import opened FlowInvariant
  import opened FlowJobSteps
  import opened FlowDeliverSteps
  import opened FlowRuns

  // ---- A state with nothing left to do ----

  /** No object of the job's flow is running, and a finished group has notified. */
  ghost predicate Idle(f: Flow) {
    && f.job.status != RUNNING
    && (f.Multiple? ==>
          && f.composed.status != RUNNING && f.group.status != RUNNING
          && (f.group.status in {SUCCEEDED, FAILED} ==> f.group.notified))
  }

  /** All that is pending are job threads at work. */
  ghost predicate OnlyRuns(s: State) {
    forall t :: t in s.pending ==> t.Run?
  }

  lemma NoOthers(s: State, t: Task)
    requires OnlyRuns(s) && !t.Run?
    ensures t !in s.pending && multiset(s.pending)[t] == 0
  {
  }

  lemma IdleJob(s: State, k: Job)
    requires k in s.flows && JobOk(s, k) && OnlyRuns(s) && Run(k) !in s.pending
    ensures s.flows[k].job.status != RUNNING
  {
    NoOthers(s, Load(k));
    assert multiset(s.pending)[Run(k)] == 0;
  }

  lemma NoNotice(s: State, k: Job, i: nat, v: Status)
    requires OnlyRuns(s)
    ensures !LeadsToNotify(s.pending, k, i, v)
  {
    NoOthers(s, ReadFirst(k, i));
    NoOthers(s, CasSucceeded(k, i));
    NoOthers(s, ReadSecond(k, i));
    NoOthers(s, CasFailed(k, i));
  }

  lemma IdleNotify(s: State, k: Job, n: nat)
    requires k in s.flows && s.flows[k].Multiple? && NotifyOk(s, k, n) && OnlyRuns(s)
    ensures s.flows[k].group.status in {SUCCEEDED, FAILED} ==> s.flows[k].group.notified
  {
    hide LeadsToNotify;
    var gr := s.flows[k].group;
    if gr.status in {SUCCEEDED, FAILED} && !gr.notified {
      var i: nat :| i < n && LeadsToNotify(s.pending, k, i, gr.status);
      NoNotice(s, k, i, gr.status);
    }
  }

  lemma {:induction false} RunsCarryNothing(q: seq<Task>)
    requires forall t :: t in q ==> t.Run?
    ensures Carried(q) == multiset{}
  {
    if q != [] {
      assert q[0] in q;
      RunsCarryNothing(q[1..]);
    }
  }

  /** With only job threads at work, a callback that is not answered is queued at its home. */
  lemma Waiting(g: Graph, s: State, cb: Callback)
    requires Shape(g, s) && Conserved(g, s) && OnlyRuns(s) && g.IsCallback(cb)
    ensures s.handed[cb] == Owed(g, s, cb) + Answered(s, cb)
  {
    RunsCarryNothing(s.pending);
    hide Owed, Answered, Carried, Shape;
  }

  /** A running group waits for a child that has queued its callback, so that child is running. */
  lemma RunningGroupWaits(g: Graph, s: State, k: Job) returns (i: nat)
    requires Shape(g, s) && Conserved(g, s) && OnlyRuns(s) && k in s.flows && s.flows[k].Multiple?
    requires GroupOk(g, s, k) && TriesOk(s, k, |g.deps[k]|) && s.flows[k].group.status == RUNNING
    ensures i < |g.deps[k]| && g.deps[k][i] in s.flows && s.flows[g.deps[k][i]].GetStatus() == RUNNING
  {
    i := Unanswering(g, s, k);
    hide GroupOk, Conserved, OnlyRuns;
    var cb := GroupCallback(k, i);
    TriedAll(s, k, |g.deps[k]|, i);
    Waiting(g, s, cb);
  }

  lemma Unanswering(g: Graph, s: State, k: Job) returns (i: nat)
    requires Fits(g, s) && k in s.flows && s.flows[k].Multiple? && GroupOk(g, s, k)
    requires s.flows[k].group.status == RUNNING
    ensures i < |g.deps[k]| && Answered(s, GroupCallback(k, i)) == 0
  {
    i :| i < |g.deps[k]| && Answered(s, GroupCallback(k, i)) == 0;
  }

  /** A running group whose loop is over has asked every child. */
  lemma TriedAll(s: State, k: Job, n: nat, i: nat)
    requires k in s.flows && s.flows[k].Multiple? && TriesOk(s, k, n) && i < n && OnlyRuns(s)
    requires s.flows[k].group.status == RUNNING
    ensures s.handed[GroupCallback(k, i)] == 1
  {
    NoOthers(s, TryChild(k, i));
    assert GroupCallback(k, i).group == k;
  }

  lemma ComposedWaits(g: Graph, s: State, k: Job)
    requires Shape(g, s) && Conserved(g, s) && OnlyRuns(s) && k in s.flows && s.flows[k].Multiple?
    requires ComposedAt(s, k) && s.flows[k].job.status != RUNNING && s.flows[k].group.status != RUNNING
    requires s.flows[k].group.status in {SUCCEEDED, FAILED} ==> s.flows[k].group.notified
    ensures s.flows[k].composed.status != RUNNING
  {
    Waiting(g, s, DependeeCallback(k));
    Waiting(g, s, DependerCallback(k));
  }

  /** With nothing pending, no object is running: a flow never gets stuck. */
  lemma {:induction false} NothingRuns(g: Graph, p: PropMap, s: State, rank: map<Job, nat>, k: Job)
    requires Inv(g, p, s) && s.pending == [] && g.RankedBy(rank) && k in g.deps
    ensures k in s.flows && Idle(s.flows[k])
    decreases rank[k]
  {
    InvShape(g, p, s);
    FlowParts(g, s, k);
    IdleJob(s, k);
    if s.flows[k].Multiple? {
      IdleNotify(s, k, |g.deps[k]|);
      if s.flows[k].group.status == RUNNING {
        var i := RunningGroupWaits(g, s, k);
        NothingRuns(g, p, s, rank, g.deps[k][i]);
        assert false;
      }
      ComposedWaits(g, s, k);
    }
  }

  /** While the root is running some thread has something to do. */
  lemma {:induction false} RunningRootHasStep(g: Graph, p: PropMap, run: seq<State>, i: nat, rank: map<Job, nat>)
    requires RunOf(g, p, run) && i < |run| && g.RankedBy(rank)
    requires g.root in run[i].flows && run[i].flows[g.root].GetStatus() == RUNNING
    ensures exists s' :: Next(g, run[i], s')
  {
    var s := run[i];
    InvRun(g, p, run, i);
    if s.pending == [] {
      NothingRuns(g, p, s, rank, g.root);
    } else {
      PendingIsEnabled(g, p, s);
    }
  }

  lemma TaskIsEnabled(g: Graph, s: State)
    requires Fits(g, s) && s.pending != [] && TaskFits(g, s.pending[0])
    ensures exists s' :: Next(g, s, s')
  {
    var c := Choice(true, map[]);
    var s' := Apply(s, 0, StepEffect(g, s, s.pending[0], c));
    hide Fits, TaskFits, Apply, StepEffect;
    assert StepsTo(g, s, 0, c, s');
    assert Next(g, s, s');
  }

  lemma PendingIsEnabled(g: Graph, p: PropMap, s: State)
    requires Inv(g, p, s) && s.pending != []
    ensures exists s' :: Next(g, s, s')
  {
    InvShape(g, p, s);
    hide Inv, Next;
    TaskOf(g, s, s.pending[0]);
    TaskIsEnabled(g, s);
  }

  // ---- Exactly once ----

  lemma TriedOnce(s: State, k: Job, n: nat, i: nat)
    requires k in s.flows && s.flows[k].Multiple? && TriesOk(s, k, n) && i < n
    ensures s.handed[GroupCallback(k, i)] <= 1
  {
    assert GroupCallback(k, i).group == k;
  }

  lemma HandedOnce(g: Graph, p: PropMap, s: State, cb: Callback)
    requires Inv(g, p, s) && g.IsCallback(cb)
    ensures s.handed[cb] <= 1
  {
    InvShape(g, p, s);
    if cb != Caller {
      var k := if cb.GroupCallback? then cb.group else cb.flow;
      hide Inv, Shape, Conserved, Truthful, PropsOk, RequestsOk, FlowOk, ComposedAt, TriesOk, GroupOk, NotifyOk, JobOk;
      FlowParts(g, s, k);
      if cb.GroupCallback? { TriedOnce(s, k, |g.deps[k]|, cb.child); } else { DependeeBound(s, k); }
    }
  }

  /** At any time a callback has been handed out at most once and completed at most as often. */
  lemma {:induction false} AtMostOnce(g: Graph, p: PropMap, run: seq<State>, i: nat, cb: Callback)
    requires RunOf(g, p, run) && i < |run| && g.IsCallback(cb)
    ensures Answered(run[i], cb) <= run[i].handed[cb] <= 1
  {
    hide Inv, RunOf, Conserved, FlowOk;
    InvRun(g, p, run, i);
    InvShape(g, p, run[i]);
    HandedOnce(g, p, run[i], cb);
    Balance(g, run[i], cb);
  }

  lemma NothingOwed(g: Graph, s: State, cb: Callback)
    requires Fits(g, s) && g.IsCallback(cb) && g.Home(cb).job in s.flows && FlowOk(g, s, g.Home(cb).job)
    requires Idle(s.flows[g.Home(cb).job])
    ensures Owed(g, s, cb) == 0
  {
    var n := g.Home(cb);
    FlowParts(g, s, n.job);
    assert n.GroupedNode? && !s.flows[n.job].group.notified ==> s.flows[n.job].group.status == READY;
  }

  lemma OnceAtRest(g: Graph, p: PropMap, s: State, rank: map<Job, nat>, cb: Callback)
    requires Inv(g, p, s) && g.RankedBy(rank) && s.pending == [] && cb in s.handed
    ensures g.IsCallback(cb) && s.handed[cb] == 1 && Answered(s, cb) == 1
  {
    InvShape(g, p, s);
    HandedCallback(g, s, cb);
    hide Inv, Shape, FlowOk, Conserved, Truthful, PropsOk, RequestsOk, Owed, Answered, Idle;
    HandedOnce(g, p, s, cb);
    NothingRuns(g, p, s, rank, g.Home(cb).job);
    NothingOwed(g, s, cb);
    Waiting(g, s, cb);
  }

  lemma HandedCallback(g: Graph, s: State, cb: Callback)
    requires Shape(g, s) && cb in s.handed
    ensures Fits(g, s) && g.IsCallback(cb) && g.Home(cb).job in g.deps && s.handed[cb] > 0
  {
  }

  /** When a run has come to its end, every callback that was handed to an execute call has been
      completed exactly once. */
  lemma {:induction false} ExactlyOnceAtTheEnd(g: Graph, p: PropMap, run: seq<State>, rank: map<Job, nat>, cb: Callback)
    requires RunOf(g, p, run) && g.RankedBy(rank) && run[|run| - 1].pending == []
    requires cb in run[|run| - 1].handed
    ensures g.IsCallback(cb) && run[|run| - 1].handed[cb] == 1 && Answered(run[|run| - 1], cb) == 1
  {
    hide Inv;
    InvRun(g, p, run, |run| - 1);
    OnceAtRest(g, p, run[|run| - 1], rank, cb);
  }

  // ---- The verdict ----

  lemma {:induction false} RankBound(rank: map<Job, nat>, keys: set<Job>) returns (bound: nat)
    requires keys <= rank.Keys
    ensures forall k :: k in keys ==> rank[k] <= bound
  {
    if keys == {} {
      bound := 0;
    } else {
      var k :| k in keys;
      var b := RankBound(rank, keys - {k});
      bound := if rank[k] > b then rank[k] else b;
    }
  }

  /** A group that tried an unfinished child is itself unfinished. */
  lemma GroupUnfinished(g: Graph, s: State, k: Job, i: nat)
    requires Fits(g, s) && k in s.flows && s.flows[k].Multiple? && i < |g.deps[k]| && s.handed[GroupCallback(k, i)] > 0
    requires GroupOk(g, s, k) && TriesOk(s, k, |g.deps[k]|) && ComposedAt(s, k)
    requires g.deps[k][i] in s.flows && s.flows[g.deps[k][i]].GetStatus() in {RUNNING, FAILED}
    ensures s.flows[k].group.status in {RUNNING, FAILED}
  {
    assert GroupCallback(k, i).group == k;
  }

  lemma ComposedUnfinished(s: State, k: Job)
    requires k in s.flows && s.flows[k].Multiple? && ComposedAt(s, k)
    requires s.flows[k].group.status in {RUNNING, FAILED} || s.flows[k].job.status in {RUNNING, FAILED}
    ensures s.flows[k].composed.status in {RUNNING, FAILED}
  {
  }

  /** A flow that asked for a job's result is itself running or failed while the job is. */
  lemma RequesterUnfinished(g: Graph, p: PropMap, s: State, k: Job, i: nat)
    requires Inv(g, p, s) && k in g.deps && i < |g.deps[k]| && s.handed[GroupCallback(k, i)] > 0
    requires g.deps[k][i] in s.flows && s.flows[g.deps[k][i]].GetStatus() in {RUNNING, FAILED}
    ensures k in s.flows && s.flows[k].GetStatus() in {RUNNING, FAILED}
  {
    InvShape(g, p, s);
    assert Fits(g, s) && s.flows[k].Multiple?;
    hide Inv, Shape, Conserved, Truthful, PropsOk, RequestsOk, FlowOk, JobOk, NotifyOk, ComposedAt, TriesOk, GroupOk;
    FlowParts(g, s, k);
    GroupUnfinished(g, s, k, i);
    ComposedUnfinished(s, k);
  }

  lemma {:induction false} RootUnfinished(g: Graph, p: PropMap, s: State, rank: map<Job, nat>, bound: nat, d: Job)
    requires Inv(g, p, s) && g.RankedBy(rank) && (forall k :: k in g.deps ==> rank[k] <= bound)
    requires d in s.flows && s.flows[d].GetStatus() in {RUNNING, FAILED} && d in g.deps
    ensures g.root in s.flows && s.flows[g.root].GetStatus() in {RUNNING, FAILED}
    decreases bound - rank[d]
  {
    InvShape(g, p, s);
    RequestOf(g, s, d);
    hide Inv;
    if d != g.root {
      var k, i: nat :| k in g.deps && i < |g.deps[k]| && g.deps[k][i] == d && s.handed[GroupCallback(k, i)] > 0;
      RequesterUnfinished(g, p, s, k, i);
      RootUnfinished(g, p, s, rank, bound, k);
    }
  }

  /** A wrapped job that runs or failed keeps its flow from being done. */
  lemma JobUnfinished(g: Graph, p: PropMap, s: State, j: Job)
    requires Inv(g, p, s) && j in s.flows && s.flows[j].job.status in {RUNNING, FAILED}
    ensures s.flows[j].GetStatus() in {RUNNING, FAILED}
  {
    InvShape(g, p, s);
    hide Inv, Shape, Conserved, Truthful, PropsOk, RequestsOk, FlowOk, JobOk, NotifyOk, ComposedAt, TriesOk, GroupOk;
    FlowParts(g, s, j);
    if s.flows[j].Multiple? { ComposedUnfinished(s, j); }
  }

  /** A flow that failed has a failed job at or below it. */
  lemma {:induction false} FailureHasCause(g: Graph, p: PropMap, s: State, rank: map<Job, nat>, k: Job) returns (j: Job)
    requires Inv(g, p, s) && g.RankedBy(rank) && k in g.deps && k in s.flows && s.flows[k].GetStatus() == FAILED
    ensures j in s.flows && s.flows[j].job.status == FAILED
    decreases rank[k]
  {
    InvShape(g, p, s);
    FlowParts(g, s, k);
    j := k;
    if s.flows[k].job.status != FAILED {
      FailedGroup(g, s, k);
      var i :| 0 <= i < |g.deps[k]| && s.flows[g.deps[k][i]].GetStatus() == FAILED;
      j := FailureHasCause(g, p, s, rank, g.deps[k][i]);
    }
  }

  lemma FailedGroup(g: Graph, s: State, k: Job)
    requires Shape(g, s) && Truthful(g, s) && k in s.flows && s.flows[k].Multiple? && ComposedAt(s, k)
    requires GroupOk(g, s, k)
    requires s.flows[k].composed.status == FAILED && s.flows[k].job.status != FAILED
    ensures exists i :: 0 <= i < |g.deps[k]| && s.flows[g.deps[k][i]].GetStatus() == FAILED
  {
    LoggedTrue(g, s, Completion(DependeeCallback(k), FAILED));
    LoggedTrue(g, s, Completion(DependerCallback(k), FAILED));
  }

  lemma CallerHearsTruth(g: Graph, p: PropMap, s: State, v: Status)
    requires Inv(g, p, s) && Completion(Caller, v) in s.completions
    ensures g.root in s.flows && Settles(s.flows[g.root].GetStatus(), v) && IsVerdict(v)
  {
    InvShape(g, p, s);
    LoggedTrue(g, s, Completion(Caller, v));
  }

  /** Once the caller has been told SUCCEEDED, no job is running and none has failed. */
  lemma {:induction false} SuccessIsFinal(g: Graph, p: PropMap, run: seq<State>, i: nat, rank: map<Job, nat>, j: Job)
    requires RunOf(g, p, run) && i < |run| && g.RankedBy(rank) && j in g.deps
    requires Completion(Caller, SUCCEEDED) in run[i].completions
    ensures j in run[i].flows && run[i].flows[j].job.status !in {RUNNING, FAILED}
    ensures run[i].flows[j].GetStatus() !in {RUNNING, FAILED}
  {
    var s := run[i];
    InvRun(g, p, run, i);
    InvShape(g, p, s);
    CallerHearsTruth(g, p, s, SUCCEEDED);
    var bound := RankBound(rank, g.deps.Keys);
    hide RunOf, Inv;
    if s.flows[j].job.status in {RUNNING, FAILED} { JobUnfinished(g, p, s, j); }
    if s.flows[j].GetStatus() in {RUNNING, FAILED} { RootUnfinished(g, p, s, rank, bound, j); }
  }

  /** The caller is told FAILED only if some job has failed. */
  lemma {:induction false} FailureIsReal(g: Graph, p: PropMap, run: seq<State>, i: nat, rank: map<Job, nat>)
    returns (j: Job)
    requires RunOf(g, p, run) && i < |run| && g.RankedBy(rank)
    requires Completion(Caller, FAILED) in run[i].completions
    ensures j in run[i].flows && run[i].flows[j].job.status == FAILED
  {
    InvRun(g, p, run, i);
    CallerHearsTruth(g, p, run[i], FAILED);
    j := FailureHasCause(g, p, run[i], rank, g.root);
  }

  /** At the end of a run the caller has been told exactly one verdict, and it is SUCCEEDED
      if and only if no job failed. */
  lemma {:induction false} VerdictAtTheEnd(g: Graph, p: PropMap, run: seq<State>, rank: map<Job, nat>)
    requires RunOf(g, p, run) && g.RankedBy(rank) && run[|run| - 1].pending == []
    ensures var s := run[|run| - 1];
            && Answered(s, Caller) == 1
            && (Completion(Caller, SUCCEEDED) in s.completions <==>
                  forall j :: j in s.flows ==> s.flows[j].job.status != FAILED)
  {
    var s := run[|run| - 1];
    InvRun(g, p, run, |run| - 1);
    InvShape(g, p, s);
    ExactlyOnceAtTheEnd(g, p, run, rank, Caller);
    assert s.flows.Keys == g.deps.Keys;
    hide Inv, FlowOk, Shape, Conserved, Truthful, PropsOk, RequestsOk, RunOf;
    if Completion(Caller, SUCCEEDED) in s.completions {
      forall j | j in s.flows ensures s.flows[j].job.status != FAILED {
        SuccessIsFinal(g, p, run, |run| - 1, rank, j);
      }
    } else {
      var j := FailureIsReal(g, p, run, |run| - 1, rank);
    }
  }
}
