/** What jobs return and what their dependents are given, told by what the jobs' threads did. */
module FlowOutputs {
  import opened FlowTypes
  import opened FlowSteps
  import opened FlowInvariant
  import opened FlowRuns
  import opened FlowTheorems
  import opened FlowOutcome
  import opened FlowRestart
  import opened FlowExact

  // ---- Runs with their moves ----

  /** Which pending task was done, and what the world chose. */
  datatype Move = Move(index: nat, choice: Choice)

  ghost predicate Traced(g: Graph, run: seq<State>, trace: seq<Move>) {
    && |run| == |trace| + 1
    && forall m, n {:trigger run[m], run[n]} :: 0 <= m < n == m + 1 < |run| ==>
         StepsTo(g, run[m], trace[m].index, trace[m].choice, run[n])
  }

  /** Every run can be told so. */
  lemma {:induction false} TraceExists(g: Graph, run: seq<State>) returns (trace: seq<Move>)
    requires IsRun(g, run)
    ensures Traced(g, run, trace)
  {
    hide StepsTo;
    if |run| == 1 {
      trace := [];
    } else {
      var last := |run| - 1;
      var before := run[..last];
      forall m, n | 0 <= m < n == m + 1 < |before| ensures Next(g, before[m], before[n]) {
        assert Next(g, run[m], run[n]);
      }
      var t := TraceExists(g, before);
      assert Next(g, run[last - 1], run[last]);
      var i: nat, c: Choice :| StepsTo(g, run[last - 1], i, c, run[last]);
      trace := t + [Move(i, c)];
      forall m, n | 0 <= m < n == m + 1 < |run| ensures StepsTo(g, run[m], trace[m].index, trace[m].choice, run[n]) {
        if n < last { assert StepsTo(g, before[m], t[m].index, t[m].choice, before[n]); }
      }
    }
  }

  lemma TracedStep(g: Graph, p: PropMap, run: seq<State>, trace: seq<Move>, n: nat)
    requires RunOf(g, p, run) && Traced(g, run, trace) && 0 < n < |run|
    ensures |run| == |trace| + 1
    ensures StepsTo(g, run[n - 1], trace[n - 1].index, trace[n - 1].choice, run[n])
    ensures Inv(g, p, run[n - 1]) && Inv(g, p, run[n]) && Fits(g, run[n - 1]) && Fits(g, run[n])
    ensures Next(g, run[n - 1], run[n])
  {
    hide StepsTo, Inv, Next;
    RunFits(g, p, run, n);
    RunFits(g, p, run, n - 1);
    assert run[n] == run[n];
  }

  /** Move m did this task. */
  predicate Did(run: seq<State>, trace: seq<Move>, m: nat, t: Task) {
    m < |run| && m < |trace| && trace[m].index < |run[m].pending| && run[m].pending[trace[m].index] == t
  }

  /** The thread of job j ended well in this move. */
  predicate EndsWell(run: seq<State>, trace: seq<Move>, m: nat, j: Job) {
    Did(run, trace, m, Run(j)) && trace[m].choice.ok
  }

  /** The thread of job j ended badly in this move, or the job could not be loaded. */
  predicate EndsBadly(run: seq<State>, trace: seq<Move>, m: nat, j: Job) {
    (Did(run, trace, m, Run(j)) || Did(run, trace, m, Load(j))) && !trace[m].choice.ok
  }

  // ---- A job is as its thread left it ----

  /** Only a job's own thread changes what the job returns, and only an entered group returns anything new. */
  ghost predicate SameReturns(f: Flow, f': Flow) {
    && f'.job.returnProps == f.job.returnProps
    && (f'.Multiple? <==> f.Multiple?)
    && (f'.Multiple? && f'.group.status == READY ==>
          f.group.status == READY && f'.group.returnProps == f.group.returnProps)
  }

  lemma EnterNodeReturns(kind: Kind, n: NodeState, p: PropMap, cb: Callback)
    ensures var m := EnterNode(kind, n, p, cb).0;
            m.returnProps == n.returnProps && (m.status == READY ==> n.status == READY)
  {
  }

  lemma EnterReturns(g: Graph, s: State, n: Node, p: PropMap, cb: Callback)
    requires Fits(g, s) && g.IsNode(n)
    ensures var e := EnterEffect(g, s, n, p, cb); e.job in s.flows && SameReturns(s.flows[e.job], e.flow)
  {
    hide Tries, EnterNode, SameReturns;
    match n {
      case IndividualNode(_) => EnterJobReturns(g, s, n, p, cb);
      case ComposedNode(_) => EnterComposedReturns(g, s, n, p, cb);
      case GroupedNode(_) => EnterGroupReturns(g, s, n, p, cb);
    }
  }

  lemma EnterJobReturns(g: Graph, s: State, n: Node, p: PropMap, cb: Callback)
    requires Fits(g, s) && g.IsNode(n) && n.IndividualNode?
    ensures var e := EnterEffect(g, s, n, p, cb); e.job in s.flows && SameReturns(s.flows[e.job], e.flow)
  {
    hide Tries, EnterNode;
    EnterNodeReturns(Individual, s.flows[n.job].job, p, cb);
  }

  lemma EnterComposedReturns(g: Graph, s: State, n: Node, p: PropMap, cb: Callback)
    requires Fits(g, s) && g.IsNode(n) && n.ComposedNode?
    ensures var e := EnterEffect(g, s, n, p, cb); e.job in s.flows && SameReturns(s.flows[e.job], e.flow)
  {
    hide Tries, EnterNode;
  }

  lemma EnterGroupReturns(g: Graph, s: State, n: Node, p: PropMap, cb: Callback)
    requires Fits(g, s) && g.IsNode(n) && n.GroupedNode?
    ensures var e := EnterEffect(g, s, n, p, cb); e.job in s.flows && SameReturns(s.flows[e.job], e.flow)
  {
    hide Tries, EnterNode;
    EnterNodeReturns(Grouped, s.flows[n.job].group, p, cb);
  }

  lemma DeliverReturns(g: Graph, s: State, cb: Callback, v: Status)
    requires Fits(g, s) && g.IsCallback(cb)
    ensures var e := DeliverEffect(g, s, cb, v);
            e.job in s.flows && e.flow.job == s.flows[e.job].job && SameReturns(s.flows[e.job], e.flow)
  {
    hide Deliveries, Merge;
  }

  /** What one step does to what job j returns. */
  lemma ReturnStep(g: Graph, s: State, i: nat, c: Choice, s': State, j: Job)
    requires StepsTo(g, s, i, c, s') && j in s.flows
    ensures j in s'.flows
    ensures s'.flows[j].job.returnProps ==
              if s.pending[i] == Run(j) then Some(if c.ok then c.output else map[]) else s.flows[j].job.returnProps
  {
    hide EnterEffect, DeliverEffect, Deliveries, Without;
    var t := s.pending[i];
    if t.Enter? {
      assert g.IsNode(t.target);
      EnterReturns(g, s, t.target, t.props, t.callback);
    } else if t.Deliver? {
      DeliverReturns(g, s, t.callback, t.verdict);
    }
  }

  /** What one step does to the status of job j. */
  lemma StatusStep(g: Graph, s: State, i: nat, c: Choice, s': State, j: Job)
    requires StepsTo(g, s, i, c, s') && j in s.flows
    ensures j in s'.flows
    ensures var t, st, st' := s.pending[i], s.flows[j].job.status, s'.flows[j].job.status;
            if t == Run(j) then st' == if c.ok then SUCCEEDED else FAILED
            else if t == Load(j) && !c.ok then st' == FAILED
            else st' == st || (st == READY && st' == RUNNING) || (st == IGNORED && st' == COMPLETED)
  {
    hide EnterEffect, DeliverEffect, Deliveries, Without;
    var t := s.pending[i];
    if t.Enter? {
      assert g.IsNode(t.target);
      EnterJobMove(g, s, t.target, t.props, t.callback);
    } else if t.Deliver? {
      DeliverReturns(g, s, t.callback, t.verdict);
    }
  }

  /** A job whose thread ended well keeps that thread's output, and its success, in every later state. */
  lemma {:induction false} GoodEndStays(g: Graph, p: PropMap, run: seq<State>, trace: seq<Move>, m: nat, n: nat, j: Job)
    requires RunOf(g, p, run) && Traced(g, run, trace) && m < n < |run| && EndsWell(run, trace, m, j)
    ensures j in run[n].flows
    ensures run[n].flows[j].job.status == SUCCEEDED
    ensures run[n].flows[j].job.returnProps == Some(trace[m].choice.output)
  {
    hide RunOf, Traced, Inv, StepsTo, Fits;
    TracedStep(g, p, run, trace, n);
    var s, i, c := run[n - 1], trace[n - 1].index, trace[n - 1].choice;
    TaskNames(g, s, i, c, run[n]);
    if m < n - 1 {
      GoodEndStays(g, p, run, trace, m, n - 1, j);
      if s.pending[i] in {Run(j), Load(j)} { PendingJobRuns(g, p, s, s.pending[i]); }
    }
    ReturnStep(g, s, i, c, run[n], j);
    StatusStep(g, s, i, c, run[n], j);
  }

  lemma TaskNames(g: Graph, s: State, i: nat, c: Choice, s': State)
    requires StepsTo(g, s, i, c, s')
    ensures i < |s.pending| && s.flows.Keys == s'.flows.Keys == g.deps.Keys
    ensures s.pending[i].Run? || s.pending[i].Load? ==> s.pending[i].job in s.flows
  {
    hide EnterEffect, DeliverEffect, Deliveries;
    EffectNames(g, s, s.pending[i], c);
  }

  lemma EffectNames(g: Graph, s: State, t: Task, c: Choice)
    requires Fits(g, s) && TaskFits(g, t)
    ensures StepEffect(g, s, t, c).job in s.flows
  {
    StepBackward(g, s, t, c);
  }

  /** A job has failed exactly if its thread ended badly or it could not be loaded. */
  lemma {:induction false} FailedIff(g: Graph, p: PropMap, run: seq<State>, trace: seq<Move>, n: nat, j: Job)
    requires RunOf(g, p, run) && Traced(g, run, trace) && n < |run| && j in g.deps
    ensures j in run[n].flows
    ensures run[n].flows[j].job.status == FAILED <==> exists m: nat :: m < n && EndsBadly(run, trace, m, j)
  {
    hide RunOf, Traced, Inv, StepsTo;
    RunFits(g, p, run, n);
    if n == 0 {
      StartStatus(g, p, run, j);
    } else {
      FailedIff(g, p, run, trace, n - 1, j);
      TracedStep(g, p, run, trace, n);
      var s, i, c := run[n - 1], trace[n - 1].index, trace[n - 1].choice;
      TaskNames(g, s, i, c, run[n]);
      StatusStep(g, s, i, c, run[n], j);
      if s.pending[i] in {Run(j), Load(j)} { PendingJobRuns(g, p, s, s.pending[i]); }
      if run[n].flows[j].job.status == FAILED && s.flows[j].job.status != FAILED {
        assert EndsBadly(run, trace, n - 1, j);
      }
      if m: nat :| m < n && EndsBadly(run, trace, m, j) {
        assert m == n - 1 || s.flows[j].job.status == FAILED;
      }
    }
  }

  /** A job has succeeded exactly if it had before the run, or its thread ended well. */
  lemma {:induction false} SucceededIff(g: Graph, p: PropMap, run: seq<State>, trace: seq<Move>, n: nat, j: Job)
    requires RunOf(g, p, run) && Traced(g, run, trace) && n < |run| && j in g.deps
    ensures j in run[0].flows && j in run[n].flows
    ensures run[n].flows[j].job.status == SUCCEEDED <==>
              run[0].flows[j].job.status == SUCCEEDED || exists m: nat :: m < n && EndsWell(run, trace, m, j)
  {
    hide RunOf, Traced, Inv, StepsTo;
    RunFits(g, p, run, n);
    if n > 0 {
      SucceededIff(g, p, run, trace, n - 1, j);
      TracedStep(g, p, run, trace, n);
      var s, i, c := run[n - 1], trace[n - 1].index, trace[n - 1].choice;
      TaskNames(g, s, i, c, run[n]);
      StatusStep(g, s, i, c, run[n], j);
      if s.pending[i] in {Run(j), Load(j)} { PendingJobRuns(g, p, s, s.pending[i]); }
      if run[n].flows[j].job.status == SUCCEEDED && s.flows[j].job.status != SUCCEEDED {
        assert EndsWell(run, trace, n - 1, j);
      }
      if m: nat :| m < n && EndsWell(run, trace, m, j) {
        assert m == n - 1 || s.flows[j].job.status == SUCCEEDED;
      }
    }
  }

  /** At the end of a run the caller has been told one verdict, and it is SUCCEEDED exactly if no job's
      thread ended badly and every job that was to be loaded could be. */
  lemma {:induction false} VerdictByThreads(g: Graph, p: PropMap, run: seq<State>, trace: seq<Move>,
                                            rank: map<Job, nat>)
    requires RunOf(g, p, run) && Traced(g, run, trace) && g.RankedBy(rank) && run[|run| - 1].pending == []
    ensures Answered(run[|run| - 1], Caller) == 1
    ensures Completion(Caller, SUCCEEDED) in run[|run| - 1].completions <==>
              forall m: nat, j :: m < |trace| && j in g.deps ==> !EndsBadly(run, trace, m, j)
  {
    hide RunOf, Traced, Inv, EndsBadly, Answered, Fits;
    var n := |run| - 1;
    TraceLength(g, p, run, trace);
    VerdictAtTheEnd(g, p, run, rank);
    RunFits(g, p, run, n);
    AllJobs(g, run[n]);
    forall j | j in g.deps
      ensures run[n].flows[j].job.status == FAILED <==> exists m: nat :: m < n && EndsBadly(run, trace, m, j)
    {
      FailedIff(g, p, run, trace, n, j);
    }
  }

  lemma TraceLength(g: Graph, p: PropMap, run: seq<State>, trace: seq<Move>)
    requires RunOf(g, p, run) && Traced(g, run, trace)
    ensures |run| == |trace| + 1
  {
  }

  lemma AllJobs(g: Graph, s: State)
    requires Fits(g, s)
    ensures s.flows.Keys == g.deps.Keys
  {
  }

  // ---- What a flow gives its dependents ----

  /** What job j's last thread before moment n left: its output, or nothing after a bad end. Without
      such a thread, what the job held when the run began. */
  ghost function Left(run: seq<State>, trace: seq<Move>, n: nat, j: Job): PropMap
    requires n < |run| && j in run[0].flows
  {
    if n == 0 then OrEmpty(run[0].flows[j].job.returnProps)
    else if EndsWell(run, trace, n - 1, j) then trace[n - 1].choice.output
    else if Did(run, trace, n - 1, Run(j)) then map[]
    else Left(run, trace, n - 1, j)
  }

  lemma {:induction false} ReturnsWhatThreadsLeft(g: Graph, p: PropMap, run: seq<State>, trace: seq<Move>, n: nat,
                                                  j: Job)
    requires RunOf(g, p, run) && Traced(g, run, trace) && n < |run| && j in g.deps
    ensures j in run[0].flows && j in run[n].flows
    ensures OrEmpty(run[n].flows[j].job.returnProps) == Left(run, trace, n, j)
  {
    hide RunOf, Traced, Inv, StepsTo;
    RunFits(g, p, run, n);
    if n > 0 {
      ReturnsWhatThreadsLeft(g, p, run, trace, n - 1, j);
      TracedStep(g, p, run, trace, n);
      ReturnStep(g, run[n - 1], trace[n - 1].index, trace[n - 1].choice, run[n], j);
      TaskNames(g, run[n - 1], trace[n - 1].index, trace[n - 1].choice, run[n]);
    }
  }

  /** A group that is still READY holds what it held at the start. */
  lemma {:induction false} ReadyGroup(g: Graph, p: PropMap, run: seq<State>, n: nat, k: Job)
    requires RunOf(g, p, run) && n < |run| && k in run[n].flows && run[n].flows[k].Multiple?
    requires run[n].flows[k].group.status == READY
    ensures k in run[0].flows && run[0].flows[k].Multiple?
    ensures run[n].flows[k].group.returnProps == run[0].flows[k].group.returnProps
  {
    hide RunOf, Inv, StepsTo;
    RunFits(g, p, run, n);
    if n > 0 {
      var i: nat, c: Choice :| StepsTo(g, run[n - 1], i, c, run[n]);
      GroupStep(g, run[n - 1], i, c, run[n], k);
      ReadyGroup(g, p, run, n - 1, k);
    }
  }

  lemma GroupStep(g: Graph, s: State, i: nat, c: Choice, s': State, k: Job)
    requires StepsTo(g, s, i, c, s') && k in s'.flows && s'.flows[k].Multiple? && s'.flows[k].group.status == READY
    ensures k in s.flows && s.flows[k].Multiple? && s.flows[k].group.status == READY
    ensures s.flows[k].group.returnProps == s'.flows[k].group.returnProps
  {
    hide EnterEffect, DeliverEffect, Deliveries, Without;
    var t := s.pending[i];
    EffectNames(g, s, t, c);
    if t.Enter? {
      assert g.IsNode(t.target);
      EnterReturns(g, s, t.target, t.props, t.callback);
    } else if t.Deliver? {
      DeliverReturns(g, s, t.callback, t.verdict);
    }
  }

  ghost predicate Covers(g: Graph, run: seq<State>, n: nat) {
    n < |run| && run[0].flows.Keys == run[n].flows.Keys == g.deps.Keys
  }

  lemma RunCovers(g: Graph, p: PropMap, run: seq<State>, n: nat)
    requires RunOf(g, p, run) && n < |run|
    ensures Covers(g, run, n)
  {
    hide RunOf, Inv;
    RunFits(g, p, run, n);
    RunFits(g, p, run, 0);
  }

  /** What job k's flow gives for a key at moment n: what the job left; failing that, once its group has
      succeeded, what the last dependency that gives the key does. */
  ghost function Given(g: Graph, rank: map<Job, nat>, run: seq<State>, trace: seq<Move>, n: nat, k: Job, key: string)
    : Option<string>
    requires g.RankedBy(rank) && k in g.deps && Covers(g, run, n)
    decreases rank[k], |g.deps[k]| + 1
  {
    var own, f, f0 := Left(run, trace, n, k), run[n].flows[k], run[0].flows[k];
    if key in own then Some(own[key])
    else if f.Single? || f0.Single? then None
    else if f.group.status == SUCCEEDED then LastGiven(g, rank, run, trace, n, k, |g.deps[k]|, key)
    else Lookup(OrEmpty(f0.group.returnProps), key)
  }

  /** The value of the last among the first i dependencies of k that gives the key. */
  ghost function LastGiven(g: Graph, rank: map<Job, nat>, run: seq<State>, trace: seq<Move>, n: nat, k: Job, i: nat,
                           key: string)
    : Option<string>
    requires g.RankedBy(rank) && k in g.deps && Covers(g, run, n)
    requires i <= |g.deps[k]|
    decreases rank[k], i
  {
    if i == 0 then None
    else
      var last := Given(g, rank, run, trace, n, g.deps[k][i - 1], key);
      if last.Some? then last else LastGiven(g, rank, run, trace, n, k, i - 1, key)
  }

  /** The group of a flow that is done has succeeded on dependencies that are done, or never ran. */
  lemma DoneGroup(g: Graph, p: PropMap, s: State, k: Job)
    requires Inv(g, p, s) && k in s.flows && s.flows[k].Multiple? && IsDone(s.flows[k].GetStatus())
    ensures Fits(g, s)
    ensures s.flows[k].group.status in {READY, SUCCEEDED}
    ensures s.flows[k].group.status == SUCCEEDED ==>
              && (forall d :: d in g.deps[k] ==> d in s.flows && IsDone(s.flows[d].GetStatus()))
              && s.flows[k].group.returnProps == Some(Merge(s.flows, g.deps[k]))
  {
    InvShape(g, p, s);
    hide Inv, Shape, Conserved, Truthful, PropsOk, RequestsOk, FlowOk, TriesOk, NotifyOk, JobOk, GroupOk, Merge;
    FlowParts(g, s, k);
    if s.flows[k].group.status == SUCCEEDED {
      SucceededGroup(g, s, k);
      GroupHoldsMerge(g, s, k);
    }
  }

  lemma GroupHoldsMerge(g: Graph, s: State, k: Job)
    requires Fits(g, s) && k in s.flows && s.flows[k].Multiple? && GroupOk(g, s, k)
    requires s.flows[k].group.status == SUCCEEDED
    ensures s.flows[k].group.returnProps == Some(Merge(s.flows, g.deps[k]))
  {
  }

  /** getReturnProps key by key: the job's own value of a key, else the group's. */
  lemma OutputAt(f: Flow, key: string)
    ensures Lookup(f.Output(), key) ==
              if key in OrEmpty(f.job.returnProps) then Some(OrEmpty(f.job.returnProps)[key])
              else if f.Single? then None
              else Lookup(OrEmpty(f.group.returnProps), key)
  {
  }

  /** A group's merge key by key, one child after the other: the later child's value, else what there was. */
  lemma MergeAt(flows: map<Job, Flow>, ds: seq<Job>, i: nat, key: string)
    requires i <= |ds| && forall d :: d in ds ==> d in flows
    ensures Lookup(Merge(flows, ds[..i]), key) ==
              if i == 0 then None
              else
                var child := Lookup(flows[ds[i - 1]].Output(), key);
                if child.Some? then child else Lookup(Merge(flows, ds[..i - 1]), key)
  {
    hide Flow.Output;
    if i > 0 { assert ds[..i][..i - 1] == ds[..i - 1]; }
  }

  /** The keys a done flow returns, and their values, are those its jobs' threads gave. */
  lemma {:induction false} ReturnsWhatIsGiven(g: Graph, p: PropMap, run: seq<State>, trace: seq<Move>, n: nat,
                                              rank: map<Job, nat>, k: Job, key: string)
    requires RunOf(g, p, run) && Traced(g, run, trace) && n < |run| && g.RankedBy(rank) && k in g.deps
    requires k in run[n].flows && IsDone(run[n].flows[k].GetStatus())
    ensures Covers(g, run, n)
    ensures Given(g, rank, run, trace, n, k, key) == Lookup(run[n].flows[k].Output(), key)
    decreases rank[k], |g.deps[k]| + 1
  {
    hide RunOf, Traced, Inv, Left, Merge, Flow.Output, LastGiven;
    RunCovers(g, p, run, n);
    RunFits(g, p, run, n);
    RunFits(g, p, run, 0);
    ReturnsWhatThreadsLeft(g, p, run, trace, n, k);
    OutputAt(run[n].flows[k], key);
    SameKind(g, run[0], run[n], k);
    if run[n].flows[k].Multiple? {
      DoneGroup(g, p, run[n], k);
      if run[n].flows[k].group.status == SUCCEEDED {
        MergesWhatIsGiven(g, p, run, trace, n, rank, k, |g.deps[k]|, key);
        assert g.deps[k][..|g.deps[k]|] == g.deps[k];
      } else {
        ReadyGroup(g, p, run, n, k);
      }
    }
  }

  lemma SameKind(g: Graph, s: State, s': State, k: Job)
    requires Fits(g, s) && Fits(g, s') && k in g.deps
    ensures k in s.flows && k in s'.flows && (s.flows[k].Single? <==> s'.flows[k].Single?)
  {
  }

  lemma {:induction false} MergesWhatIsGiven(g: Graph, p: PropMap, run: seq<State>, trace: seq<Move>, n: nat,
                                             rank: map<Job, nat>, k: Job, i: nat, key: string)
    requires RunOf(g, p, run) && Traced(g, run, trace) && n < |run| && g.RankedBy(rank) && k in g.deps
    requires i <= |g.deps[k]| && Covers(g, run, n)
    requires forall d :: d in g.deps[k] ==> d in run[n].flows && IsDone(run[n].flows[d].GetStatus())
    ensures LastGiven(g, rank, run, trace, n, k, i, key) == Lookup(Merge(run[n].flows, g.deps[k][..i]), key)
    decreases rank[k], i
  {
    hide RunOf, Traced, Inv, Given, Flow.Output, Left, Merge, Lookup;
    MergeAt(run[n].flows, g.deps[k], i, key);
    if i > 0 {
      ReturnsWhatIsGiven(g, p, run, trace, n, rank, g.deps[k][i - 1], key);
      MergesWhatIsGiven(g, p, run, trace, n, rank, k, i - 1, key);
    }
  }

  /** A job that has been started holds, for each key, the value that the last of its dependencies to give
      the key gave, and where none does the root's. */
  lemma {:induction false} StartedProps(g: Graph, p: PropMap, run: seq<State>, trace: seq<Move>, n: nat,
                                        rank: map<Job, nat>, k: Job, key: string)
    requires RunOf(g, p, run) && Traced(g, run, trace) && n < |run| && g.RankedBy(rank) && k in g.deps
    requires run[n].started[k] > 0
    ensures Covers(g, run, n) && run[n].flows[k].job.parentProps.Some?
    ensures var given := LastGiven(g, rank, run, trace, n, k, |g.deps[k]|, key);
            Lookup(run[n].flows[k].job.parentProps.value, key) == if given.Some? then given else Lookup(p, key)
  {
    hide RunOf, Traced, Inv, Merge, Given, Flow.Output, Left;
    RunCovers(g, p, run, n);
    StartedHolds(g, p, run, n, k);
    MergesWhatIsGiven(g, p, run, trace, n, rank, k, |g.deps[k]|, key);
    assert g.deps[k][..|g.deps[k]|] == g.deps[k];
  }

  lemma StartedHolds(g: Graph, p: PropMap, run: seq<State>, n: nat, k: Job)
    requires RunOf(g, p, run) && n < |run| && k in g.deps && run[n].started[k] > 0
    ensures forall d :: d in g.deps[k] ==> d in run[n].flows && IsDone(run[n].flows[d].GetStatus())
    ensures k in run[n].flows && run[n].flows[k].job.parentProps == Some(p + Merge(run[n].flows, g.deps[k]))
  {
    hide RunOf, Inv, FlowOk, Merge;
    RunFits(g, p, run, n);
    PropsAgree(g, p, run, n, k);
    InvShape(g, p, run[n]);
    StartedParts(g, run[n], k);
    if run[n].flows[k].Multiple? {
      RunningWasEntered(g, p, run[n], k);
      EnteredAfterDependencies(g, p, run[n], k);
    } else {
      NothingMerged(p, run[n].flows);
    }
  }

  lemma NothingMerged(p: PropMap, flows: map<Job, Flow>)
    ensures p + Merge(flows, []) == p
  {
  }

  lemma StartedParts(g: Graph, s: State, k: Job)
    requires Fits(g, s) && k in s.flows && FlowOk(g, s, k) && s.started[k] > 0
    ensures s.flows[k].Single? ==> s.flows[k].job.status in {RUNNING, SUCCEEDED, FAILED} && g.deps[k] == []
  {
    hide TriesOk, NotifyOk, GroupOk;
  }
}
