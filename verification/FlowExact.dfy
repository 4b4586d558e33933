/** Exactly when a job can start although one of its transitive dependencies fails. */
module FlowExact {
  import opened FlowTypes
  import opened FlowSteps
  import opened FlowInvariant
  import opened FlowGroupSteps
  import opened FlowJobSteps
  import opened FlowDeliverSteps
  import opened FlowRuns
  import opened FlowTheorems
  import opened FlowOutcome
  import opened FlowTermination
  import opened FlowThreads
  import opened FlowSchedules
  import opened FlowRestart

  // ---- What can be read off before the run ----

  predicate DependsOn(g: Graph, k: Job, d: Job) {
    k in g.deps && d in g.deps[k]
  }

  /** A path from the root whose flows are all ready, so that each will be executed unless a failure
      comes first. */
  ghost predicate LivePath(g: Graph, flows: map<Job, Flow>, path: seq<Job>) {
    && path != [] && path[0] == g.root
    && (forall i, j {:trigger path[i], path[j]} :: 0 <= i < j == i + 1 < |path| ==> DependsOn(g, path[i], path[j]))
    && (forall x :: x in path ==> x in flows && flows[x].GetStatus() == READY)
  }

  ghost predicate Live(g: Graph, flows: map<Job, Flow>, j: Job) {
    j in flows && flows[j].job.status == READY && exists path :: LivePath(g, flows, path) && path[|path| - 1] == j
  }

  /** A path of dependencies from c down to e without a completed job strictly between. */
  ghost predicate OpenPath(g: Graph, flows: map<Job, Flow>, c: Job, e: Job) {
    exists path :: DependencyPath(g, path) && path[0] == c && path[|path| - 1] == e && UnmarkedAtStart(g, flows, path)
  }

  /** In this run of threads job e has failed and job c has started. */
  ghost predicate ShowsDespite(g: Graph, p: PropMap, flows: map<Job, Flow>, c: Job, e: Job, run: seq<Machine>) {
    && ThreadRunOf(g, p, run) && run[0].flows == flows
    && var m := run[|run| - 1]; m.started[c] > 0 && e in m.flows && m.flows[e].job.status == FAILED
  }

  /** Threads can run the flow so that job e fails and job c starts. */
  ghost predicate StartsDespite(g: Graph, p: PropMap, flows: map<Job, Flow>, c: Job, e: Job) {
    exists run: seq<Machine> :: ShowsDespite(g, p, flows, c, e, run)
  }

  /** Even threads that do not interrupt each other can. */
  ghost predicate StartsByTurns(g: Graph, p: PropMap, flows: map<Job, Flow>, c: Job, e: Job) {
    exists run: seq<Machine> :: ShowsDespite(g, p, flows, c, e, run) && OneAtATime(g, run)
  }

  // ---- How a job's status moves ----

  ghost predicate JobMove(t: Task, c: Choice, k: Job, st: Status, st': Status) {
    || st' == st
    || (t.Enter? && st == READY && st' == RUNNING)
    || (t.Enter? && st == IGNORED && st' == COMPLETED)
    || (t == Run(k) && st' == (if c.ok then SUCCEEDED else FAILED))
    || (t == Load(k) && !c.ok && st' == FAILED)
  }

  lemma EnterJobMove(g: Graph, s: State, n: Node, p: PropMap, cb: Callback)
    requires Fits(g, s) && g.IsNode(n)
    ensures var e := EnterEffect(g, s, n, p, cb);
            && e.job in s.flows
            && (e.flow.job.status == s.flows[e.job].job.status
                || (s.flows[e.job].job.status == READY && e.flow.job.status == RUNNING && Load(e.job) in e.spawned)
                || (s.flows[e.job].job.status == IGNORED && e.flow.job.status == COMPLETED))
  {
    hide Tries;
    match n {
      case IndividualNode(_) =>
      case ComposedNode(_) => hide EnterNode;
      case GroupedNode(_) => hide EnterNode;
    }
  }

  /** What a step says about the job it touches. */
  ghost predicate JobEffect(s: State, t: Task, c: Choice, e: Effect) {
    && e.job in s.flows && JobMove(t, c, e.job, s.flows[e.job].job.status, e.flow.job.status)
    && (s.flows[e.job].job.status != RUNNING && e.flow.job.status == RUNNING ==> Load(e.job) in e.spawned)
    && (t.Load? && c.ok ==> e.launched == multiset{t.job})
  }

  lemma DeliverJobMove(g: Graph, s: State, cb: Callback, v: Status)
    requires Fits(g, s) && g.IsCallback(cb)
    ensures var e := DeliverEffect(g, s, cb, v); e.job in s.flows && e.flow.job == s.flows[e.job].job
  {
    hide UpdateGroup, Deliveries;
  }

  lemma OtherJobMove(g: Graph, s: State, t: Task, c: Choice)
    requires Fits(g, s) && TaskFits(g, t) && !t.Enter? && !t.Deliver?
    ensures JobEffect(s, t, c, StepEffect(g, s, t, c))
  {
    hide EnterEffect, DeliverEffect, Deliveries;
  }

  lemma StepJobMove(g: Graph, s: State, t: Task, c: Choice)
    requires Fits(g, s) && TaskFits(g, t)
    ensures JobEffect(s, t, c, StepEffect(g, s, t, c))
  {
    hide EnterEffect, DeliverEffect, Deliveries;
    if t.Enter? {
      assert g.IsNode(t.target);
      EnterJobMove(g, s, t.target, t.props, t.callback);
    } else if t.Deliver? {
      DeliverJobMove(g, s, t.callback, t.verdict);
    } else {
      hide JobEffect;
      OtherJobMove(g, s, t, c);
    }
  }

  /** A pending Load or Run belongs to a running job. */
  lemma PendingJobRuns(g: Graph, p: PropMap, s: State, t: Task)
    requires Inv(g, p, s) && t in s.pending && (t.Load? || t.Run?)
    ensures t.job in s.flows && s.flows[t.job].job.status == RUNNING
  {
    hide Inv, Shape, Conserved, Truthful, PropsOk, RequestsOk, FlowOk, ComposedAt, TriesOk, GroupOk, NotifyOk;
    InvShape(g, p, s);
    TaskOf(g, s, t);
    FlowParts(g, s, t.job);
    assert multiset(s.pending)[t] > 0;
  }

  // ---- A job that failed or finished was ready at the start ----

  lemma FailedStep(g: Graph, p: PropMap, s: State, s': State, j: Job)
    requires Inv(g, p, s) && Next(g, s, s') && j in s'.flows && s'.flows[j].job.status == FAILED
    ensures j in s.flows && s.flows[j].job.status in {FAILED, RUNNING}
  {
    hide StepEffect, Inv, TaskFits, Without;
    var i: nat, c: Choice :| StepsTo(g, s, i, c, s');
    var t := s.pending[i];
    StepJobMove(g, s, t, c);
    if t.Load? || t.Run? { PendingJobRuns(g, p, s, t); }
  }

  lemma StartStatus(g: Graph, p: PropMap, run: seq<State>, j: Job)
    requires RunOf(g, p, run) && j in run[0].flows
    ensures run[0].flows[j].job.status in {READY, IGNORED, COMPLETED, SUCCEEDED}
  {
    assert AtRest(g, p, run[0].flows, j);
  }

  lemma {:induction false} FailedWasReady(g: Graph, p: PropMap, run: seq<State>, i: nat, j: Job)
    requires RunOf(g, p, run) && i < |run| && j in run[i].flows && run[i].flows[j].job.status in {FAILED, RUNNING}
    ensures j in run[0].flows && run[0].flows[j].job.status == READY
  {
    hide RunOf, Inv, Next;
    if run[i].flows[j].job.status == RUNNING {
      UntouchedFromStart(g, p, run, i, j);
      ReadyFromUntouched(g, p, run, j);
    } else if i == 0 {
      StartStatus(g, p, run, j);
    } else {
      RunFits(g, p, run, i);
      RunFits(g, p, run, i - 1);
      FailedStep(g, p, run[i - 1], run[i], j);
      FailedWasReady(g, p, run, i - 1, j);
    }
  }

  lemma ReadyFromUntouched(g: Graph, p: PropMap, run: seq<State>, j: Job)
    requires RunOf(g, p, run) && Untouched(run[0], j)
    ensures j in run[0].flows && run[0].flows[j].job.status == READY
  {
    StartStatus(g, p, run, j);
  }

  /** A flow that runs or has failed was ready at the start. */
  lemma UnfinishedWasReady(g: Graph, p: PropMap, run: seq<State>, i: nat, k: Job)
    requires RunOf(g, p, run) && i < |run| && k in run[i].flows && run[i].flows[k].GetStatus() in {RUNNING, FAILED}
    ensures k in run[0].flows && run[0].flows[k].GetStatus() == READY
  {
    hide RunOf, Inv, Shape, Conserved, Truthful, PropsOk, RequestsOk, FlowOk, TriesOk, GroupOk, NotifyOk, JobOk;
    InvRun(g, p, run, i);
    InvShape(g, p, run[i]);
    FlowParts(g, run[i], k);
    RunKeys(g, p, run, i, k);
    if run[i].flows[k].Multiple? {
      UnenteredFromStart(g, p, run, i, k);
      NothingHanded(g, p, run, k);
    } else {
      FailedWasReady(g, p, run, i, k);
    }
  }

  lemma RunKeys(g: Graph, p: PropMap, run: seq<State>, i: nat, k: Job)
    requires RunOf(g, p, run) && i < |run| && k in run[i].flows
    ensures k in g.deps && k in run[0].flows && (run[i].flows[k].Single? <==> run[0].flows[k].Single?)
  {
    hide RunOf, Inv;
    RunFits(g, p, run, i);
    RunFits(g, p, run, 0);
  }

  lemma NothingHanded(g: Graph, p: PropMap, run: seq<State>, k: Job)
    requires RunOf(g, p, run)
    ensures run[0].handed[DependeeCallback(k)] == 0
  {
  }

  // ---- One direction: what a run that starts c despite e shows about the start ----

  lemma PathDownOne(g: Graph, flows: map<Job, Flow>, path: seq<Job>, d: Job)
    requires LivePath(g, flows, path) && path[|path| - 1] in g.deps && d in g.deps[path[|path| - 1]]
    requires d in flows && flows[d].GetStatus() == READY
    ensures LivePath(g, flows, path + [d])
  {
    var longer := path + [d];
    forall i | 0 < i < |longer| ensures DependsOn(g, longer[i - 1], longer[i]) {
      if i < |path| { assert longer[i] == path[i]; }
    }
  }

  lemma {:induction false} LiveUp(g: Graph, p: PropMap, run: seq<State>, i: nat, rank: map<Job, nat>, bound: nat,
                                  d: Job)
    returns (path: seq<Job>)
    requires RunOf(g, p, run) && i < |run| && g.RankedBy(rank) && (forall k :: k in g.deps ==> rank[k] <= bound)
    requires d in run[i].flows && d in g.deps && run[i].flows[d].GetStatus() in {RUNNING, FAILED}
    ensures LivePath(g, run[0].flows, path) && path[|path| - 1] == d
    decreases bound - rank[d]
  {
    hide RunOf, Inv, Conserved, Truthful, PropsOk, RequestsOk, FlowOk, LivePath;
    InvRun(g, p, run, i);
    InvShape(g, p, run[i]);
    UnfinishedWasReady(g, p, run, i, d);
    if d == g.root {
      path := [d];
      LiveRoot(g, run[0].flows);
    } else {
      RequestOf(g, run[i], d);
      var k, x: nat :| k in g.deps && x < |g.deps[k]| && g.deps[k][x] == d && run[i].handed[GroupCallback(k, x)] > 0;
      RequesterUnfinished(g, p, run[i], k, x);
      var up := LiveUp(g, p, run, i, rank, bound, k);
      PathDownOne(g, run[0].flows, up, d);
      path := up + [d];
    }
  }

  lemma LiveRoot(g: Graph, flows: map<Job, Flow>)
    requires g.root in flows && flows[g.root].GetStatus() == READY
    ensures LivePath(g, flows, [g.root])
  {
  }

  lemma StartStep(g: Graph, p: PropMap, s: State, s': State, c: Job)
    requires Inv(g, p, s) && Next(g, s, s') && s.started[c] == 0 && s'.started[c] > 0
    ensures c in s.flows && s.flows[c].job.status == RUNNING
  {
    hide StepEffect, Inv, TaskFits, Without;
    var i: nat, ch: Choice :| StepsTo(g, s, i, ch, s');
    var t := s.pending[i];
    LaunchesOnLoad(g, s, t, ch, c);
    PendingJobRuns(g, p, s, t);
  }

  lemma NothingStarted(g: Graph, p: PropMap, run: seq<State>, c: Job)
    requires RunOf(g, p, run)
    ensures run[0].started[c] == 0
  {
  }

  /** A job that has started was running at some moment. */
  lemma {:induction false} StartMoment(g: Graph, p: PropMap, run: seq<State>, i: nat, c: Job) returns (m: nat)
    requires RunOf(g, p, run) && i < |run| && run[i].started[c] > 0
    ensures m <= i && c in run[m].flows && run[m].flows[c].job.status == RUNNING
  {
    hide RunOf, Inv, Next;
    NothingStarted(g, p, run, c);
    if i > 0 {
      if run[i - 1].started[c] > 0 {
        m := StartMoment(g, p, run, i - 1, c);
      } else {
        RunFits(g, p, run, i);
        RunFits(g, p, run, i - 1);
        m := i - 1;
        StartStep(g, p, run[i - 1], run[i], c);
      }
    }
  }

  /** A job seen running or failed was live before the run. */
  lemma LiveBefore(g: Graph, p: PropMap, run: seq<State>, i: nat, rank: map<Job, nat>, j: Job)
    requires RunOf(g, p, run) && i < |run| && g.RankedBy(rank)
    requires j in run[i].flows && run[i].flows[j].job.status in {RUNNING, FAILED}
    ensures Live(g, run[0].flows, j)
  {
    hide RunOf, Inv, LivePath;
    InvRun(g, p, run, i);
    JobUnfinished(g, p, run[i], j);
    RunKeys(g, p, run, i, j);
    var bound := RankBound(rank, g.deps.Keys);
    var path := LiveUp(g, p, run, i, rank, bound, j);
    FailedWasReady(g, p, run, i, j);
  }

  lemma NoOpenPath(g: Graph, p: PropMap, run: seq<State>, i: nat, c: Job, e: Job)
    requires RunOf(g, p, run) && i < |run| && run[i].started[c] > 0
    requires e in run[i].flows && run[i].flows[e].job.status == FAILED
    ensures !OpenPath(g, run[0].flows, c, e)
  {
    hide RunOf, Inv, DependencyPath, UnmarkedAtStart, Unmarked;
    InvRun(g, p, run, i);
    JobUnfinished(g, p, run[i], e);
    forall path | DependencyPath(g, path) && |path| > 0 && path[0] == c && path[|path| - 1] == e
      ensures !UnmarkedAtStart(g, run[0].flows, path)
    {
      if UnmarkedAtStart(g, run[0].flows, path) {
        UnmarkedStays(g, p, run, i, path);
        NoStartAboveUnfinished(g, p, run, i, path);
      }
    }
    PathLength(g);
  }

  lemma PathLength(g: Graph)
    ensures forall path :: DependencyPath(g, path) ==> |path| > 0
  {
  }

  /** What a run that starts c although e fails shows about the flows it began with. */
  lemma {:induction false} Necessary(g: Graph, p: PropMap, flows: map<Job, Flow>, rank: map<Job, nat>, c: Job, e: Job)
    requires g.RankedBy(rank) && StartsDespite(g, p, flows, c, e)
    ensures Live(g, flows, c) && Live(g, flows, e) && !OpenPath(g, flows, c, e)
  {
    var threads: seq<Machine> :| ShowsDespite(g, p, flows, c, e, threads);
    assert |threads| > 0;
    var run := ThreadRunsAreRuns(g, p, threads);
    var last := |run| - 1;
    assert Models(run[0], threads[0]) && Models(run[last], threads[last]);
    hide RunOf, ThreadRunOf, Live, OpenPath;
    var m := StartMoment(g, p, run, last, c);
    LiveBefore(g, p, run, m, rank, c);
    LiveBefore(g, p, run, last, rank, e);
    NoOpenPath(g, p, run, last, c, e);
  }

  // ---- The other direction: a run in which all goes well, except that e is kept waiting ----

  /** So far no job has failed, and e has not ended. */
  ghost predicate AllWell(s: State, e: Job) {
    && e in s.flows && s.flows[e].job.status != SUCCEEDED
    && forall j :: j in s.flows ==> s.flows[j].job.status != FAILED
  }

  /** A job that runs or succeeded was launched, or is about to be. */
  ghost predicate Launched(s: State, j: Job) {
    j in s.flows && s.flows[j].job.status in {RUNNING, SUCCEEDED} ==> s.started[j] + multiset(s.pending)[Load(j)] > 0
  }

  const GOOD := Choice(true, map[])

  lemma WellStep(g: Graph, s: State, i: nat, e: Job)
    requires Fits(g, s) && i < |s.pending| && TaskFits(g, s.pending[i]) && AllWell(s, e) && s.pending[i] != Run(e)
    ensures AllWell(Apply(s, i, StepEffect(g, s, s.pending[i], GOOD)), e)
  {
    hide StepEffect, TaskFits, Without;
    StepJobMove(g, s, s.pending[i], GOOD);
  }

  lemma LaunchStep(s: State, i: nat, e: Effect, j: Job)
    requires i < |s.pending| && Launched(s, j) && JobEffect(s, s.pending[i], GOOD, e)
    requires e.job == j ==> s.pending[i].Run? ==> s.flows[j].job.status == RUNNING
    ensures Launched(Apply(s, i, e), j)
  {
    CountStep(s, i, e, Load(j));
    hide Without;
    if s.pending[i] == Load(j) { assert e.launched[j] == 1; }
    if Load(j) in e.spawned { assert multiset(e.spawned)[Load(j)] > 0; }
  }

  lemma LaunchesStep(g: Graph, p: PropMap, s: State, i: nat, j: Job)
    requires Inv(g, p, s) && Fits(g, s) && i < |s.pending| && TaskFits(g, s.pending[i]) && Launched(s, j)
    ensures Launched(Apply(s, i, StepEffect(g, s, s.pending[i], GOOD)), j)
  {
    hide StepEffect, TaskFits, Inv, Apply, Launched, JobEffect;
    var t := s.pending[i];
    var e := StepEffect(g, s, t, GOOD);
    StepJobMove(g, s, t, GOOD);
    RunMove(g, p, s, t);
    LaunchStep(s, i, e, j);
  }

  lemma RunMove(g: Graph, p: PropMap, s: State, t: Task)
    requires Inv(g, p, s) && Fits(g, s) && TaskFits(g, t) && t in s.pending
    ensures t.Run? ==>
              StepEffect(g, s, t, GOOD).job in s.flows && s.flows[StepEffect(g, s, t, GOOD).job].job.status == RUNNING
  {
    hide Inv;
    if t.Run? { PendingJobRuns(g, p, s, t); }
  }

  /** Only the thread of job e is still at work. */
  ghost predicate Kept(s: State, e: Job) {
    forall t :: t in s.pending ==> t == Run(e)
  }

  /** All has gone well, and c was launched if it could be. */
  ghost predicate Promising(s: State, e: Job, c: Job) {
    AllWell(s, e) && Launched(s, c)
  }

  lemma GoodStepOn(g: Graph, p: PropMap, h: History, x: nat, e: Job, c: Job) returns (h': History)
    requires Follows(g, p, h) && h.Whole() && h.MayGoOn(x) && h.Now().threads[x][0] != Run(e)
    requires Promising(h.Bag(), e, c) && Fits(g, h.Bag())
    ensures Follows(g, p, h') && h'.Whole() && h'.StartsLike(h)
    ensures Promising(h'.Bag(), e, c) && Fits(g, h'.Bag()) && Work(g, h'.Bag()) < Work(g, h.Bag())
  {
    hide Follows, Models, RunOf, ThreadRunOf, Inv, AllWell, Launched, Work, StepEffect, Apply, TaskFits, Next, Fits,
         ByTurns;
    FollowsParts(g, p, h);
    var i, h1 := Advance(g, p, h, x, GOOD);
    h' := h1;
    WellStep(g, h.Bag(), i, e);
    LaunchesStep(g, p, h.Bag(), i, c);
    StepSpends(g, p, h.Bag(), h'.Bag());
    FollowsParts(g, p, h');
  }

  /** A thread that may go on without e's. */
  lemma NotKept(g: Graph, p: PropMap, h: History, e: Job) returns (x: nat)
    requires Follows(g, p, h) && h.Whole() && !Kept(h.Bag(), e)
    ensures h.MayGoOn(x) && h.Now().threads[x][0] != Run(e)
  {
    hide ThreadRunOf, RunOf, ByTurns;
    var threads := h.Now().threads;
    if h.turns != [] && threads[h.turns[|h.turns| - 1]] != [] {
      x := h.turns[|h.turns| - 1];
    } else {
      var t :| t in h.Bag().pending && t != Run(e);
      assert t in multiset(h.Bag().pending);
      x := FlattenSource(threads, t);
    }
    assert threads[x][0] in threads[x];
  }

  /** Threads that have gone well can go on until only e's keeps the run from its end. */
  lemma {:induction false} RunUntilKept(g: Graph, p: PropMap, h: History, e: Job, c: Job) returns (h': History)
    requires Follows(g, p, h) && h.Whole() && Promising(h.Bag(), e, c) && Fits(g, h.Bag())
    ensures Follows(g, p, h') && h'.Whole() && h'.StartsLike(h)
    ensures Promising(h'.Bag(), e, c) && Kept(h'.Bag(), e)
    decreases Work(g, h.Bag())
  {
    hide Follows, Inv, Promising, Work, Fits, Kept;
    FollowsParts(g, p, h);
    if Kept(h.Bag(), e) {
      h' := h;
    } else {
      var x := NotKept(g, p, h, e);
      var h1 := GoodStepOn(g, p, h, x, e, c);
      h' := RunUntilKept(g, p, h1, e, c);
    }
  }

  // ---- What is left when only e keeps the run from its end ----

  lemma KeptRuns(s: State, e: Job)
    requires Kept(s, e)
    ensures OnlyRuns(s) && forall k :: k != e ==> Run(k) !in s.pending
  {
  }

  lemma NoFlowFailed(g: Graph, p: PropMap, s: State, rank: map<Job, nat>, e: Job, k: Job)
    requires Inv(g, p, s) && g.RankedBy(rank) && AllWell(s, e) && k in s.flows && k in g.deps
    ensures s.flows[k].GetStatus() != FAILED
  {
    hide Inv;
    if s.flows[k].GetStatus() == FAILED {
      var j := FailureHasCause(g, p, s, rank, k);
    }
  }

  /** A callback that was handed out and is not carried has reached an object that runs or is done. */
  lemma HomeEntered(g: Graph, s: State, cb: Callback)
    requires Shape(g, s) && Conserved(g, s) && Truthful(g, s) && OnlyRuns(s) && g.IsCallback(cb) && s.handed[cb] > 0
    requires g.Home(cb).job in s.flows
    requires (g.Home(cb).GroupedNode? ==> s.flows[g.Home(cb).job].Multiple? && ComposedAt(s, g.Home(cb).job))
    ensures var st := StatusAt(s.flows[g.Home(cb).job], g.Home(cb)); st in {RUNNING, FAILED} || IsDone(st)
  {
    hide Conserved, Truthful;
    Waiting(g, s, cb);
    if Owed(g, s, cb) > 0 {
      OwedRuns(g, s, cb);
    } else if s.completions[Completion(cb, SUCCEEDED)] > 0 {
      LoggedTrue(g, s, Completion(cb, SUCCEEDED));
    } else {
      LoggedTrue(g, s, Completion(cb, FAILED));
    }
  }

  lemma OwedRuns(g: Graph, s: State, cb: Callback)
    requires Fits(g, s) && g.IsCallback(cb) && g.Home(cb).job in s.flows && Owed(g, s, cb) > 0
    requires g.Home(cb).GroupedNode? ==> s.flows[g.Home(cb).job].Multiple? && ComposedAt(s, g.Home(cb).job)
    ensures var st := StatusAt(s.flows[g.Home(cb).job], g.Home(cb)); st in {RUNNING, FAILED} || IsDone(st)
  {
  }

  ghost predicate IsEntered(f: Flow) {
    f.GetStatus() in {RUNNING, SUCCEEDED, COMPLETED}
  }

  lemma GroupEntered(g: Graph, p: PropMap, s: State, rank: map<Job, nat>, e: Job, k: Job)
    requires Inv(g, p, s) && g.RankedBy(rank) && Kept(s, e) && AllWell(s, e) && k in s.flows && s.flows[k].Multiple?
    requires s.flows[k].composed.status == RUNNING
    ensures s.flows[k].group.status in {RUNNING, SUCCEEDED}
  {
    hide Inv, Conserved, Truthful, PropsOk, RequestsOk, FlowOk, TriesOk, NotifyOk, JobOk, GroupOk, AllWell;
    InvShape(g, p, s);
    FlowParts(g, s, k);
    KeptRuns(s, e);
    var cb := DependeeCallback(k);
    assert g.IsCallback(cb) && g.Home(cb) == GroupedNode(k);
    HomeEntered(g, s, cb);
    if s.flows[k].group.status == FAILED {
      var i := FailedChild(g, s, k);
      NoFlowFailed(g, p, s, rank, e, g.deps[k][i]);
    }
  }

  lemma FailedChild(g: Graph, s: State, k: Job) returns (i: nat)
    requires Fits(g, s) && k in s.flows && s.flows[k].Multiple? && GroupOk(g, s, k) && s.flows[k].group.status == FAILED
    ensures i < |g.deps[k]| && g.deps[k][i] in s.flows && g.deps[k][i] in g.deps
    ensures s.flows[g.deps[k][i]].GetStatus() == FAILED
  {
    i :| 0 <= i < |g.deps[k]| && s.flows[g.deps[k][i]].GetStatus() == FAILED;
  }

  lemma GroupChildEntered(g: Graph, p: PropMap, s: State, rank: map<Job, nat>, e: Job, k: Job, i: nat)
    requires Inv(g, p, s) && g.RankedBy(rank) && Kept(s, e) && AllWell(s, e) && k in s.flows && s.flows[k].Multiple?
    requires i < |g.deps[k]| && s.flows[k].group.status == RUNNING && g.deps[k][i] in s.flows && g.deps[k][i] in g.deps
    ensures IsEntered(s.flows[g.deps[k][i]])
  {
    hide Inv, Conserved, Truthful, PropsOk, RequestsOk, FlowOk, TriesOk, NotifyOk, JobOk, GroupOk, ComposedAt, AllWell,
         Shape;
    InvShape(g, p, s);
    FlowParts(g, s, k);
    KeptRuns(s, e);
    TriedAll(s, k, |g.deps[k]|, i);
    var cb := GroupCallback(k, i);
    assert g.IsCallback(cb) && g.Home(cb) == g.Front(g.deps[k][i]);
    FrontStatus(g, s, g.deps[k][i]);
    HomeEntered(g, s, cb);
    NoFlowFailed(g, p, s, rank, e, g.deps[k][i]);
  }

  lemma FrontStatus(g: Graph, s: State, k: Job)
    requires Fits(g, s) && k in s.flows && k in g.deps
    ensures !g.Front(k).GroupedNode? && g.Front(k).job == k
    ensures g.Front(k).IndividualNode? || s.flows[k].Multiple?
    ensures StatusAt(s.flows[k], g.Front(k)) == s.flows[k].GetStatus()
  {
  }

  lemma ChildEntered(g: Graph, p: PropMap, s: State, rank: map<Job, nat>, e: Job, k: Job, i: nat)
    requires Inv(g, p, s) && g.RankedBy(rank) && Kept(s, e) && AllWell(s, e) && k in s.flows && k in g.deps
    requires i < |g.deps[k]|
    requires s.flows[k].GetStatus() in {RUNNING, SUCCEEDED}
    ensures g.deps[k][i] in s.flows && IsEntered(s.flows[g.deps[k][i]])
  {
    hide Inv, Conserved, Truthful, PropsOk, RequestsOk, FlowOk, TriesOk, NotifyOk, JobOk, GroupOk, ComposedAt, AllWell,
         Kept;
    InvShape(g, p, s);
    FlowParts(g, s, k);
    assert g.deps[k][i] in g.deps && s.flows[k].Multiple?;
    if s.flows[k].GetStatus() == SUCCEEDED {
      SuccessBelow(g, p, s, k);
      assert g.deps[k][i] in g.deps[k];
    } else {
      GroupEntered(g, p, s, rank, e, k);
      if s.flows[k].group.status == RUNNING {
        GroupChildEntered(g, p, s, rank, e, k, i);
      } else {
        DoneChildren(g, s, k, i);
      }
    }
  }

  lemma DoneChildren(g: Graph, s: State, k: Job, i: nat)
    requires Fits(g, s) && k in s.flows && s.flows[k].Multiple? && GroupOk(g, s, k) && i < |g.deps[k]|
    requires s.flows[k].group.status == SUCCEEDED
    ensures g.deps[k][i] in s.flows && IsEntered(s.flows[g.deps[k][i]])
  {
  }

  lemma RootEntered(g: Graph, p: PropMap, s: State, rank: map<Job, nat>, e: Job)
    requires Inv(g, p, s) && g.RankedBy(rank) && Kept(s, e) && AllWell(s, e)
    ensures g.root in s.flows && IsEntered(s.flows[g.root])
  {
    hide Inv, Conserved, Truthful, PropsOk, FlowOk, TriesOk, NotifyOk, JobOk, GroupOk, ComposedAt, AllWell, Shape;
    InvShape(g, p, s);
    KeptRuns(s, e);
    RootFits(g, s);
    FrontStatus(g, s, g.root);
    HomeEntered(g, s, Caller);
    NoFlowFailed(g, p, s, rank, e, g.root);
  }

  lemma RootFits(g: Graph, s: State)
    requires Shape(g, s)
    ensures Fits(g, s) && g.root in s.flows && g.root in g.deps && g.IsCallback(Caller)
    ensures g.Home(Caller) == g.Front(g.root)
  {
  }

  // ---- Marks are only ever set before the run ----

  lemma MarkStep(g: Graph, p: PropMap, s: State, s': State, j: Job)
    requires Inv(g, p, s) && Next(g, s, s') && j in s'.flows && s'.flows[j].job.status in {COMPLETED, IGNORED}
    ensures j in s.flows && s.flows[j].job.status in {COMPLETED, IGNORED}
  {
    hide StepEffect, Inv, TaskFits, Without;
    var i: nat, c: Choice :| StepsTo(g, s, i, c, s');
    StepJobMove(g, s, s.pending[i], c);
  }

  lemma {:induction false} JobMarkedBefore(g: Graph, p: PropMap, run: seq<State>, i: nat, j: Job)
    requires RunOf(g, p, run) && i < |run| && j in run[i].flows && run[i].flows[j].job.status in {COMPLETED, IGNORED}
    ensures j in run[0].flows && run[0].flows[j].job.status in {COMPLETED, IGNORED}
  {
    hide RunOf, Inv, Next;
    if i > 0 {
      RunFits(g, p, run, i);
      RunFits(g, p, run, i - 1);
      MarkStep(g, p, run[i - 1], run[i], j);
      JobMarkedBefore(g, p, run, i - 1, j);
    }
  }

  lemma StaysUnmarked(g: Graph, p: PropMap, run: seq<State>, i: nat, k: Job)
    requires RunOf(g, p, run) && i < |run| && k in run[i].flows && k in run[0].flows
    requires run[0].flows[k].GetStatus() == READY
    ensures run[i].flows[k].GetStatus() != COMPLETED
  {
    hide RunOf;
    RunKeys(g, p, run, i, k);
    if run[i].flows[k].GetStatus() == COMPLETED {
      if run[i].flows[k].Multiple? { MarksStay(g, p, run, i, k); } else { JobMarkedBefore(g, p, run, i, k); }
    }
  }

  /** Every job at the end of a live path has been executed by then. */
  lemma {:induction false} LiveEntered(g: Graph, p: PropMap, run: seq<State>, rank: map<Job, nat>, e: Job,
                                       path: seq<Job>)
    requires RunOf(g, p, run) && g.RankedBy(rank) && LivePath(g, run[0].flows, path)
    requires Kept(run[|run| - 1], e) && AllWell(run[|run| - 1], e)
    ensures var k := path[|path| - 1];
              k in run[|run| - 1].flows && run[|run| - 1].flows[k].GetStatus() in {RUNNING, SUCCEEDED}
    decreases |path|
  {
    hide RunOf, Inv, Kept, AllWell, LivePath, DependsOn;
    NonEmpty(g, p, run);
    LiveEnd(g, run[0].flows, path);
    var n := |path| - 1;
    InvRun(g, p, run, |run| - 1);
    if n == 0 {
      RootEntered(g, p, run[|run| - 1], rank, e);
    } else {
      ShorterPath(g, run[0].flows, path);
      LiveEntered(g, p, run, rank, e, path[..n]);
      var i := ChildIndex(g, path[n - 1], path[n]);
      ChildEntered(g, p, run[|run| - 1], rank, e, path[n - 1], i);
    }
    StaysUnmarked(g, p, run, |run| - 1, path[n]);
  }

  lemma LiveEnd(g: Graph, flows: map<Job, Flow>, path: seq<Job>)
    requires LivePath(g, flows, path)
    ensures |path| > 0 && path[|path| - 1] in flows && flows[path[|path| - 1]].GetStatus() == READY
    ensures |path| == 1 ==> path[0] == g.root
    ensures |path| > 1 ==> DependsOn(g, path[|path| - 2], path[|path| - 1])
  {
    assert path[|path| - 1] in path;
  }

  lemma ChildIndex(g: Graph, k: Job, d: Job) returns (i: nat)
    requires DependsOn(g, k, d)
    ensures k in g.deps && i < |g.deps[k]| && g.deps[k][i] == d
  {
    i :| 0 <= i < |g.deps[k]| && g.deps[k][i] == d;
  }

  lemma ShorterPath(g: Graph, flows: map<Job, Flow>, path: seq<Job>)
    requires LivePath(g, flows, path) && |path| > 1
    ensures LivePath(g, flows, path[..|path| - 1])
  {
    var q := path[..|path| - 1];
    forall i | 0 < i < |q| ensures DependsOn(g, q[i - 1], q[i]) { assert q[i] == path[i]; }
  }

  // ---- c has started, e is still at work ----

  lemma OpenOn(g: Graph, flows: map<Job, Flow>, k: Job, d: Job, e: Job)
    requires g.Closed() && DependsOn(g, k, d)
    requires (d == e || (OpenPath(g, flows, d, e) && d in flows && flows[d].GetStatus() == READY))
    ensures OpenPath(g, flows, k, e)
  {
    assert k in g.deps && d in g.deps by {
      var i :| 0 <= i < |g.deps[k]| && g.deps[k][i] == d;
      assert g.deps[k][i] in g.deps;
    }
    if d == e {
      assert DependencyPath(g, [k, e]) && UnmarkedAtStart(g, flows, [k, e]);
      assert [k, e][0] == k && [k, e][|[k, e]| - 1] == e;
    } else {
      var q :| DependencyPath(g, q) && q[0] == d && q[|q| - 1] == e && UnmarkedAtStart(g, flows, q);
      var path := [k] + q;
      forall i | 0 <= i < |path| - 1 ensures path[i + 1] in g.deps[path[i]] {
        if i > 0 { assert q[i - 1 + 1] in g.deps[q[i - 1]]; }
      }
      forall i | 0 < i < |path| - 1
        ensures path[i] in flows && !(flows[path[i]].Multiple? && flows[path[i]].composed.status == COMPLETED)
      {
        if i > 1 { assert path[i] == q[i - 1]; }
      }
      assert DependencyPath(g, path) && path[0] == k && path[|path| - 1] == e && UnmarkedAtStart(g, flows, path);
    }
  }

  /** A flow other than e's that still runs waits for a dependency that runs. */
  lemma WaitsForChild(g: Graph, p: PropMap, s: State, e: Job, k: Job) returns (d: Job)
    requires Inv(g, p, s) && Kept(s, e) && k != e && k in s.flows && s.flows[k].GetStatus() == RUNNING
    ensures DependsOn(g, k, d) && d in s.flows && d in g.deps && s.flows[d].GetStatus() == RUNNING
  {
    hide Inv, Kept, Conserved, Truthful, PropsOk, RequestsOk, FlowOk, JobOk, TriesOk, GroupOk, NotifyOk, ComposedAt;
    InvShape(g, p, s);
    FlowParts(g, s, k);
    KeptRuns(s, e);
    IdleJob(s, k);
    IdleNotify(s, k, |g.deps[k]|);
    if s.flows[k].group.status != RUNNING { ComposedWaits(g, s, k); }
    var i := RunningGroupWaits(g, s, k);
    d := g.deps[k][i];
  }

  lemma ClosedKeys(g: Graph, p: PropMap, s: State, rank: map<Job, nat>, k: Job, d: Job)
    requires Inv(g, p, s) && g.RankedBy(rank) && DependsOn(g, k, d)
    ensures rank[d] < rank[k] && g.Closed()
  {
    var i :| 0 <= i < |g.deps[k]| && g.deps[k][i] == d;
  }

  /** Whatever else is still running then waits for e. */
  lemma {:induction false} WaitsForE(g: Graph, p: PropMap, run: seq<State>, rank: map<Job, nat>, e: Job, k: Job)
    requires RunOf(g, p, run) && g.RankedBy(rank) && Kept(run[|run| - 1], e) && k != e && k in g.deps
    requires k in run[|run| - 1].flows && run[|run| - 1].flows[k].GetStatus() == RUNNING
    ensures OpenPath(g, run[0].flows, k, e)
    decreases rank[k]
  {
    hide RunOf, Inv, Kept, OpenPath, DependsOn;
    NonEmpty(g, p, run);
    var s := run[|run| - 1];
    InvRun(g, p, run, |run| - 1);
    var d := WaitsForChild(g, p, s, e, k);
    UnfinishedWasReady(g, p, run, |run| - 1, d);
    ClosedKeys(g, p, s, rank, k, d);
    if d != e { WaitsForE(g, p, run, rank, e, d); }
    OpenOn(g, run[0].flows, k, d, e);
  }

  lemma SucceededJob(g: Graph, p: PropMap, s: State, k: Job)
    requires Inv(g, p, s) && k in s.flows && s.flows[k].GetStatus() == SUCCEEDED
    ensures IsDone(s.flows[k].job.status)
  {
    hide Inv, Shape, Conserved, Truthful, PropsOk, RequestsOk, FlowOk, JobOk, TriesOk, GroupOk, NotifyOk;
    InvShape(g, p, s);
    FlowParts(g, s, k);
  }

  lemma EntersLive(g: Graph, p: PropMap, run: seq<State>, rank: map<Job, nat>, e: Job, k: Job)
    requires RunOf(g, p, run) && g.RankedBy(rank) && Live(g, run[0].flows, k)
    requires Kept(run[|run| - 1], e) && AllWell(run[|run| - 1], e)
    ensures var s := run[|run| - 1];
            && k in s.flows && k in g.deps && s.flows[k].GetStatus() in {RUNNING, SUCCEEDED}
            && (s.flows[k].GetStatus() == SUCCEEDED ==> s.flows[k].job.status == SUCCEEDED)
  {
    assert |run| > 0;
    var path :| LivePath(g, run[0].flows, path) && path[|path| - 1] == k;
    hide RunOf, Inv, Kept, AllWell, LivePath;
    LiveEntered(g, p, run, rank, e, path);
    InvRun(g, p, run, |run| - 1);
    RunKeys(g, p, run, |run| - 1, k);
    if run[|run| - 1].flows[k].GetStatus() == SUCCEEDED {
      SucceededJob(g, p, run[|run| - 1], k);
      if run[|run| - 1].flows[k].job.status == COMPLETED { JobMarkedBefore(g, p, run, |run| - 1, k); }
    }
  }

  /** e's thread is at work. */
  lemma EAtWork(g: Graph, p: PropMap, run: seq<State>, rank: map<Job, nat>, e: Job)
    requires RunOf(g, p, run) && g.RankedBy(rank) && Live(g, run[0].flows, e)
    requires Kept(run[|run| - 1], e) && AllWell(run[|run| - 1], e)
    ensures Run(e) in run[|run| - 1].pending
  {
    hide RunOf, Inv, Live, Idle;
    NonEmpty(g, p, run);
    var s := run[|run| - 1];
    EntersLive(g, p, run, rank, e, e);
    if s.pending == [] {
      InvRun(g, p, run, |run| - 1);
      NothingRuns(g, p, s, rank, e);
      IdleFront(s.flows[e]);
    } else {
      assert s.pending[0] in s.pending;
    }
  }

  lemma IdleFront(f: Flow)
    requires Idle(f)
    ensures f.GetStatus() != RUNNING
  {
  }

  lemma CHasStarted(g: Graph, p: PropMap, run: seq<State>, rank: map<Job, nat>, e: Job, c: Job)
    requires RunOf(g, p, run) && g.RankedBy(rank) && Live(g, run[0].flows, c) && c != e
    requires !OpenPath(g, run[0].flows, c, e)
    requires Kept(run[|run| - 1], e) && AllWell(run[|run| - 1], e) && Launched(run[|run| - 1], c)
    ensures run[|run| - 1].started[c] > 0
  {
    var s := run[|run| - 1];
    hide RunOf, Inv, OpenPath, Live, AllWell;
    EntersLive(g, p, run, rank, e, c);
    if s.flows[c].GetStatus() == RUNNING { WaitsForE(g, p, run, rank, e, c); }
    KeptRuns(s, e);
    NoOthers(s, Load(c));
  }

  // ---- The run begins, and ends with e's failure ----

  lemma BeginsWell(g: Graph, p: PropMap, flows: map<Job, Flow>, e: Job, c: Job)
    requires Startable(g, p, flows) && e in flows && flows[e].job.status == READY
    requires c in flows && flows[c].job.status == READY
    ensures g.root in g.deps && Follows(g, p, BeginHistory(g, p, flows))
    ensures Fits(g, Launch(g, flows, p)) && Promising(Launch(g, flows, p), e, c)
  {
    StartableIsWell(g, p, flows, e, c);
    hide Startable, Promising, Follows;
    BeginThreads(g, p, flows);
    FollowsParts(g, p, BeginHistory(g, p, flows));
  }

  lemma StartableIsWell(g: Graph, p: PropMap, flows: map<Job, Flow>, e: Job, c: Job)
    requires Startable(g, p, flows) && e in flows && flows[e].job.status == READY
    requires c in flows && flows[c].job.status == READY
    ensures g.root in g.deps && Promising(Launch(g, flows, p), e, c)
  {
    forall k | k in flows ensures flows[k].job.status != FAILED { assert AtRest(g, p, flows, k); }
  }

  const BAD := Choice(false, map[])

  lemma HeadIsPending(s: State, m: Machine, y: nat)
    requires Models(s, m) && y < |m.threads| && m.threads[y] != []
    ensures m.threads[y][0] in m.threads[y] && m.threads[y][0] in s.pending
  {
    FlattenMember(m.threads, y, m.threads[y][0]);
    assert m.threads[y][0] in multiset(s.pending);
  }

  /** When only e is at work, its thread may go on: no other has anything left to do. */
  lemma ThreadOf(g: Graph, p: PropMap, h: History, e: Job) returns (x: nat)
    requires Follows(g, p, h) && h.Whole() && Kept(h.Bag(), e) && Run(e) in h.Bag().pending
    ensures h.MayGoOn(x) && h.Now().threads[x] == [Run(e)]
  {
    hide ThreadRunOf, RunOf, ByTurns;
    var threads := h.Now().threads;
    assert Run(e) in multiset(h.Bag().pending);
    x := FlattenSource(threads, Run(e));
    if h.turns != [] && threads[h.turns[|h.turns| - 1]] != [] {
      HeadIsPending(h.Bag(), h.Now(), h.turns[|h.turns| - 1]);
    }
  }

  /** Now e's thread, which has nothing else on its stack, goes on and fails. */
  lemma EFails(g: Graph, p: PropMap, h: History, e: Job) returns (h': History)
    requires Follows(g, p, h) && h.Whole() && Kept(h.Bag(), e) && Run(e) in h.Bag().pending
    ensures Follows(g, p, h') && h'.Whole() && h'.StartsLike(h) && h.bags <= h'.bags
    ensures var s := h'.Bag();
            && Fits(g, s) && s.started == h.Bag().started && e in s.flows && s.flows[e].job.status == FAILED
  {
    hide Follows, Models, RunOf, ThreadRunOf, Inv, TaskFits, Next, Fits, StepEffect, Apply, RunsAlone, ByTurns, Kept;
    var x := ThreadOf(g, p, h, e);
    FollowsParts(g, p, h);
    var i, h1 := Advance(g, p, h, x, BAD);
    h' := h1;
    RunFails(g, h.Bag(), i, e);
    FollowsParts(g, p, h');
  }

  lemma RunFails(g: Graph, s: State, i: nat, e: Job)
    requires Fits(g, s) && i < |s.pending| && s.pending[i] == Run(e) && TaskFits(g, s.pending[i])
    ensures var s' := Apply(s, i, StepEffect(g, s, s.pending[i], BAD));
            s'.started == s.started && e in s'.flows && s'.flows[e].job.status == FAILED
  {
    hide Deliveries, Without;
  }

  lemma {:induction false} Sufficient(g: Graph, p: PropMap, flows: map<Job, Flow>, rank: map<Job, nat>, c: Job, e: Job)
    requires g.RankedBy(rank) && Startable(g, p, flows)
    requires c != e && Live(g, flows, c) && Live(g, flows, e) && !OpenPath(g, flows, c, e)
    ensures StartsByTurns(g, p, flows, c, e)
  {
    BeginsWell(g, p, flows, e, c);
    hide Follows, RunOf, ThreadRunOf, AllWell, Launched, Live, OpenPath, Kept, Fits, Startable, Models, OneAtATime, Inv;
    var h := RunUntilKept(g, p, BeginHistory(g, p, flows), e, c);
    FollowsParts(g, p, h);
    EAtWork(g, p, h.bags, rank, e);
    CHasStarted(g, p, h.bags, rank, e, c);
    var end := EFails(g, p, h, e);
    FollowsParts(g, p, end);
    assert ShowsDespite(g, p, flows, c, e, end.run);
  }

  /** A job may start although another one has failed exactly if both are live before the run and no
      dependency path leads from the one to the other but through a job marked as completed. For a
      transitive dependent this is when the rule that it must not start is broken. It makes no difference
      whether threads may interrupt each other. */
  lemma {:induction false} StartsDespiteIff(g: Graph, p: PropMap, flows: map<Job, Flow>, rank: map<Job, nat>, c: Job,
                                            e: Job)
    requires g.RankedBy(rank) && Startable(g, p, flows) && c != e
    ensures StartsDespite(g, p, flows, c, e) <==> Live(g, flows, c) && Live(g, flows, e) && !OpenPath(g, flows, c, e)
    ensures StartsByTurns(g, p, flows, c, e) <==> StartsDespite(g, p, flows, c, e)
  {
    hide ShowsDespite, Live, OpenPath, Startable, OneAtATime;
    if StartsDespite(g, p, flows, c, e) { Necessary(g, p, flows, rank, c, e); }
    if Live(g, flows, c) && Live(g, flows, e) && !OpenPath(g, flows, c, e) { Sufficient(g, p, flows, rank, c, e); }
  }
}
