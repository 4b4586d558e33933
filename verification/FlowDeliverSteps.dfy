/** The steps that complete a callback. */
module FlowDeliverSteps {
  import opened FlowTypes
  import opened FlowSteps
  import opened FlowInvariant
  import opened FlowFrame
  import opened FlowStepParts
  import opened FlowGroupSteps
  import opened FlowJobSteps

  /** A callback about to be completed was handed out once, has not been completed before,
      and is not carried by any other task. */
  lemma OpenCallback(g: Graph, s: State, i: nat, cb: Callback)
    requires Shape(g, s) && Conserved(g, s) && i < |s.pending| && g.IsCallback(cb)
    requires CarriedBy(s.pending[i]) == multiset{cb} && s.handed[cb] <= 1
    ensures s.handed[cb] == 1 && Answered(s, cb) == 0
    ensures forall x :: x in Without(s.pending, i) ==> cb !in CarriedBy(x)
  {
    assert s.handed[cb] == Carried(s.pending)[cb] + Owed(g, s, cb) + Answered(s, cb);
    hide Shape, Conserved, Owed, Answered, CarriedBy, Carried, Without;
    CarriedRest(s.pending, i, cb);
    NotCarried(Without(s.pending, i), cb);
  }

  lemma CarriedRest(q: seq<Task>, i: nat, cb: Callback)
    requires i < |q| && CarriedBy(q[i]) == multiset{cb}
    ensures Carried(q)[cb] == Carried(Without(q, i))[cb] + 1
  {
    QueueStep(q, i, []);
    var w := Without(q, i);
    assert w + [] == w && Carried([]) == multiset{};
    hide Carried, CarriedBy, Without;
    assert (Carried(w) + CarriedBy(q[i]))[cb] == Carried(q)[cb];
  }

  lemma NotCarried(q: seq<Task>, cb: Callback)
    ensures Carried(q)[cb] == 0 ==> forall x :: x in q ==> cb !in CarriedBy(x)
  {
    hide Carried, CarriedBy;
    forall x | x in q && cb in CarriedBy(x) ensures Carried(q)[cb] > 0 { CarriedMember(q, x, cb); }
  }

  // ---- A child tells its group ----

  lemma ChildParts(g: Graph, p: PropMap, s: State, i: nat)
    requires Inv(g, p, s) && i < |s.pending| && s.pending[i].Deliver? && s.pending[i].callback.GroupCallback?
    ensures var cb := s.pending[i].callback; var k := cb.group;
            && TaskFits(g, s.pending[i]) && Fits(g, s) && k in s.flows && s.flows[k].Multiple? && FlowOk(g, s, k)
            && s.handed[cb] == 1 && Answered(s, cb) == 0
            && s.flows[k].group.status in {RUNNING, SUCCEEDED, FAILED}
            && s.handed[DependeeCallback(k)] == 1
  {
    hide Inv, Shape, Conserved, Truthful, PropsOk, RequestsOk, FlowOk, ComposedAt, GroupOk, NotifyOk, JobOk, TriesOk,
         Answered;
    var cb := s.pending[i].callback;
    var k := cb.group;
    InvShape(g, p, s);
    TaskOf(g, s, s.pending[i]);
    FlowParts(g, s, k);
    HandedAtMostOnce(s, k, |g.deps[k]|, cb.child);
    OpenCallback(g, s, i, cb);
    GroupAsked(s, k, |g.deps[k]|, cb.child);
    DependeeBound(s, k);
  }

  lemma HandedAtMostOnce(s: State, k: Job, n: nat, i: nat)
    requires k in s.flows && s.flows[k].Multiple? && TriesOk(s, k, n) && i < n
    ensures s.handed[GroupCallback(k, i)] <= 1
  {
    assert GroupCallback(k, i).group == k;
  }

  /** A group that has handed out a callback has been executed. */
  lemma GroupAsked(s: State, k: Job, n: nat, i: nat)
    requires k in s.flows && s.flows[k].Multiple? && TriesOk(s, k, n) && ComposedAt(s, k) && i < n
    requires s.handed[GroupCallback(k, i)] == 1
    ensures s.flows[k].group.status in {RUNNING, SUCCEEDED, FAILED} && s.handed[DependeeCallback(k)] > 0
  {
    assert GroupCallback(k, i).group == k;
  }

  lemma DependeeBound(s: State, k: Job)
    requires k in s.flows && s.flows[k].Multiple? && ComposedAt(s, k)
    ensures s.handed[DependeeCallback(k)] <= 1 && s.handed[DependerCallback(k)] <= 1
  {
  }

  /** What updateState makes of a group that has been entered. */
  lemma UpdateCases(g: Graph, s: State, k: Job)
    requires Fits(g, s) && k in s.flows && s.flows[k].Multiple? && GroupOk(g, s, k)
    requires s.flows[k].group.status in {RUNNING, SUCCEEDED, FAILED}
    ensures var ds, gr := g.deps[k], s.flows[k].group; var gr' := UpdateGroup(s.flows, ds, gr);
            && (gr.status == SUCCEEDED ==> gr' == gr)
            && (gr.status == FAILED ==> gr' == gr.(returnProps := Some(map[])))
            && (gr.status == RUNNING ==>
                  || gr' == gr
                  || gr' == gr.(status := FAILED, returnProps := Some(map[]))
                  || gr' == gr.(status := SUCCEEDED, returnProps := Some(Merge(s.flows, ds))))
            && (gr'.status == SUCCEEDED ==>
                  && (forall d :: d in ds ==> IsDone(s.flows[d].GetStatus()))
                  && gr'.returnProps == Some(Merge(s.flows, ds)))
            && (gr'.status == FAILED ==> exists d :: d in ds && s.flows[d].GetStatus() == FAILED)
            && (gr'.status == RUNNING ==>
                 exists d :: d in ds && s.flows[d].GetStatus() != FAILED && !IsDone(s.flows[d].GetStatus()))
  {
    var ds, gr := g.deps[k], s.flows[k].group;
    if gr.status == SUCCEEDED {
      assert forall d :: d in ds ==> IsDone(s.flows[d].GetStatus());
    } else if gr.status == FAILED {
      var c :| 0 <= c < |ds| && s.flows[ds[c]].GetStatus() == FAILED;
      assert ds[c] in ds;
    }
  }

  /** The group's flow after an update. */
  ghost predicate Updates(g: Graph, s: State, i: nat, e: Effect)
    requires Fits(g, s) && i < |s.pending|
  {
    var t := s.pending[i];
    && t.Deliver? && t.callback.GroupCallback? && g.IsCallback(t.callback) && IsVerdict(t.verdict)
    && var k := t.callback.group;
       && e == Same(s, k).(flow := e.flow, spawned := [ReadFirst(k, t.callback.child)],
                           completed := multiset{Completion(t.callback, t.verdict)})
       && s.flows[k].Multiple?
       && e.flow == s.flows[k].(group := UpdateGroup(s.flows, g.deps[k], s.flows[k].group))
  }

  lemma UpdateEffect(g: Graph, s: State, i: nat, c: Choice)
    requires Fits(g, s) && i < |s.pending| && TaskFits(g, s.pending[i])
    requires s.pending[i].Deliver? && s.pending[i].callback.GroupCallback?
    ensures var e := StepEffect(g, s, s.pending[i], c);
            && Updates(g, s, i, e) && e.job == s.pending[i].callback.group
            && Fits(g, Apply(s, i, e)) && LocalEffect(s.pending[i], e)
            && e.handed == multiset{}
  {
  }

  lemma UpdateShape(g: Graph, s: State, i: nat, e: Effect)
    requires Shape(g, s) && i < |s.pending| && Updates(g, s, i, e)
    ensures WellFormed(g, s, e) && Shape(g, Apply(s, i, e)) && SpeaksTruth(g, s, Apply(s, i, e), e)
  {
    assert forall m :: g.IsNode(m) && m.job == e.job ==> CallbacksAt(e.flow, m) == CallbacksAt(s.flows[e.job], m);
    HomesKept(g, s, e.job);
    ShapeStep(g, s, i, e);
  }

  lemma UpdateOwes(g: Graph, s: State, i: nat, e: Effect, m: Node)
    requires Fits(g, s) && i < |s.pending| && Updates(g, s, i, e) && g.IsNode(m)
    ensures OwedBy(Apply(s, i, e).flows[m.job], m) == OwedBy(s.flows[m.job], m)
  {
  }

  lemma UpdateLogs(g: Graph, s: State, i: nat, e: Effect)
    requires Fits(g, s) && i < |s.pending| && Updates(g, s, i, e)
    ensures e.job in s.flows && g.IsNode(GroupedNode(e.job)) && IsVerdictLog(s.pending[i], e.completed)
    ensures CarriedBy(s.pending[i]) == CompletedBy(s.pending[i]) && e.handed == multiset{}
    ensures Carried(e.spawned) == multiset{} && forall x :: x in e.spawned ==> x.ReadFirst?
  {
    CarriesNothing(e.spawned);
  }

  lemma PropsOf(g: Graph, p: PropMap, s: State, k: Job)
    requires Shape(g, s) && PropsOk(g, p, s) && k in s.flows
    ensures PropsAt(s.flows[k], p)
  {
  }

  lemma UpdateConserved(g: Graph, s: State, i: nat, e: Effect)
    requires Shape(g, s) && Conserved(g, s) && i < |s.pending| && Updates(g, s, i, e) && Shape(g, Apply(s, i, e))
    ensures Conserved(g, Apply(s, i, e))
  {
    UpdateLogs(g, s, i, e);
    hide Conserved, Updates, Apply, OwedBy, IsVerdictLog, CarriedBy, CompletedBy, Carried;
    forall m | g.IsNode(m) ensures OwedBy(Apply(s, i, e).flows[m.job], m) == OwedBy(s.flows[m.job], m) {
      UpdateOwes(g, s, i, e, m);
    }
    ConservedStep(g, s, i, e, GroupedNode(e.job));
  }

  /** While its group still runs, or once it has failed, the wrapped job has not been entered. */
  lemma DependerIdle(g: Graph, s: State, k: Job)
    requires Shape(g, s) && Truthful(g, s) && k in s.flows && s.flows[k].Multiple? && ComposedAt(s, k)
    requires s.flows[k].group.status in {RUNNING, FAILED}
    ensures s.handed[DependerCallback(k)] == 0
    ensures s.flows[k].job.status in {READY, IGNORED, COMPLETED}
    ensures !IsDone(s.flows[k].composed.status)
  {
    LoggedTrue(g, s, Completion(DependeeCallback(k), SUCCEEDED));
  }

  /** The verdicts in the log are true. */
  lemma LoggedTrue(g: Graph, s: State, c: Completion)
    requires Shape(g, s) && Truthful(g, s)
    ensures c in s.completions ==> g.IsCallback(c.callback) && TrueOf(g, s, c.callback, c.verdict)
  {
  }

  lemma UpdateForward(g: Graph, s: State, i: nat, e: Effect)
    requires Shape(g, s) && Truthful(g, s) && i < |s.pending| && Updates(g, s, i, e) && FlowOk(g, s, e.job)
    requires s.flows[e.job].group.status in {RUNNING, SUCCEEDED, FAILED}
    ensures Forward(s.flows[e.job], e.flow)
  {
    FlowParts(g, s, e.job);
    UpdateCases(g, s, e.job);
    if s.flows[e.job].group.status in {RUNNING, FAILED} {
      DependerIdle(g, s, e.job);
    }
  }

  /** Entries waiting at the wrapped job exist only after the group succeeded. */
  /** The group's update as far as props are concerned. */
  ghost predicate UpdatesProps(f: Flow, f': Flow) {
    && f.Multiple? && f'.Multiple? && f' == f.(group := f'.group)
    && f'.group.parentProps == f.group.parentProps
    && f.group.status in {RUNNING, SUCCEEDED, FAILED} && f'.group.status in {RUNNING, SUCCEEDED, FAILED}
    && (f.group.status == SUCCEEDED ==> f' == f)
  }

  lemma UpdatePropsAt(f: Flow, f': Flow, p: PropMap)
    requires UpdatesProps(f, f') && PropsAt(f, p)
    requires f.group.status in {RUNNING, FAILED} ==> f.job.status in {READY, IGNORED, COMPLETED}
    ensures PropsAt(f', p)
  {
  }

  lemma UpdateEntries(g: Graph, p: PropMap, s: State, i: nat, k: Job, f': Flow)
    requires Shape(g, s) && Conserved(g, s) && PropsOk(g, p, s) && i < |s.pending|
    requires k in s.flows && UpdatesProps(s.flows[k], f')
    requires s.flows[k].group.status in {RUNNING, FAILED} ==> s.handed[DependerCallback(k)] == 0
    ensures forall x :: x in Without(s.pending, i) && x.Enter? && x.target.job == k ==> EnterOk(f', p, x)
  {
    EntriesKept(g, p, s, i, k);
    forall x | x in Without(s.pending, i) && x.Enter? && x.target.job == k
      ensures EnterOk(f', p, x)
    {
      assert x in s.pending;
      EntryHanded(g, s, x);
    }
  }

  /** Before its group succeeds the wrapped job is idle. */
  ghost predicate DependerWaits(s: State, k: Job)
    requires k in s.flows && s.flows[k].Multiple?
  {
    s.flows[k].group.status in {RUNNING, FAILED} ==>
      s.handed[DependerCallback(k)] == 0 && s.flows[k].job.status in {READY, IGNORED, COMPLETED}
  }

  lemma UpdateWaits(g: Graph, s: State, i: nat, e: Effect)
    requires Shape(g, s) && Truthful(g, s) && i < |s.pending| && Updates(g, s, i, e) && FlowOk(g, s, e.job)
    requires s.flows[e.job].group.status in {RUNNING, SUCCEEDED, FAILED}
    ensures UpdatesProps(s.flows[e.job], e.flow) && DependerWaits(s, e.job)
  {
    FlowParts(g, s, e.job);
    UpdateKeepsProps(g, s, i, e);
    if s.flows[e.job].group.status in {RUNNING, FAILED} { DependerIdle(g, s, e.job); }
  }

  lemma UpdateProps(g: Graph, p: PropMap, s: State, i: nat, e: Effect)
    requires Shape(g, s) && Conserved(g, s) && PropsOk(g, p, s)
    requires i < |s.pending| && Updates(g, s, i, e)
    requires UpdatesProps(s.flows[e.job], e.flow) && DependerWaits(s, e.job)
    ensures CarriesProps(g, p, s, i, e)
  {
    PropsOf(g, p, s, e.job);
    UpdateLogs(g, s, i, e);
    UpdatePropsAt(s.flows[e.job], e.flow, p);
    UpdateEntries(g, p, s, i, e.job, e.flow);
  }

  lemma UpdateKeepsProps(g: Graph, s: State, i: nat, e: Effect)
    requires Fits(g, s) && i < |s.pending| && Updates(g, s, i, e) && GroupOk(g, s, e.job)
    requires s.flows[e.job].group.status in {RUNNING, SUCCEEDED, FAILED}
    ensures UpdatesProps(s.flows[e.job], e.flow)
  {
    UpdateCases(g, s, e.job);
  }

  /** A callback on its way into an execute call has been handed out. */
  lemma EntryHanded(g: Graph, s: State, x: Task)
    requires Shape(g, s) && Conserved(g, s) && x in s.pending && x.Enter?
    ensures g.IsCallback(x.callback) && g.Home(x.callback) == x.target && s.handed[x.callback] > 0
  {
    TaskOf(g, s, x);
    CarriedMember(s.pending, x, x.callback);
    Balance(g, s, x.callback);
  }

  /** The group after an update, judged by its children as they were. */
  lemma UpdateVerdict(g: Graph, s: State, i: nat, e: Effect)
    requires Fits(g, s) && i < |s.pending| && Updates(g, s, i, e) && GroupOk(g, s, e.job)
    requires s.flows[e.job].group.status in {RUNNING, SUCCEEDED, FAILED}
    ensures Apply(s, i, e).flows == s.flows[e.job := e.flow]
    ensures e.flow.Multiple? && e.flow.GetStatus() == s.flows[e.job].GetStatus()
    ensures var ds, gr := g.deps[e.job], e.flow.group;
            && gr.status in {RUNNING, SUCCEEDED, FAILED}
            && (gr.status == SUCCEEDED ==>
                  && (forall d :: d in ds ==> IsDone(s.flows[d].GetStatus()))
                  && gr.returnProps == Some(Merge(s.flows, ds)))
            && (gr.status == FAILED ==> exists d :: d in ds && s.flows[d].GetStatus() == FAILED)
            && (gr.status == RUNNING ==>
                  exists d :: d in ds && s.flows[d].GetStatus() != FAILED && !IsDone(s.flows[d].GetStatus()))
  {
    UpdateCases(g, s, e.job);
    hide GroupOk, UpdateGroup, Merge;
  }

  lemma UpdateGroupOk(g: Graph, s: State, i: nat, e: Effect)
    requires Shape(g, s) && Truthful(g, s) && i < |s.pending| && Updates(g, s, i, e) && GroupOk(g, s, e.job)
    requires s.flows[e.job].group.status in {RUNNING, SUCCEEDED, FAILED}
    requires Forward(s.flows[e.job], e.flow) && Shape(g, Apply(s, i, e)) && Truthful(g, Apply(s, i, e))
    ensures GroupOk(g, Apply(s, i, e), e.job)
  {
    hide GroupOk, UpdateGroup, Merge, Forward, Truthful, Updates, Apply, Shape;
    ShapeFits(g, s);
    ShapeFits(g, Apply(s, i, e));
    UpdateVerdict(g, s, i, e);
    var k, s' := e.job, Apply(s, i, e);
    var ds, st := g.deps[k], e.flow.group.status;
    assert forall d :: d in s.flows ==> s'.flows[d].GetStatus() == s.flows[d].GetStatus();
    if st == SUCCEEDED {
      forall d | d in ds ensures s.flows[d].Output() == s'.flows[d].Output() {
        if d == k { ForwardOutput(s.flows[k], e.flow); }
      }
      MergeSame(s.flows, s'.flows, ds);
      DoneGroupOk(g, s', k);
    } else if st == FAILED {
      var d :| d in ds && s.flows[d].GetStatus() == FAILED;
      FailedGroupOk(g, s', k, d);
    } else {
      var d :| d in ds && s.flows[d].GetStatus() != FAILED && !IsDone(s.flows[d].GetStatus());
      var c :| 0 <= c < |ds| && ds[c] == d;
      Unanswered(g, s', k, c);
      RunningGroupOk(g, s', k, c);
    }
  }

  lemma ForwardOutput(f: Flow, f': Flow)
    requires Forward(f, f') && IsDone(f.GetStatus())
    ensures f.Output() == f'.Output()
  {
  }

  lemma DoneGroupOk(g: Graph, s: State, k: Job)
    requires Fits(g, s) && k in s.flows && s.flows[k].Multiple? && s.flows[k].group.status == SUCCEEDED
    requires forall d :: d in g.deps[k] ==> IsDone(s.flows[d].GetStatus())
    requires s.flows[k].group.returnProps == Some(Merge(s.flows, g.deps[k]))
    ensures GroupOk(g, s, k)
  {
    hide Merge;
  }

  lemma FailedGroupOk(g: Graph, s: State, k: Job, d: Job)
    requires Fits(g, s) && k in s.flows && s.flows[k].Multiple? && s.flows[k].group.status == FAILED
    requires d in g.deps[k] && d in s.flows && s.flows[d].GetStatus() == FAILED
    ensures GroupOk(g, s, k)
  {
    var c :| 0 <= c < |g.deps[k]| && g.deps[k][c] == d;
    hide Merge;
  }

  lemma RunningGroupOk(g: Graph, s: State, k: Job, c: nat)
    requires Fits(g, s) && k in s.flows && s.flows[k].Multiple? && s.flows[k].group.status == RUNNING
    requires c < |g.deps[k]| && Answered(s, GroupCallback(k, c)) == 0
    ensures GroupOk(g, s, k)
  {
    hide Merge;
  }

  lemma Unanswered(g: Graph, s: State, k: Job, c: nat)
    requires Shape(g, s) && Truthful(g, s) && k in s.flows && c < |g.deps[k]|
    requires s.flows[g.deps[k][c]].GetStatus() != FAILED && !IsDone(s.flows[g.deps[k][c]].GetStatus())
    ensures Answered(s, GroupCallback(k, c)) == 0
  {
    LoggedTrue(g, s, Completion(GroupCallback(k, c), SUCCEEDED));
    LoggedTrue(g, s, Completion(GroupCallback(k, c), FAILED));
  }

  lemma UpdateTries(s: State, i: nat, e: Effect, k: Job, n: nat)
    requires i < |s.pending| && k in s.flows && s.flows[k].Multiple? && TriesOk(s, k, n)
    requires e.job == k && e.flow.Multiple? && !s.pending[i].TryChild? && e.handed == multiset{}
    requires forall x :: x in e.spawned ==> !x.TryChild?
    requires e.flow.group.status == s.flows[k].group.status || e.flow.group.status in {SUCCEEDED, FAILED}
    ensures TriesOk(Apply(s, i, e), k, n)
  {
    var s' := Apply(s, i, e);
    forall c: nat ensures TriesLeft(s', k, c) == TriesLeft(s, k, c) {
      NoneAdded(s, i, e, TryChild(k, c));
    }
  }

  lemma UpdateNotify(g: Graph, s: State, i: nat, e: Effect, n: nat)
    requires Fits(g, s) && i < |s.pending| && Updates(g, s, i, e) && NotifyOk(s, e.job, n)
    requires Keeps(s.flows[e.job].group.status, e.flow.group.status) && e.flow.group.status != COMPLETED
    requires s.pending[i].callback.child < n
    ensures NotifyOk(Apply(s, i, e), e.job, n)
  {
    var k, s' := e.job, Apply(s, i, e);
    var c0 := s.pending[i].callback.child;
    CountStep(s, i, e, ReadFirst(k, c0));
    assert LeadsToNotify(s'.pending, k, c0, e.flow.group.status);
    forall c: nat
      ensures CasSucceeded(k, c) in s'.pending ==> CasSucceeded(k, c) in s.pending
      ensures CasFailed(k, c) in s'.pending ==> CasFailed(k, c) in s.pending
    {
      CountStep(s, i, e, CasSucceeded(k, c));
      CountStep(s, i, e, CasFailed(k, c));
    }
  }

  lemma UpdateComposed(g: Graph, s: State, i: nat, e: Effect)
    requires Fits(g, s) && i < |s.pending| && Updates(g, s, i, e) && e.job in s.flows && ComposedAt(s, e.job)
    requires s.flows[e.job].group.status in {RUNNING, SUCCEEDED, FAILED} && GroupOk(g, s, e.job)
    requires s.handed[DependeeCallback(e.job)] == 1
    ensures ComposedAt(Apply(s, i, e), e.job)
  {
    UpdateCases(g, s, e.job);
    hide GroupOk;
  }

  /** What an update adds and what it leaves alone. */
  lemma UpdateMoves(g: Graph, s: State, i: nat, e: Effect)
    requires Fits(g, s) && i < |s.pending| && Updates(g, s, i, e) && GroupOk(g, s, e.job)
    requires s.flows[e.job].group.status in {RUNNING, SUCCEEDED, FAILED}
    ensures e.flow.Multiple? && e.flow.job == s.flows[e.job].job && e.launched == multiset{} && e.handed == multiset{}
    ensures s.pending[i].Deliver? && s.pending[i].callback.GroupCallback?
    ensures s.pending[i].callback.child < |g.deps[e.job]|
    ensures forall x :: x in e.spawned ==> x.ReadFirst?
    ensures e.flow.group.status == s.flows[e.job].group.status || e.flow.group.status in {SUCCEEDED, FAILED}
    ensures Keeps(s.flows[e.job].group.status, e.flow.group.status) && e.flow.group.status != COMPLETED
    ensures Apply(s, i, e).flows == s.flows[e.job := e.flow]
  {
    UpdateCases(g, s, e.job);
    hide GroupOk;
  }

  lemma UpdateFlow(g: Graph, s: State, i: nat, e: Effect)
    requires Shape(g, s) && Truthful(g, s) && i < |s.pending| && Updates(g, s, i, e) && FlowOk(g, s, e.job)
    requires s.flows[e.job].group.status in {RUNNING, SUCCEEDED, FAILED} && s.handed[DependeeCallback(e.job)] == 1
    requires Forward(s.flows[e.job], e.flow) && Shape(g, Apply(s, i, e)) && Truthful(g, Apply(s, i, e))
    ensures FlowOk(g, Apply(s, i, e), e.job)
  {
    hide Shape, Truthful, FlowOk, GroupOk, ComposedAt, TriesOk, NotifyOk, JobOk, Forward, Updates, Apply;
    ShapeFits(g, s);
    ShapeFits(g, Apply(s, i, e));
    UpdateStatus(g, s, i, e);
    var k, n := e.job, |g.deps[e.job]|;
    FlowParts(g, s, k);
    UpdateMoves(g, s, i, e);
    JobKept(s, i, e, k);
    UpdateComposed(g, s, i, e);
    UpdateTries(s, i, e, k, n);
    UpdateNotify(g, s, i, e, n);
    UpdateGroupOk(g, s, i, e);
    FlowWhole(g, Apply(s, i, e), k);
  }

  lemma UpdateStep(g: Graph, p: PropMap, s: State, i: nat, c: Choice)
    requires Inv(g, p, s) && i < |s.pending| && TaskFits(g, s.pending[i])
    requires s.pending[i].Deliver? && s.pending[i].callback.GroupCallback?
    ensures Inv(g, p, Apply(s, i, StepEffect(g, s, s.pending[i], c)))
  {
    InvShape(g, p, s);
    ChildParts(g, p, s, i);
    UpdateEffect(g, s, i, c);
    var k := s.pending[i].callback.group;
    RequestOf(g, s, k);
    hide Inv, Shape, Conserved, Truthful, PropsOk, RequestsOk, FlowOk, Updates, StepEffect, Forward,
         LocalEffect, WellFormed, SpeaksTruth, CarriesProps, Requested, UpdatesProps, DependerWaits;
    var e := StepEffect(g, s, s.pending[i], c);
    UpdateShape(g, s, i, e);
    UpdateForward(g, s, i, e);
    TruthStep(g, s, i, e);
    UpdateConserved(g, s, i, e);
    UpdateWaits(g, s, i, e);
    UpdateProps(g, p, s, i, e);
    UpdateFlow(g, s, i, e);
    UpdateStatus(g, s, i, e);
    InvStep(g, p, s, i, e);
  }

  lemma UpdateStatus(g: Graph, s: State, i: nat, e: Effect)
    requires Fits(g, s) && i < |s.pending| && Updates(g, s, i, e)
    ensures e.job in s.flows && s.flows[e.job].Multiple? && e.flow.GetStatus() == s.flows[e.job].GetStatus()
    ensures e.handed == multiset{}
  {
  }
}
