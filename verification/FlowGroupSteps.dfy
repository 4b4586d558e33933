/** The steps of a group: the loop over its children and the three-phase notification. */
module FlowGroupSteps {
  import opened FlowTypes
  import opened FlowSteps
  import opened FlowInvariant
  import opened FlowFrame
  import opened FlowStepParts

  // ---- Counting in the queue after a step ----

  lemma CountStep(s: State, i: nat, e: Effect, x: Task)
    requires i < |s.pending|
    ensures multiset(Apply(s, i, e).pending)[x] + (if x == s.pending[i] then 1 else 0)
         == multiset(s.pending)[x] + multiset(e.spawned)[x]
    ensures x in Apply(s, i, e).pending ==> x in s.pending || x in e.spawned
    ensures x in s.pending && x != s.pending[i] ==> x in Apply(s, i, e).pending
    ensures x in e.spawned ==> x in Apply(s, i, e).pending
  {
    QueueStep(s.pending, i, e.spawned);
    assert (multiset(Apply(s, i, e).pending) + multiset{s.pending[i]})[x]
        == (multiset(s.pending) + multiset(e.spawned))[x];
  }

  lemma NoneAdded(s: State, i: nat, e: Effect, x: Task)
    requires i < |s.pending| && x != s.pending[i] && x !in e.spawned
    ensures multiset(Apply(s, i, e).pending)[x] == multiset(s.pending)[x]
    ensures x in Apply(s, i, e).pending <==> x in s.pending
  {
    CountStep(s, i, e, x);
  }

  // ---- Clauses that survive because what they read does ----

  lemma JobKept(s: State, i: nat, e: Effect, k: Job)
    requires i < |s.pending| && k in s.flows && JobOk(s, k)
    requires e.job == k && e.flow.job == s.flows[k].job && e.launched == multiset{}
    requires s.pending[i] !in [Load(k), Run(k)] && Load(k) !in e.spawned && Run(k) !in e.spawned
    ensures JobOk(Apply(s, i, e), k)
  {
    NoneAdded(s, i, e, Load(k));
    NoneAdded(s, i, e, Run(k));
  }

  lemma TriesKept(s: State, i: nat, e: Effect, k: Job, n: nat)
    requires i < |s.pending| && k in s.flows && s.flows[k].Multiple? && TriesOk(s, k, n)
    requires e.job == k && e.flow.Multiple? && e.flow.group.status == s.flows[k].group.status
    requires !s.pending[i].TryChild?
    requires forall x :: x in e.spawned ==> !x.TryChild?
    requires forall cb :: cb in e.handed ==> cb == DependerCallback(k)
    ensures TriesOk(Apply(s, i, e), k, n)
  {
    var s' := Apply(s, i, e);
    assert s'.handed[DependeeCallback(k)] == s.handed[DependeeCallback(k)];
    forall c: nat
      ensures s'.handed[GroupCallback(k, c)] + TriesLeft(s', k, c)
           == s.handed[GroupCallback(k, c)] + TriesLeft(s, k, c)
    {
      NoneAdded(s, i, e, TryChild(k, c));
    }
  }

  lemma GroupKept(g: Graph, s: State, i: nat, e: Effect, k: Job)
    requires Fits(g, s) && i < |s.pending| && k in s.flows && s.flows[k].Multiple? && Fits(g, Apply(s, i, e))
    requires GroupOk(g, s, k) && e.job == k && Forward(s.flows[k], e.flow)
    requires e.flow.group.status == s.flows[k].group.status
    requires e.flow.group.returnProps == s.flows[k].group.returnProps
    requires forall c :: c in e.completed ==> !c.callback.GroupCallback?
    ensures GroupOk(g, Apply(s, i, e), k)
  {
    var s' := Apply(s, i, e);
    forall d | d in s.flows ensures Forward(s.flows[d], s'.flows[d]) {
      if d != k { ForwardRefl(s.flows[d]); }
    }
    forall c: nat
      ensures Answered(s', GroupCallback(k, c)) == Answered(s, GroupCallback(k, c))
    {
      assert Completion(GroupCallback(k, c), SUCCEEDED) !in e.completed;
      assert Completion(GroupCallback(k, c), FAILED) !in e.completed;
    }
    FrameGroup(g, s, s', k);
  }

  predicate IsPhase(t: Task) {
    t.ReadFirst? || t.ReadSecond? || t.CasSucceeded? || t.CasFailed?
  }

  lemma NotifyKept(s: State, i: nat, e: Effect, k: Job, n: nat)
    requires i < |s.pending| && k in s.flows && s.flows[k].Multiple? && NotifyOk(s, k, n)
    requires e.job == k && e.flow.Multiple? && e.flow.group.status == s.flows[k].group.status
    requires e.flow.group.notified == s.flows[k].group.notified
    requires !IsPhase(s.pending[i])
    requires forall x :: x in e.spawned ==> !IsPhase(x)
    ensures NotifyOk(Apply(s, i, e), k, n)
  {
    forall x: Task | IsPhase(x)
      ensures x in Apply(s, i, e).pending <==> x in s.pending
    {
      NoneAdded(s, i, e, x);
    }
    PhasesSame(s, Apply(s, i, e), k);
    FrameNotify(s, Apply(s, i, e), k, n);
  }

  lemma PhasesSame(s: State, s': State, k: Job)
    requires forall x: Task :: IsPhase(x) ==> (x in s'.pending <==> x in s.pending)
    ensures forall c: nat, v :: LeadsToNotify(s.pending, k, c, v) ==> LeadsToNotify(s'.pending, k, c, v)
    ensures forall c: nat :: CasSucceeded(k, c) in s'.pending ==> CasSucceeded(k, c) in s.pending
    ensures forall c: nat :: CasFailed(k, c) in s'.pending ==> CasFailed(k, c) in s.pending
  {
    forall c: nat
      ensures ReadFirst(k, c) in s'.pending <==> ReadFirst(k, c) in s.pending
      ensures ReadSecond(k, c) in s'.pending <==> ReadSecond(k, c) in s.pending
      ensures CasSucceeded(k, c) in s'.pending <==> CasSucceeded(k, c) in s.pending
      ensures CasFailed(k, c) in s'.pending <==> CasFailed(k, c) in s.pending
    {
      assert IsPhase(ReadFirst(k, c)) && IsPhase(ReadSecond(k, c));
      assert IsPhase(CasSucceeded(k, c)) && IsPhase(CasFailed(k, c));
    }
  }

  // ---- Reading the group's status ----

  /** A phase that rewrites nothing and moves on to the next phase, or ends. */
  ghost predicate PhaseMove(s: State, i: nat, e: Effect)
    requires i < |s.pending|
  {
    var t := s.pending[i];
    && IsPhase(t) && t.group in s.flows && s.flows[t.group].Multiple?
    && e == Same(s, t.group).(spawned := e.spawned)
    && forall x :: x in e.spawned ==> IsPhase(x) && x.group == t.group && x.child == t.child
  }

  lemma PhaseQuiet(g: Graph, p: PropMap, s: State, i: nat, e: Effect)
    requires Shape(g, s) && i < |s.pending| && PhaseMove(s, i, e)
    ensures Quiet(g, p, s, i, e)
  {
    assert TaskFits(g, s.pending[i]);
  }

  lemma {:induction false} CarriesNothing(q: seq<Task>)
    requires forall x :: x in q ==> CarriedBy(x) == multiset{}
    ensures Carried(q) == multiset{}
  {
    if q != [] { CarriesNothing(q[1..]); }
  }

  /** Tasks that carry no callback and leave the flow alone do not touch the books. */
  lemma NothingMoves(g: Graph, s: State, i: nat, e: Effect)
    requires Shape(g, s) && Conserved(g, s) && i < |s.pending| && Shape(g, Apply(s, i, e))
    requires e.job in s.flows && e.flow == s.flows[e.job]
    requires CarriedBy(s.pending[i]) + e.handed == Carried(e.spawned)
    requires !s.pending[i].Deliver? && e.completed == multiset{}
    ensures Conserved(g, Apply(s, i, e))
  {
    ConservedStep(g, s, i, e, IndividualNode(e.job));
  }

  lemma PhaseConserved(g: Graph, s: State, i: nat, e: Effect)
    requires Shape(g, s) && Conserved(g, s) && i < |s.pending| && PhaseMove(s, i, e) && Shape(g, Apply(s, i, e))
    ensures Conserved(g, Apply(s, i, e))
  {
    hide Shape, Conserved;
    CarriesNothing(e.spawned);
    NothingMoves(g, s, i, e);
  }

  lemma PhaseFlow(g: Graph, s: State, i: nat, e: Effect)
    requires Shape(g, s) && i < |s.pending| && PhaseMove(s, i, e) && Fits(g, Apply(s, i, e))
    requires FlowOk(g, s, e.job)
    requires NotifyOk(Apply(s, i, e), e.job, |g.deps[e.job]|)
    ensures FlowOk(g, Apply(s, i, e), e.job)
  {
    var k := e.job;
    ForwardRefl(s.flows[k]);
    JobKept(s, i, e, k);
    TriesKept(s, i, e, k, |g.deps[k]|);
    GroupKept(g, s, i, e, k);
  }

  lemma ReadPhase(g: Graph, p: PropMap, s: State, i: nat, e: Effect)
    requires Inv(g, p, s) && i < |s.pending| && PhaseMove(s, i, e)
    requires NotifyOk(Apply(s, i, e), e.job, |g.deps[e.job]|)
    ensures Inv(g, p, Apply(s, i, e))
  {
    hide Shape, Quiet, FlowOk, NotifyOk, Conserved, Truthful, PropsOk, RequestsOk;
    PhaseQuiet(g, p, s, i, e);
    QuietShape(g, p, s, i, e);
    PhaseConserved(g, s, i, e);
    PhaseFlow(g, s, i, e);
    QuietStep(g, p, s, i, e);
  }

  /** The notification of a finished group is not lost when its phase moves on. */
  lemma NotifyMoves(s: State, i: nat, e: Effect, n: nat)
    requires i < |s.pending| && PhaseMove(s, i, e) && NotifyOk(s, e.job, n) && s.pending[i].child < n
    requires var t, gr := s.pending[i], s.flows[e.job].group;
             gr.status in {SUCCEEDED, FAILED} && !gr.notified && LeadsToNotify([t], e.job, t.child, gr.status) ==>
               LeadsToNotify(e.spawned, e.job, t.child, gr.status)
    requires forall x :: x in e.spawned && x.CasSucceeded? ==> s.flows[e.job].group.status == SUCCEEDED
    requires forall x :: x in e.spawned && x.CasFailed? ==> s.flows[e.job].group.status == FAILED
    ensures NotifyOk(Apply(s, i, e), e.job, n)
  {
    var k, t, s' := e.job, s.pending[i], Apply(s, i, e);
    var st := s.flows[k].group.status;
    MovedTasks(s, i, e);
    hide PhaseMove, Apply, Without, LeadsToNotify, IsPhase;
    if st in {SUCCEEDED, FAILED} && !s.flows[k].group.notified {
      var c: nat :| c < n && LeadsToNotify(s.pending, k, c, st);
      if LeadsToNotify([t], k, t.child, st) {
        MovedLead(s, i, e, k, t.child, st);
      } else {
        KeptLead(s, i, e, k, c, st);
      }
    }
  }

  lemma MovedTasks(s: State, i: nat, e: Effect)
    requires i < |s.pending| && PhaseMove(s, i, e)
    ensures IsPhase(s.pending[i]) && e.job == s.pending[i].group && e.job in s.flows && Apply(s, i, e).flows == s.flows
    ensures forall x :: x in Apply(s, i, e).pending ==> x in s.pending || x in e.spawned
  {
    QueueStep(s.pending, i, e.spawned);
  }

  /** The moved task leads on to the notification. */
  lemma MovedLead(s: State, i: nat, e: Effect, k: Job, c: nat, st: Status)
    requires i < |s.pending| && LeadsToNotify(e.spawned, k, c, st)
    ensures LeadsToNotify(Apply(s, i, e).pending, k, c, st)
  {
    QueueStep(s.pending, i, e.spawned);
  }

  /** Another task does, and is still there. */
  lemma KeptLead(s: State, i: nat, e: Effect, k: Job, c: nat, st: Status)
    requires i < |s.pending| && IsPhase(s.pending[i]) && LeadsToNotify(s.pending, k, c, st)
    requires k == s.pending[i].group && !LeadsToNotify([s.pending[i]], k, s.pending[i].child, st)
    ensures LeadsToNotify(Apply(s, i, e).pending, k, c, st)
  {
    QueueStep(s.pending, i, e.spawned);
  }

  lemma PhaseParts(g: Graph, p: PropMap, s: State, i: nat)
    requires Inv(g, p, s) && i < |s.pending| && IsPhase(s.pending[i])
    ensures var t := s.pending[i];
            && t.group in g.deps && t.child < |g.deps[t.group]| && t.group in s.flows
            && s.flows[t.group].Multiple? && NotifyOk(s, t.group, |g.deps[t.group]|)
            && ComposedAt(s, t.group) && FlowOk(g, s, t.group) && TaskFits(g, t) && Fits(g, s)
  {
    hide Inv, FlowOk, JobOk, TriesOk, GroupOk, NotifyOk, ComposedAt, Shape, Conserved, Truthful, PropsOk, RequestsOk;
    InvShape(g, p, s);
    TaskOf(g, s, s.pending[i]);
    FlowParts(g, s, s.pending[i].group);
    PhaseMultiple(g, s, s.pending[i].group);
  }

  lemma PhaseMultiple(g: Graph, s: State, k: Job)
    requires Fits(g, s) && k in g.deps && |g.deps[k]| > 0
    ensures k in s.flows && s.flows[k].Multiple?
  {
  }

  /** A phase that only reads the group: ReadFirst, ReadSecond, or a compare-and-set that comes too late. */
  ghost predicate OnlyReads(g: Graph, s: State, t: Task) {
    && Fits(g, s) && TaskFits(g, t) && IsPhase(t) && t.group in s.flows && s.flows[t.group].Multiple?
    && (t.CasSucceeded? || t.CasFailed? ==> s.flows[t.group].group.notified)
  }

  lemma ReadEffect(g: Graph, s: State, i: nat, c: Choice, n: nat)
    requires i < |s.pending| && OnlyReads(g, s, s.pending[i]) && NotifyOk(s, s.pending[i].group, n)
    requires s.pending[i].child < n
    ensures var e := StepEffect(g, s, s.pending[i], c);
            e.job == s.pending[i].group && PhaseMove(s, i, e) && NotifyOk(Apply(s, i, e), e.job, n)
  {
    var t := s.pending[i];
    var e := StepEffect(g, s, t, c);
    var st := s.flows[t.group].group.status;
    assert e.spawned == match t
      case ReadFirst(k, j) => if st == SUCCEEDED then [CasSucceeded(k, j)] else [ReadSecond(k, j)]
      case CasSucceeded(k, j) => [ReadSecond(k, j)]
      case ReadSecond(k, j) => if st == FAILED then [CasFailed(k, j)] else []
      case _ => [];
    NotifyMoves(s, i, e, n);
  }

  lemma ReadStep(g: Graph, p: PropMap, s: State, i: nat, c: Choice)
    requires Inv(g, p, s) && i < |s.pending| && OnlyReads(g, s, s.pending[i])
    ensures Inv(g, p, Apply(s, i, StepEffect(g, s, s.pending[i], c)))
  {
    PhaseParts(g, p, s, i);
    hide Inv, FlowOk, ComposedAt, NotifyOk, StepEffect, PhaseMove, Apply;
    ReadEffect(g, s, i, c, |g.deps[s.pending[i].group]|);
    ReadPhase(g, p, s, i, StepEffect(g, s, s.pending[i], c));
  }

  // ---- Winning the compare-and-set ----

  lemma CasFacts(g: Graph, s: State, i: nat, e: Effect, v: Status)
    requires Shape(g, s) && i < |s.pending| && IsPhase(s.pending[i]) && e.job in s.flows
    requires Flushes(g, s, i, e, GroupedNode(e.job), v)
    ensures Fits(g, s) && IsVerdict(v) && e.handed == multiset{} && e.launched == multiset{}
    ensures e.completed == multiset{}
    ensures !s.pending[i].TryChild? && !s.pending[i].Load? && !s.pending[i].Run?
    ensures forall x :: x in e.spawned ==> x.Deliver?
  {
    hide Shape;
    ShapeFits(g, s);
    forall x | x in e.spawned ensures x.Deliver? {
      FlushedTask(g, s, i, e, GroupedNode(e.job), v, x);
    }
  }

  lemma CasComposed(s: State, i: nat, e: Effect)
    requires i < |s.pending| && e.job in s.flows && s.flows[e.job].Multiple? && ComposedAt(s, e.job)
    requires e.flow == s.flows[e.job].(group := s.flows[e.job].group.(notified := true))
    requires e.handed == multiset{} && e.launched == multiset{} && e.completed == multiset{}
    requires s.flows[e.job].group.status in {SUCCEEDED, FAILED}
    ensures ComposedAt(Apply(s, i, e), e.job)
  {
  }

  lemma CasNotify(s: State, i: nat, e: Effect, n: nat)
    requires i < |s.pending| && e.job in s.flows && s.flows[e.job].Multiple? && NotifyOk(s, e.job, n)
    requires e.flow == s.flows[e.job].(group := s.flows[e.job].group.(notified := true))
    requires forall x :: x in e.spawned ==> x.Deliver?
    ensures NotifyOk(Apply(s, i, e), e.job, n)
  {
    hide LeadsToNotify;
    forall c: nat
      ensures CasSucceeded(e.job, c) in Apply(s, i, e).pending ==> CasSucceeded(e.job, c) in s.pending
      ensures CasFailed(e.job, c) in Apply(s, i, e).pending ==> CasFailed(e.job, c) in s.pending
    {
      CountStep(s, i, e, CasSucceeded(e.job, c));
      CountStep(s, i, e, CasFailed(e.job, c));
    }
  }

  lemma CasFlow(g: Graph, s: State, i: nat, e: Effect, v: Status)
    requires Shape(g, s) && i < |s.pending| && IsPhase(s.pending[i])
    requires e.job in s.flows && FlowOk(g, s, e.job) && s.flows[e.job].Multiple?
    requires Flushes(g, s, i, e, GroupedNode(e.job), v) && s.flows[e.job].group.status == v
    requires e.flow == s.flows[e.job].(group := s.flows[e.job].group.(notified := true))
    requires Fits(g, Apply(s, i, e)) && Forward(s.flows[e.job], e.flow)
    ensures FlowOk(g, Apply(s, i, e), e.job)
  {
    hide FlowOk, ComposedAt, TriesOk, GroupOk, NotifyOk, JobOk, Flushes, Shape, Forward, Apply, IsPhase;
    var k := e.job;
    CasFacts(g, s, i, e, v);
    FlowParts(g, s, k);
    JobKept(s, i, e, k);
    CasComposed(s, i, e);
    TriesKept(s, i, e, k, |g.deps[k]|);
    GroupKept(g, s, i, e, k);
    CasNotify(s, i, e, |g.deps[k]|);
    FlowWhole(g, Apply(s, i, e), k);
  }

  /** A compare-and-set that finds the flag down. */
  ghost predicate WinsFlag(g: Graph, s: State, t: Task) {
    && Fits(g, s) && TaskFits(g, t) && (t.CasSucceeded? || t.CasFailed?)
    && t.group in s.flows && s.flows[t.group].Multiple? && !s.flows[t.group].group.notified
  }

  /** A pending compare-and-set knows the status that was read. */
  lemma CasReads(s: State, i: nat, n: nat)
    requires i < |s.pending| && (s.pending[i].CasSucceeded? || s.pending[i].CasFailed?)
    requires s.pending[i].group in s.flows && s.flows[s.pending[i].group].Multiple?
    requires NotifyOk(s, s.pending[i].group, n)
    ensures s.flows[s.pending[i].group].group.status == if s.pending[i].CasSucceeded? then SUCCEEDED else FAILED
  {
    var t := s.pending[i];
    assert CasSucceeded(t.group, t.child) == t || CasFailed(t.group, t.child) == t;
  }

  lemma CasMoves(g: Graph, s: State, t: Task, c: Choice)
    requires WinsFlag(g, s, t)
    ensures StepEffect(g, s, t, c)
         == Same(s, t.group).(flow := s.flows[t.group].(group := s.flows[t.group].group.(notified := true)),
                              spawned := Deliveries(s.flows[t.group].group.callbacks,
                                                    if t.CasSucceeded? then SUCCEEDED else FAILED))
  {
    hide Deliveries;
  }

  lemma CasFlushes(g: Graph, s: State, i: nat, e: Effect, k: Job, v: Status)
    requires Fits(g, s) && i < |s.pending| && IsPhase(s.pending[i]) && s.pending[i].group == k && k in g.deps
    requires k in s.flows && s.flows[k].Multiple? && s.flows[k].group.status == v && IsVerdict(v)
    requires !s.flows[k].group.notified
    requires e == Same(s, k).(flow := s.flows[k].(group := s.flows[k].group.(notified := true)),
                              spawned := Deliveries(s.flows[k].group.callbacks, v))
    ensures Flushes(g, s, i, e, GroupedNode(k), v) && Forward(s.flows[k], e.flow) && Fits(g, Apply(s, i, e))
  {
    hide Deliveries;
  }

  lemma CasEffect(g: Graph, s: State, i: nat, c: Choice, n: nat)
    requires i < |s.pending| && WinsFlag(g, s, s.pending[i]) && NotifyOk(s, s.pending[i].group, n)
    ensures var e := StepEffect(g, s, s.pending[i], c);
            && e.job == s.pending[i].group && e.job in s.flows && s.flows[e.job].Multiple?
            && e.flow == s.flows[e.job].(group := s.flows[e.job].group.(notified := true))
            && s.flows[e.job].group.status in {SUCCEEDED, FAILED}
            && Flushes(g, s, i, e, GroupedNode(e.job), s.flows[e.job].group.status)
            && Forward(s.flows[e.job], e.flow)
            && e.flow.GetStatus() == s.flows[e.job].GetStatus()
            && Fits(g, Apply(s, i, e))
  {
    hide StepEffect, NotifyOk, Flushes, Forward, Apply;
    var t := s.pending[i];
    CasReads(s, i, n);
    CasMoves(g, s, t, c);
    CasFlushes(g, s, i, StepEffect(g, s, t, c), t.group, s.flows[t.group].group.status);
  }

  lemma CasStep(g: Graph, p: PropMap, s: State, i: nat, c: Choice)
    requires Inv(g, p, s) && i < |s.pending| && WinsFlag(g, s, s.pending[i])
    ensures Inv(g, p, Apply(s, i, StepEffect(g, s, s.pending[i], c)))
  {
    var k := s.pending[i].group;
    PhaseParts(g, p, s, i);
    assert s.flows[k].GetStatus() in {RUNNING, FAILED} ==> k == g.root || Requested(g, s, k);
    assert Shape(g, s) && PropsOk(g, p, s);
    hide Inv, Shape, FlowOk, NotifyOk, Flushes, PropsOk, Forward, PropsAt, EnterOk, StepEffect, Fits;
    var e := StepEffect(g, s, s.pending[i], c);
    CasEffect(g, s, i, c, |g.deps[k]|);
    CasFlow(g, s, i, e, s.flows[k].group.status);
    CasProps(g, p, s, i, e);
    FlushStep(g, p, s, i, e, GroupedNode(k), s.flows[k].group.status);
  }

  lemma CasProps(g: Graph, p: PropMap, s: State, i: nat, e: Effect)
    requires Shape(g, s) && PropsOk(g, p, s) && i < |s.pending| && e.job in s.flows && s.flows[e.job].Multiple?
    requires e.flow == s.flows[e.job].(group := s.flows[e.job].group.(notified := true))
    ensures PropsAt(e.flow, p)
    ensures forall x :: x in Without(s.pending, i) && x.Enter? && x.target.job == e.job ==> EnterOk(e.flow, p, x)
  {
    assert PropsAt(s.flows[e.job], p);
    EntriesKept(g, p, s, i, e.job);
  }
}
