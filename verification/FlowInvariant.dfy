/** What every state of a run satisfies. */
module FlowInvariant {
  import opened FlowTypes
  import opened FlowSteps

  // ---- Counting ----

  /** The callback a pending task still carries. */
  function CarriedBy(t: Task): multiset<Callback> {
    match t
    case Enter(_, _, cb) => multiset{cb}
    case Deliver(cb, _) => multiset{cb}
    case _ => multiset{}
  }

  function Carried(q: seq<Task>): multiset<Callback> {
    if q == [] then multiset{} else CarriedBy(q[0]) + Carried(q[1..])
  }

  /** Callbacks an object has queued and must still complete. */
  function OwedBy(f: Flow, n: Node): seq<Callback> {
    match n
    case IndividualNode(_) => if f.job.status == RUNNING then f.job.callbacks else []
    case ComposedNode(_) => if f.Multiple? && f.composed.status == RUNNING then f.composed.callbacks else []
    case GroupedNode(_) => if f.Multiple? && !f.group.notified then f.group.callbacks else []
  }

  function Answered(s: State, cb: Callback): nat {
    s.completions[Completion(cb, SUCCEEDED)] + s.completions[Completion(cb, FAILED)]
  }

  function Owed(g: Graph, s: State, cb: Callback): nat
    requires g.IsCallback(cb) && s.flows.Keys == g.deps.Keys
  {
    var n := g.Home(cb);
    multiset(OwedBy(s.flows[n.job], n))[cb]
  }

  function TriesLeft(s: State, k: Job, i: nat): nat {
    multiset(s.pending)[TryChild(k, i)]
  }

  function StatusAt(f: Flow, n: Node): Status
    requires f.Multiple? || n.IndividualNode?
  {
    match n
    case IndividualNode(_) => f.job.status
    case ComposedNode(_) => f.composed.status
    case GroupedNode(_) => f.group.status
  }

  function CallbacksAt(f: Flow, n: Node): seq<Callback>
    requires f.Multiple? || n.IndividualNode?
  {
    match n
    case IndividualNode(_) => f.job.callbacks
    case ComposedNode(_) => f.composed.callbacks
    case GroupedNode(_) => f.group.callbacks
  }

  // ---- The clauses ----

  /** The state is well formed, and no execute call has refused its props. */
  ghost predicate Shape(g: Graph, s: State) {
    && Fits(g, s)
    && !s.fault
    && (forall t :: t in s.pending ==> TaskFits(g, t))
    && (forall cb :: cb in s.handed ==> g.IsCallback(cb))
    && (forall c :: c in s.completions ==> g.IsCallback(c.callback) && IsVerdict(c.verdict))
    && (forall n, cb {:trigger g.IsNode(n), g.IsCallback(cb)} ::
          g.IsNode(n) && cb in CallbacksAt(s.flows[n.job], n) ==> g.IsCallback(cb) && g.Home(cb) == n)
  }

  /** No callback is lost or invented: each one handed out is carried by a task, queued at its
      home object, or completed. */
  ghost predicate Conserved(g: Graph, s: State)
    requires Fits(g, s)
  {
    forall cb {:trigger Owed(g, s, cb)} :: g.IsCallback(cb) ==>
      s.handed[cb] == Carried(s.pending)[cb] + Owed(g, s, cb) + Answered(s, cb)
  }

  ghost predicate JobOk(s: State, j: Job)
    requires j in s.flows
  {
    var n := s.flows[j].job;
    && (n.status in {READY, IGNORED} ==> n.callbacks == [] && n.parentProps == None)
    && multiset(s.pending)[Load(j)] + multiset(s.pending)[Run(j)] == (if n.status == RUNNING then 1 else 0)
    && s.started[j] + multiset(s.pending)[Load(j)] <= 1
    && (n.status in {READY, IGNORED, COMPLETED} ==> s.started[j] == 0)
  }

  /** How far the composition of job k and its group has come; a and b count the
      handings of its two callbacks, the S and F counts their completions. */
  ghost predicate ComposedOk(f: Flow, a: nat, b: nat, aS: nat, aF: nat, bS: nat, bF: nat)
    requires f.Multiple?
  {
    var c, gr, j := f.composed.status, f.group.status, f.job.status;
    && a <= 1 && b == aS && aS + aF <= a && bS + bF <= b
    && (c in {READY, COMPLETED} ==> a == 0)
    && (c == RUNNING ==> a == 1 && aF == 0 && bS + bF == 0)
    && (c == FAILED ==> a == 1 && aF + bF == 1)
    && (c == SUCCEEDED ==> a == bS && gr == SUCCEEDED && IsDone(j))
    && c != IGNORED && gr !in {COMPLETED, IGNORED}
    && (c == READY ==> f.composed.callbacks == [] && f.composed.parentProps == None)
    && (gr == READY ==> f.group.callbacks == [] && f.group.parentProps == None)
    && (f.group.notified ==> gr in {SUCCEEDED, FAILED})
    && (gr in {RUNNING, FAILED} ==> a == 1)
    && (j in {RUNNING, FAILED} ==> b == 1)
    && (b == 0 && c in {READY, RUNNING, FAILED} ==> j in {READY, IGNORED, COMPLETED})
  }

  ghost predicate ComposedAt(s: State, k: Job)
    requires k in s.flows && s.flows[k].Multiple?
  {
    var x, y := DependeeCallback(k), DependerCallback(k);
    && ComposedOk(s.flows[k], s.handed[x], s.handed[y],
                  s.completions[Completion(x, SUCCEEDED)], s.completions[Completion(x, FAILED)],
                  s.completions[Completion(y, SUCCEEDED)], s.completions[Completion(y, FAILED)])
    && (s.started[k] > 0 ==> s.handed[y] == 1)
  }

  /** Each child is tried at most once, and exactly once by a running group. */
  ghost predicate TriesOk(s: State, k: Job, n: nat)
    requires k in s.flows && s.flows[k].Multiple?
  {
    var gr := s.flows[k].group.status;
    forall i: nat {:trigger GroupCallback(k, i)} :: i < n ==>
      var x := s.handed[GroupCallback(k, i)] + TriesLeft(s, k, i);
      && x <= 1
      && (gr == READY ==> x == 0)
      && (gr == RUNNING ==> x == 1)
      && (s.handed[DependeeCallback(k)] == 0 ==> x == 0)
  }

  /** A group's status is the verdict on its children, and a running group awaits one of them. */
  ghost predicate GroupOk(g: Graph, s: State, k: Job)
    requires Fits(g, s) && k in s.flows && s.flows[k].Multiple?
  {
    var ds, gr := g.deps[k], s.flows[k].group;
    && (gr.status == SUCCEEDED ==>
          && (forall i :: 0 <= i < |ds| ==> IsDone(s.flows[ds[i]].GetStatus()))
          && gr.returnProps == Some(Merge(s.flows, ds)))
    && (gr.status == FAILED ==> exists i :: 0 <= i < |ds| && s.flows[ds[i]].GetStatus() == FAILED)
    && (gr.status == RUNNING ==> exists i: nat :: i < |ds| && Answered(s, GroupCallback(k, i)) == 0)
  }

  /** Pending work that will reach the group's compare-and-set with the given verdict. */
  predicate LeadsToNotify(q: seq<Task>, k: Job, i: nat, verdict: Status) {
    || ReadFirst(k, i) in q
    || (verdict == SUCCEEDED && CasSucceeded(k, i) in q)
    || (verdict == FAILED && (ReadSecond(k, i) in q || CasFailed(k, i) in q))
  }

  /** A finished group that has not told its callbacks yet is about to, and with its own status. */
  ghost predicate NotifyOk(s: State, k: Job, n: nat)
    requires k in s.flows && s.flows[k].Multiple?
  {
    var gr := s.flows[k].group;
    && (gr.status in {SUCCEEDED, FAILED} && !gr.notified ==>
          exists i: nat :: i < n && LeadsToNotify(s.pending, k, i, gr.status))
    && (forall i: nat :: CasSucceeded(k, i) in s.pending ==> gr.status == SUCCEEDED)
    && (forall i: nat :: CasFailed(k, i) in s.pending ==> gr.status == FAILED)
  }

  predicate Settles(st: Status, verdict: Status) {
    if verdict == SUCCEEDED then IsDone(st) else st == FAILED
  }

  /** Whatever verdict is or was delivered for a callback is the status of its home object. */
  ghost predicate Truthful(g: Graph, s: State)
    requires Shape(g, s)
  {
    && (forall t :: t in s.pending && t.Deliver? ==>
          Settles(StatusAt(s.flows[g.Home(t.callback).job], g.Home(t.callback)), t.verdict))
    && (forall c :: c in s.completions ==>
          Settles(StatusAt(s.flows[g.Home(c.callback).job], g.Home(c.callback)), c.verdict))
  }

  /** The props an object holds once it has been entered. */
  ghost predicate Holds(n: NodeState, p: PropMap) {
    && (n.status in {READY, IGNORED} ==> n.parentProps == None)
    && (n.status in {RUNNING, SUCCEEDED, FAILED} ==> n.parentProps == Some(p))
  }

  /** Shared objects hold the root's props; a wrapped job holds them extended by its group's output. */
  ghost predicate PropsAt(f: Flow, p: PropMap) {
    && Holds(f.Front(), p)
    && (f.Multiple? ==> Holds(f.group, p) && Holds(f.job, p + OrEmpty(f.group.returnProps)))
  }

  ghost predicate EnterOk(f: Flow, p: PropMap, t: Task)
    requires t.Enter?
  {
    if t.callback.DependerCallback? then
      && t.props == p + OrEmpty(if f.Multiple? then f.group.returnProps else None)
      && f.job.status in {READY, IGNORED, COMPLETED}
    else t.props == p
  }

  ghost predicate PropsOk(g: Graph, p: PropMap, s: State)
    requires Shape(g, s)
  {
    && (forall k {:trigger PropsAt(s.flows[k], p)} :: k in s.flows ==> PropsAt(s.flows[k], p))
    && (forall t :: t in s.pending && t.Enter? ==> EnterOk(s.flows[t.target.job], p, t))
  }

  /** Some group has handed its callback to the flow of job d. */
  ghost predicate Requested(g: Graph, s: State, d: Job) {
    exists k, i: nat :: k in g.deps && i < |g.deps[k]| && g.deps[k][i] == d && s.handed[GroupCallback(k, i)] > 0
  }

  ghost predicate RequestsOk(g: Graph, s: State)
    requires Fits(g, s)
  {
    && s.handed[Caller] == 1
    && forall d {:trigger Requested(g, s, d)} :: d in s.flows && s.flows[d].GetStatus() in {RUNNING, FAILED} ==>
         d == g.root || Requested(g, s, d)
  }

  ghost predicate FlowOk(g: Graph, s: State, k: Job)
    requires Fits(g, s) && k in s.flows
  {
    && JobOk(s, k)
    && (s.flows[k].Multiple? ==>
          ComposedAt(s, k) && TriesOk(s, k, |g.deps[k]|) && GroupOk(g, s, k) && NotifyOk(s, k, |g.deps[k]|))
  }

  ghost predicate Inv(g: Graph, p: PropMap, s: State) {
    && Shape(g, s)
    && Conserved(g, s)
    && Truthful(g, s)
    && PropsOk(g, p, s)
    && RequestsOk(g, s)
    && forall k {:trigger FlowOk(g, s, k)} :: k in s.flows ==> FlowOk(g, s, k)
  }

  // ---- Taking the invariant apart ----

  lemma InvShape(g: Graph, p: PropMap, s: State)
    requires Inv(g, p, s)
    ensures Shape(g, s) && Conserved(g, s) && Truthful(g, s) && PropsOk(g, p, s) && RequestsOk(g, s)
    ensures forall k {:trigger FlowOk(g, s, k)} :: k in s.flows ==> FlowOk(g, s, k)
  {
  }

  lemma Balance(g: Graph, s: State, cb: Callback)
    requires Fits(g, s) && Conserved(g, s) && g.IsCallback(cb)
    ensures s.handed[cb] == Carried(s.pending)[cb] + Owed(g, s, cb) + Answered(s, cb)
  {
  }

  lemma FlowParts(g: Graph, s: State, k: Job)
    requires Fits(g, s) && k in s.flows && FlowOk(g, s, k)
    ensures JobOk(s, k)
    ensures s.flows[k].Multiple? ==>
              ComposedAt(s, k) && TriesOk(s, k, |g.deps[k]|) && GroupOk(g, s, k) && NotifyOk(s, k, |g.deps[k]|)
  {
  }

  lemma FlowWhole(g: Graph, s: State, k: Job)
    requires Fits(g, s) && k in s.flows && JobOk(s, k)
    requires s.flows[k].Multiple? ==>
               ComposedAt(s, k) && TriesOk(s, k, |g.deps[k]|) && GroupOk(g, s, k) && NotifyOk(s, k, |g.deps[k]|)
    ensures FlowOk(g, s, k)
  {
  }

  lemma ShapeFits(g: Graph, s: State)
    requires Shape(g, s)
    ensures Fits(g, s)
  {
  }

  lemma TaskOf(g: Graph, s: State, t: Task)
    requires Shape(g, s) && t in s.pending
    ensures TaskFits(g, t) && Fits(g, s)
  {
  }
}
