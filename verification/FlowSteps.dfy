/** The atomic steps of the executable flows, and the step relation of a whole run. */
module FlowSteps {
  import opened FlowTypes

  /** What the synchronized part of execute decided. */
  datatype Outcome =
    | Begin            // READY: this call does the work
    | Wait             // RUNNING: the callback was queued
    | Answer(verdict: Status)
    | Drop             // the composed flow's default branch: the callback is forgotten
    | Refuse           // IllegalArgumentException: differing parentProps

  /** IndividualJobExecutableFlow.execute, GroupedExecutableFlow.execute and
      ComposedExecutableFlow.execute differ only in what they do when IGNORED. */
  datatype Kind = Individual | Grouped | Composed

  function EnterNode(kind: Kind, n: NodeState, props: PropMap, cb: Callback): (NodeState, Outcome) {
    if n.parentProps.Some? && n.status != COMPLETED && n.parentProps.value != props then (n, Refuse)
    else
      var m := if n.parentProps.None? then n.(parentProps := Some(props)) else n;
      match n.status
      case READY => (m.(status := RUNNING, callbacks := m.callbacks + [cb]), Begin)
      case RUNNING => (m.(callbacks := m.callbacks + [cb]), Wait)
      case COMPLETED => (m, Answer(SUCCEEDED))
      case SUCCEEDED => (m, Answer(SUCCEEDED))
      case FAILED => (m, Answer(FAILED))
      case IGNORED =>
        match kind
        case Individual => (m.(status := COMPLETED), Answer(SUCCEEDED))
        case Grouped => (m, Answer(SUCCEEDED))
        case Composed => (m, Drop)
  }

  /** The job could not be loaded, or its thread ended. */
  function FinishJob(n: NodeState, c: Choice): NodeState {
    if c.ok then n.(status := SUCCEEDED, returnProps := Some(c.output))
    else n.(status := FAILED, returnProps := Some(map[]))
  }

  /** cancel: a job that is not at its end fails at once; the callbacks to complete are the second result. */
  function CancelNode(n: NodeState): (NodeState, seq<Callback>) {
    if n.status in {COMPLETED, SUCCEEDED, FAILED, IGNORED} then (n, [])
    else (n.(status := FAILED, callbacks := [], returnProps := Some(map[])), n.callbacks)
  }

  /** returnProps of a successful group: each child's output overrides the earlier ones. */
  function Merge(flows: map<Job, Flow>, ds: seq<Job>): PropMap
    requires forall d :: d in ds ==> d in flows
  {
    if ds == [] then map[]
    else Merge(flows, ds[..|ds| - 1]) + flows[ds[|ds| - 1]].Output()
  }

  /** GroupedExecutableFlow.updateState. */
  function UpdateGroup(flows: map<Job, Flow>, ds: seq<Job>, n: NodeState): NodeState
    requires forall d :: d in ds ==> d in flows
  {
    if exists d :: d in ds && flows[d].GetStatus() == FAILED then
      n.(status := FAILED, returnProps := Some(map[]))
    else if forall d :: d in ds ==> IsDone(flows[d].GetStatus()) then
      n.(status := SUCCEEDED, returnProps := Some(Merge(flows, ds)))
    else n
  }

  /** The calls callCallbacks makes for a callback list. */
  function Deliveries(cbs: seq<Callback>, verdict: Status): seq<Task> {
    if cbs == [] then [] else [Deliver(cbs[0], verdict)] + Deliveries(cbs[1..], verdict)
  }

  /** The turns of the loop over the children from index i on. */
  function Tries(k: Job, i: nat, n: nat): seq<Task>
    requires i <= n
    decreases n - i
  {
    if i == n then [] else [TryChild(k, i)] + Tries(k, i + 1, n)
  }

  /** What one task does: it rewrites the flow of one job, leaves further tasks and adds to the logs. */
  datatype Effect = Effect(
    job: Job,
    flow: Flow,
    spawned: seq<Task>,
    handed: multiset<Callback>,
    completed: multiset<Completion>,
    launched: multiset<Job>,
    fault: bool)

  function Same(s: State, k: Job): Effect
    requires k in s.flows
  {
    Effect(k, s.flows[k], [], multiset{}, multiset{}, multiset{}, false)
  }

  /** The flow map mirrors the graph. */
  ghost predicate Fits(g: Graph, s: State) {
    && g.Closed()
    && s.flows.Keys == g.deps.Keys
    && forall k {:trigger s.flows[k]} :: k in s.flows ==> (s.flows[k].Single? <==> |g.deps[k]| == 0)
  }

  /** The task names objects that exist. */
  ghost predicate TaskFits(g: Graph, t: Task) {
    match t
    case Enter(n, p, cb) => g.IsCallback(cb) && g.Home(cb) == n
    case Load(j) => j in g.deps
    case Run(j) => j in g.deps
    case Deliver(cb, v) => g.IsCallback(cb) && IsVerdict(v)
    case _ => t.group in g.deps && t.child < |g.deps[t.group]|
  }

  function EnterEffect(g: Graph, s: State, n: Node, p: PropMap, cb: Callback): Effect
    requires Fits(g, s) && g.IsNode(n)
  {
    var k := n.job;
    var f := s.flows[k];
    match n
    case IndividualNode(_) =>
      var (m, o) := EnterNode(Individual, f.job, p, cb);
      var e := Same(s, k).(flow := f.(job := m));
      EnterOutcome(e, o, cb, [Load(k)], multiset{})
    case ComposedNode(_) =>
      var (m, o) := EnterNode(Composed, f.composed, p, cb);
      var e := Same(s, k).(flow := f.(composed := m));
      EnterOutcome(e, o, cb, [Enter(GroupedNode(k), p, DependeeCallback(k))], multiset{DependeeCallback(k)})
    case GroupedNode(_) =>
      var (m, o) := EnterNode(Grouped, f.group, p, cb);
      var e := Same(s, k).(flow := f.(group := m));
      EnterOutcome(e, o, cb, Tries(k, 0, |g.deps[k]|), multiset{})
  }

  function EnterOutcome(e: Effect, o: Outcome, cb: Callback, begin: seq<Task>, hands: multiset<Callback>): Effect {
    match o
    case Begin => e.(spawned := begin, handed := hands)
    case Wait => e
    case Answer(v) => e.(spawned := [Deliver(cb, v)])
    case Drop => e
    case Refuse => e.(fault := true)
  }

  function DeliverEffect(g: Graph, s: State, cb: Callback, v: Status): Effect
    requires Fits(g, s) && g.IsCallback(cb)
  {
    var log := multiset{Completion(cb, v)};
    match cb
    case Caller => Same(s, g.root).(completed := log)
    case GroupCallback(k, i) =>
      var f := s.flows[k];
      Same(s, k).(flow := f.(group := UpdateGroup(s.flows, g.deps[k], f.group)),
                  spawned := [ReadFirst(k, i)], completed := log)
    case DependeeCallback(k) =>
      var f := s.flows[k];
      if v == SUCCEEDED then
        var p := OrEmpty(f.composed.parentProps) + OrEmpty(f.group.returnProps);
        Same(s, k).(spawned := [Enter(IndividualNode(k), p, DependerCallback(k))],
                    handed := multiset{DependerCallback(k)}, completed := log)
      else
        Same(s, k).(flow := f.(composed := f.composed.(status := v)),
                    spawned := Deliveries(f.composed.callbacks, v), completed := log)
    case DependerCallback(k) =>
      var f := s.flows[k];
      Same(s, k).(flow := f.(composed := f.composed.(status := v)),
                  spawned := Deliveries(f.composed.callbacks, v), completed := log)
  }

  function StepEffect(g: Graph, s: State, t: Task, c: Choice): Effect
    requires Fits(g, s) && TaskFits(g, t)
  {
    match t
    case Enter(n, p, cb) => EnterEffect(g, s, n, p, cb)
    case Load(j) =>
      var f := s.flows[j];
      if c.ok then Same(s, j).(spawned := [Run(j)], launched := multiset{j})
      else Same(s, j).(flow := f.(job := f.job.(status := FAILED)),
                       spawned := Deliveries(f.job.callbacks, FAILED))
    case Run(j) =>
      var f := s.flows[j];
      var m := FinishJob(f.job, c);
      Same(s, j).(flow := f.(job := m), spawned := Deliveries(f.job.callbacks, m.status))
    case TryChild(k, i) =>
      var f := s.flows[k];
      if f.group.status == FAILED then Same(s, k)
      else
        var cb := GroupCallback(k, i);
        Same(s, k).(spawned := [Enter(g.Home(cb), OrEmpty(f.group.parentProps), cb)], handed := multiset{cb})
    case Deliver(cb, v) => DeliverEffect(g, s, cb, v)
    case ReadFirst(k, i) =>
      Same(s, k).(spawned := if s.flows[k].group.status == SUCCEEDED then [CasSucceeded(k, i)] else [ReadSecond(k, i)])
    case CasSucceeded(k, i) =>
      var f := s.flows[k];
      if f.group.notified then Same(s, k).(spawned := [ReadSecond(k, i)])
      else Same(s, k).(flow := f.(group := f.group.(notified := true)),
                       spawned := Deliveries(f.group.callbacks, SUCCEEDED))
    case ReadSecond(k, i) =>
      Same(s, k).(spawned := if s.flows[k].group.status == FAILED then [CasFailed(k, i)] else [])
    case CasFailed(k, i) =>
      var f := s.flows[k];
      if f.group.notified then Same(s, k)
      else Same(s, k).(flow := f.(group := f.group.(notified := true)),
                       spawned := Deliveries(f.group.callbacks, FAILED))
  }

  function Without(q: seq<Task>, i: nat): seq<Task>
    requires i < |q|
  {
    q[..i] + q[i + 1..]
  }

  function Apply(s: State, i: nat, e: Effect): State
    requires i < |s.pending|
  {
    State(s.flows[e.job := e.flow],
          Without(s.pending, i) + e.spawned,
          s.handed + e.handed,
          s.completions + e.completed,
          s.started + e.launched,
          s.fault || e.fault)
  }

  /** Some thread does its next task. Any pending task may come first: this covers every
      order in which the threads can be scheduled, and more. */
  ghost predicate Next(g: Graph, s: State, s': State) {
    exists i: nat, c: Choice :: StepsTo(g, s, i, c, s')
  }

  ghost predicate StepsTo(g: Graph, s: State, i: nat, c: Choice, s': State) {
    && Fits(g, s)
    && i < |s.pending|
    && TaskFits(g, s.pending[i])
    && s' == Apply(s, i, StepEffect(g, s, s.pending[i], c))
  }

  /** root.execute(p, caller) is called on objects at rest. */
  function Launch(g: Graph, flows: map<Job, Flow>, p: PropMap): State
    requires g.root in g.deps
  {
    State(flows, [Enter(g.Front(g.root), p, Caller)], multiset{Caller}, multiset{}, multiset{}, false)
  }

  ghost predicate IsRun(g: Graph, run: seq<State>) {
    && run != []
    && forall i, j {:trigger run[i], run[j]} :: 0 <= i < j == i + 1 < |run| ==> Next(g, run[i], run[j])
  }
}
