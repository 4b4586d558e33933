/** The values a run of a flow is made of: statuses, callbacks, node fields and the job graph. */
module FlowTypes {

  type Job = string

  /** Properties seen as one flat map; module PropsChain shows that a chain of Props behaves as such a map. */
  type PropMap = map<string, string>

  datatype Option<+T> = None | Some(value: T)

  datatype Status = READY | RUNNING | SUCCEEDED | FAILED | COMPLETED | IGNORED

  /** Good for a dependent: the job ran and succeeded, or it was marked as completed. */
  predicate IsDone(st: Status) {
    st == SUCCEEDED || st == COMPLETED
  }

  /** The only two statuses a callback is ever completed with. */
  predicate IsVerdict(st: Status) {
    st == SUCCEEDED || st == FAILED
  }

  /** Every callback that can be handed to an execute call.
      Caller is the one given to the root; the others are the inner callbacks of the
      grouped and composed flows. A group hands one object to all its children: the
      child index tells the handings apart. */
  datatype Callback =
    | Caller
    | GroupCallback(group: Job, child: nat)
    | DependeeCallback(flow: Job)
    | DependerCallback(flow: Job)

  /** The executable objects: the wrapped job, the group of dependees and the composition of the two. */
  datatype Node = IndividualNode(job: Job) | ComposedNode(job: Job) | GroupedNode(job: Job)

  /** The fields of an executable object. `notified` is the group's AtomicBoolean. */
  datatype NodeState = NodeState(
    status: Status,
    parentProps: Option<PropMap>,
    returnProps: Option<PropMap>,
    callbacks: seq<Callback>,
    notified: bool)

  /** The executable flow of one job: a lone job, or the three objects of a
      MultipleDependencyExecutableFlow. */
  datatype Flow =
    | Single(job: NodeState)
    | Multiple(job: NodeState, composed: NodeState, group: NodeState)
  {
    /** The object other flows hold: the composition when there are dependencies. */
    function Front(): NodeState {
      if Single? then job else composed
    }

    function GetStatus(): Status {
      Front().status
    }

    /** getReturnProps: a job's own output, or the group's output overridden by it. */
    function Output(): PropMap {
      if Single? then OrEmpty(job.returnProps)
      else OrEmpty(group.returnProps) + OrEmpty(job.returnProps)
    }
  }

  function OrEmpty(p: Option<PropMap>): PropMap {
    if p.Some? then p.value else map[]
  }

  function Lookup(m: PropMap, key: string): Option<string> {
    if key in m then Some(m[key]) else None
  }

  /** deps lists a job's direct dependencies in the order the group holds them. */
  datatype Graph = Graph(deps: map<Job, seq<Job>>, root: Job) {
    ghost predicate Closed() {
      && root in deps
      && forall k, i {:trigger deps[k][i]} :: k in deps && 0 <= i < |deps[k]| ==> deps[k][i] in deps
    }

    /** rank goes down along every dependency, so there is no cycle. */
    ghost predicate RankedBy(rank: map<Job, nat>) {
      && Closed()
      && deps.Keys <= rank.Keys
      && forall k, i {:trigger deps[k][i]} :: k in deps && 0 <= i < |deps[k]| ==> rank[deps[k][i]] < rank[k]
    }

    function Front(k: Job): Node
      requires k in deps
    {
      if |deps[k]| == 0 then IndividualNode(k) else ComposedNode(k)
    }

    predicate IsCallback(cb: Callback) {
      match cb
      case Caller => root in deps
      case GroupCallback(k, i) => k in deps && i < |deps[k]| && deps[k][i] in deps
      case DependeeCallback(k) => k in deps && |deps[k]| > 0
      case DependerCallback(k) => k in deps && |deps[k]| > 0
    }

    /** The object whose execute is given the callback. */
    function Home(cb: Callback): Node
      requires IsCallback(cb)
    {
      match cb
      case Caller => Front(root)
      case GroupCallback(k, i) => Front(deps[k][i])
      case DependeeCallback(k) => GroupedNode(k)
      case DependerCallback(k) => IndividualNode(k)
    }

    predicate IsNode(n: Node) {
      n.job in deps && (n.IndividualNode? || |deps[n.job]| > 0)
    }
  }

  /** One call or phase that some thread has still to do. */
  datatype Task =
    | Enter(target: Node, props: PropMap, callback: Callback)  // target.execute(props, callback)
    | Load(job: Job)                                           // jobManager.loadJob
    | Run(job: Job)                                            // the job's own thread
    | TryChild(group: Job, child: nat)                         // one turn of the loop in the group's execute
    | Deliver(callback: Callback, verdict: Status)             // callback.completed(verdict)
    | ReadFirst(group: Job, child: nat)                        // jobState == SUCCEEDED, read without the lock
    | CasSucceeded(group: Job, child: nat)                     // compareAndSet after that read said yes
    | ReadSecond(group: Job, child: nat)                       // jobState == FAILED, read without the lock
    | CasFailed(group: Job, child: nat)                        // compareAndSet after that read said yes

  datatype Completion = Completion(callback: Callback, verdict: Status)

  /** A whole run so far: the objects, what the threads still have to do, and three logs:
      callbacks handed to an execute call, completions made, job threads started. */
  datatype State = State(
    flows: map<Job, Flow>,
    pending: seq<Task>,
    handed: multiset<Callback>,
    completions: multiset<Completion>,
    started: multiset<Job>,
    fault: bool)

  /** What the outside world decides in a step: whether loading or running the job works,
      and what the job outputs. */
  datatype Choice = Choice(ok: bool, output: PropMap)
}
