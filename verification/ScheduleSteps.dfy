/** The schedule as a state machine: what scheduling, removing and a tick of the runner do to the id
    map and the queue. Jobs are told apart by identity: R is the type of references to them. */
module ScheduleSteps {
  import opened ScheduledJobs

  /** A call of executeJob: when the job was due, and when it was found to be. */
  datatype Execution<R> = Execution(job: R, due: int, at: int)

  /** What came of running a due job. */
  datatype Attempt =
    | CheckSaysNo        // an event job whose messages have not come yet
    | Executed
    | JobException       // JobExecutionException: logged and forgotten
    | OtherException     // ends the tick before the job is put back

  /** infos and times are the fields of every job handed in so far; executions and dropped are logs. */
  datatype State<R> = State(
    infos: map<R, JobInfo>,
    times: map<R, int>,
    scheduleIDMap: map<string, R>,
    queue: multiset<R>,
    executions: seq<Execution<R>>,
    dropped: set<R>)

  datatype Event<R> =
    | Schedule(job: R, info: JobInfo, time: int, clock: Clock)
    | Remove(id: string)
    | Tick(job: R, at: int, attempt: Attempt, clock: Clock)

  function Start<R>(): State<R> {
    State(map[], map[], map[], multiset{}, [], {})
  }

  /** A least entry of the queue: what peek may return. */
  ghost predicate IsHead<R>(s: State<R>, job: R) {
    && job in s.queue && job in s.times && job in s.infos
    && forall r :: r in s.queue ==> r in s.times && s.times[job] <= s.times[r]
  }

  /** Job objects are new when they are scheduled, and the clock does not go back. */
  ghost predicate Enabled<R>(s: State<R>, e: Event<R>) {
    match e
    case Schedule(job, _, _, clock) => job !in s.infos && clock.Forward()
    case Remove(_) => true
    case Tick(job, at, attempt, clock) =>
      && IsHead(s, job) && clock.Forward() && at <= clock.check
      && (attempt.CheckSaysNo? ==> s.infos[job].event.Some?)
  }

  /** internalSchedule: the time is brought up to date first, so an exception there leaves everything
      as it was. */
  function ScheduleStep<R>(s: State<R>, job: R, info: JobInfo, time: int, clock: Clock): State<R> {
    var u := UpdateTime(info, time, clock);
    var seen := s.(infos := s.infos[job := info], times := s.times[job := if u.Updated? then u.next else time]);
    if u.Raised? then seen else Install(seen, job, info.id)
  }

  /** The job takes the place of the one its id had. */
  function Install<R>(s: State<R>, job: R, id: string): State<R> {
    var rest := if id in s.scheduleIDMap then s.queue - multiset{s.scheduleIDMap[id]} else s.queue;
    s.(queue := rest + multiset{job}, scheduleIDMap := s.scheduleIDMap[id := job])
  }

  /** removeScheduledJob: for an unknown id a null pointer exception ends the call. */
  function RemoveStep<R>(s: State<R>, id: string): State<R> {
    if id !in s.scheduleIDMap then s
    else s.(scheduleIDMap := s.scheduleIDMap - {id}, queue := s.queue - multiset{s.scheduleIDMap[id]})
  }

  /** The due job is polled and, unless its check says no, executed. */
  function TryJob<R>(s: State<R>, job: R, at: int, attempt: Attempt): State<R>
    requires job in s.times
  {
    s.(queue := s.queue - multiset{job},
       executions := if attempt.CheckSaysNo? then s.executions else s.executions + [Execution(job, s.times[job], at)])
  }

  /** The job is put back for its next time; without one it leaves the queue, but not the id map. */
  function Reschedule<R>(s: State<R>, job: R, u: Update): State<R> {
    match u
    case Updated(next) => s.(times := s.times[job := next], queue := s.queue + multiset{job})
    case NotRecurring => s.(queue := s.queue - multiset{job})
    case Raised(_) => s.(dropped := s.dropped + {job})
  }

  /** One round of the runner with this job at the head of the queue. */
  function TickStep<R>(s: State<R>, job: R, at: int, attempt: Attempt, clock: Clock): State<R>
    requires job in s.times && job in s.infos
  {
    if s.times[job] > at then s
    else
      var tried := TryJob(s, job, at, attempt);
      if attempt.OtherException? then tried.(dropped := tried.dropped + {job})
      else Reschedule(tried, job, UpdateTime(s.infos[job], s.times[job], clock))
  }

  ghost function Step<R>(s: State<R>, e: Event<R>): State<R>
    requires Enabled(s, e)
  {
    match e
    case Schedule(job, info, time, clock) => ScheduleStep(s, job, info, time, clock)
    case Remove(id) => RemoveStep(s, id)
    case Tick(job, at, attempt, clock) => TickStep(s, job, at, attempt, clock)
  }

  // ---- What every step keeps ----

  /** Queued jobs are the ones the id map holds, each once. */
  ghost predicate QueueOk<R>(s: State<R>) {
    && s.infos.Keys == s.times.Keys
    && (forall id :: id in s.scheduleIDMap ==> s.scheduleIDMap[id] in s.infos && s.infos[s.scheduleIDMap[id]].id == id)
    && (forall r :: r in s.queue ==> Held(s, r))
  }

  /** r is queued once, as the job of its id. */
  ghost predicate Held<R>(s: State<R>, r: R) {
    s.queue[r] == 1 && r in s.infos && s.infos[r].id in s.scheduleIDMap && s.scheduleIDMap[s.infos[r].id] == r
  }

  /** The recurring job of this id waits in the queue or was dropped. */
  ghost predicate Waits<R>(s: State<R>, id: string)
    requires id in s.scheduleIDMap && s.scheduleIDMap[id] in s.infos
  {
    var r := s.scheduleIDMap[id];
    s.infos[r].period.Some? ==> r in s.queue || r in s.dropped
  }

  /** A recurring job that is scheduled waits in the queue, unless an exception has dropped it. */
  ghost predicate NothingLost<R>(s: State<R>) {
    && s.infos.Keys == s.times.Keys
    && (forall id :: id in s.scheduleIDMap ==> s.scheduleIDMap[id] in s.infos)
    && (forall id :: id in s.scheduleIDMap ==> Waits(s, id))
  }

  /** No execution came before its time; a job's later executions were due after its earlier ones
      had been made, and so is the one it waits for; a job without a period does not wait again. */
  ghost predicate LogOk<R>(s: State<R>) {
    && s.infos.Keys == s.times.Keys
    && (forall i :: 0 <= i < |s.executions| ==>
         s.executions[i].job in s.infos && s.executions[i].due <= s.executions[i].at)
    && (forall i, j :: 0 <= i < j < |s.executions| && s.executions[i].job == s.executions[j].job ==>
          s.executions[i].at < s.executions[j].due)
    && (forall i :: 0 <= i < |s.executions| && s.executions[i].job in s.queue ==>
          s.infos[s.executions[i].job].period.Some? && s.executions[i].at < s.times[s.executions[i].job])
    && (forall r :: r in s.queue ==> r in s.infos)
  }

  ghost predicate Inv<R>(s: State<R>) {
    QueueOk(s) && NothingLost(s) && LogOk(s)
  }

  /** Taking an entry out and putting one in. */
  lemma Counts<R>(q: multiset<R>, out: R, x: R)
    ensures (q - multiset{out})[x] == if x == out && q[out] > 0 then q[x] - 1 else q[x]
    ensures (q + multiset{out})[x] == if x == out then q[x] + 1 else q[x]
  {
  }

  lemma TryParts<R>(s: State<R>, job: R, at: int, attempt: Attempt, r: R)
    requires job in s.times && job in s.queue
    ensures var t := TryJob(s, job, at, attempt);
            && t == s.(queue := t.queue, executions := t.executions)
            && t.queue[r] == if r == job then s.queue[r] - 1 else s.queue[r]
  {
    Counts(s.queue, job, r);
  }

  lemma RescheduleParts<R>(s: State<R>, job: R, u: Update, r: R)
    ensures var t := Reschedule(s, job, u);
            && t == s.(queue := t.queue, times := t.times, dropped := t.dropped)
            && t.dropped == (if u.Raised? then s.dropped + {job} else s.dropped)
            && (r != job || u.Raised? ==> t.queue[r] == s.queue[r])
            && (r == job && u.Updated? ==> t.queue[r] == s.queue[r] + 1)
            && (r == job && u.NotRecurring? ==> t.queue[r] == if s.queue[r] > 0 then s.queue[r] - 1 else 0)
  {
    Counts(s.queue, job, r);
  }

  /** What a round does to one entry of the queue. */
  lemma TickParts<R>(s: State<R>, job: R, at: int, attempt: Attempt, clock: Clock, r: R)
    requires job in s.times && job in s.infos && job in s.queue
    ensures var t, u := TickStep(s, job, at, attempt, clock), UpdateTime(s.infos[job], s.times[job], clock);
            var due := s.times[job] <= at;
            && t.infos == s.infos && t.scheduleIDMap == s.scheduleIDMap
            && (!due ==> t == s)
            && t.dropped == (if due && (attempt.OtherException? || u.Raised?) then s.dropped + {job} else s.dropped)
            && (r != job ==> t.queue[r] == s.queue[r])
            && (r == job && due && !attempt.OtherException? && u.Updated? ==> t.queue[r] == s.queue[r])
            && (r == job && due && (attempt.OtherException? || u.Raised?) ==> t.queue[r] == s.queue[r] - 1)
            && (r == job && due && !attempt.OtherException? && u.NotRecurring? ==>
                  t.queue[r] == if s.queue[r] > 1 then s.queue[r] - 2 else 0)
  {
    hide UpdateTime, TryJob, Reschedule;
    TryParts(s, job, at, attempt, r);
    RescheduleParts(TryJob(s, job, at, attempt), job, UpdateTime(s.infos[job], s.times[job], clock), r);
  }

  /** The entries of the former state, in one that also knows the new job. */
  function Seen<R>(s: State<R>, job: R, info: JobInfo, time: int): State<R> {
    s.(infos := s.infos[job := info], times := s.times[job := time])
  }

  lemma ScheduleParts<R>(s: State<R>, job: R, info: JobInfo, time: int, clock: Clock)
    ensures var u := UpdateTime(info, time, clock); var seen := Seen(s, job, info, if u.Updated? then u.next else time);
            ScheduleStep(s, job, info, time, clock) == if u.Raised? then seen else Install(seen, job, info.id)
  {
    hide UpdateTime, Install;
  }

  lemma ScheduleHolds<R>(s: State<R>, job: R, info: JobInfo, time: int, clock: Clock, r: R)
    requires QueueOk(s) && job !in s.infos && r in ScheduleStep(s, job, info, time, clock).queue
    ensures Held(ScheduleStep(s, job, info, time, clock), r)
  {
    hide UpdateTime, Install, Held, ScheduleStep;
    var u := UpdateTime(info, time, clock);
    var seen := Seen(s, job, info, if u.Updated? then u.next else time);
    ScheduleParts(s, job, info, time, clock);
    HeldIsKnown(s, job);
    forall x | x in s.queue ensures Held(seen, x) {
      HeldIsKnown(s, x);
      HeldSeen(s, seen, x);
    }
    if !u.Raised? { InstallHolds(seen, job, info.id, r); }
  }

  lemma HeldIsKnown<R>(s: State<R>, r: R)
    ensures Held(s, r) ==> r in s.infos
  {
  }

  lemma HeldSeen<R>(s: State<R>, t: State<R>, r: R)
    requires Held(s, r) && t.queue == s.queue && t.scheduleIDMap == s.scheduleIDMap
    requires r in t.infos && (r in s.infos ==> t.infos[r] == s.infos[r])
    ensures Held(t, r)
  {
  }

  lemma InstallHolds<R>(s: State<R>, job: R, id: string, r: R)
    requires (forall x :: x in s.queue ==> Held(s, x)) && job !in s.queue && job in s.infos && s.infos[job].id == id
    requires r in Install(s, job, id).queue
    requires id in s.scheduleIDMap ==> s.scheduleIDMap[id] != job
    ensures Held(Install(s, job, id), r)
  {
    if id in s.scheduleIDMap {
      var former := s.scheduleIDMap[id];
      Counts(s.queue, former, r);
      Counts(s.queue, former, job);
      Counts(s.queue - multiset{former}, job, r);
    } else {
      Counts(s.queue, job, r);
    }
    if r != job { assert Held(s, r); }
  }

  lemma ScheduleQueue<R>(s: State<R>, job: R, info: JobInfo, time: int, clock: Clock)
    requires QueueOk(s) && job !in s.infos
    ensures QueueOk(ScheduleStep(s, job, info, time, clock))
  {
    hide Held;
    var t := ScheduleStep(s, job, info, time, clock);
    ScheduleKnown(s, job, info, time, clock);
    hide ScheduleStep;
    forall r | r in t.queue ensures Held(t, r) { ScheduleHolds(s, job, info, time, clock, r); }
  }

  lemma ScheduleKnown<R>(s: State<R>, job: R, info: JobInfo, time: int, clock: Clock)
    requires QueueOk(s) && job !in s.infos
    ensures var t := ScheduleStep(s, job, info, time, clock);
            && t.infos.Keys == t.times.Keys
            && (forall id :: id in t.scheduleIDMap ==>
                 t.scheduleIDMap[id] in t.infos && t.infos[t.scheduleIDMap[id]].id == id)
  {
    hide Held, UpdateTime;
  }

  lemma ScheduleLosesNone<R>(s: State<R>, job: R, info: JobInfo, time: int, clock: Clock)
    requires QueueOk(s) && NothingLost(s) && job !in s.infos
    ensures NothingLost(ScheduleStep(s, job, info, time, clock))
  {
    hide UpdateTime, Held, Install, Waits, ScheduleStep;
    var u := UpdateTime(info, time, clock);
    var seen := Seen(s, job, info, if u.Updated? then u.next else time);
    ScheduleParts(s, job, info, time, clock);
    forall id | id in s.scheduleIDMap ensures Waits(seen, id) {
      assert Waits(s, id);
      WaitsSeen(s, seen, id);
    }
    if !u.Raised? {
      var t := Install(seen, job, info.id);
      InstallFields(seen, job, info.id);
      forall id | id in t.scheduleIDMap ensures t.scheduleIDMap[id] in t.infos && Waits(t, id) {
        InstallWaits(seen, job, info.id, id);
      }
    }
  }

  lemma WaitsSeen<R>(s: State<R>, t: State<R>, id: string)
    requires id in s.scheduleIDMap && s.scheduleIDMap[id] in s.infos && Waits(s, id)
    requires t.queue == s.queue && t.dropped == s.dropped && t.scheduleIDMap == s.scheduleIDMap
    requires s.scheduleIDMap[id] in t.infos && t.infos[s.scheduleIDMap[id]] == s.infos[s.scheduleIDMap[id]]
    ensures Waits(t, id)
  {
  }

  lemma InstallFields<R>(s: State<R>, job: R, id: string)
    ensures Install(s, job, id).infos == s.infos && Install(s, job, id).times == s.times
  {
  }

  lemma InstallWaits<R>(s: State<R>, job: R, id: string, x: string)
    requires job in s.infos && s.infos[job].id == id && x in Install(s, job, id).scheduleIDMap
    requires forall y :: y in s.scheduleIDMap ==>
               s.scheduleIDMap[y] in s.infos && s.infos[s.scheduleIDMap[y]].id == y && Waits(s, y)
    ensures Install(s, job, id).scheduleIDMap[x] in s.infos && Waits(Install(s, job, id), x)
  {
    if x != id && id in s.scheduleIDMap { Counts(s.queue, s.scheduleIDMap[id], s.scheduleIDMap[x]); }
  }

  lemma ScheduleLog<R>(s: State<R>, job: R, info: JobInfo, time: int, clock: Clock)
    requires LogOk(s) && job !in s.infos
    ensures LogOk(ScheduleStep(s, job, info, time, clock))
  {
    hide UpdateTime;
  }

  lemma RemoveQueue<R>(s: State<R>, id: string)
    requires QueueOk(s)
    ensures QueueOk(RemoveStep(s, id))
  {
    var t := RemoveStep(s, id);
    forall r | r in t.queue ensures Held(t, r) {
      assert Held(s, r);
      if id in s.scheduleIDMap { Counts(s.queue, s.scheduleIDMap[id], r); }
    }
  }

  lemma RemoveLosesNone<R>(s: State<R>, id: string)
    requires QueueOk(s) && NothingLost(s)
    ensures NothingLost(RemoveStep(s, id))
  {
    var t := RemoveStep(s, id);
    forall x | x in t.scheduleIDMap ensures Waits(t, x) {
      assert Waits(s, x);
      if id in s.scheduleIDMap { Counts(s.queue, s.scheduleIDMap[id], s.scheduleIDMap[x]); }
    }
    hide Held;
  }

  lemma RemoveLog<R>(s: State<R>, id: string)
    requires LogOk(s)
    ensures LogOk(RemoveStep(s, id))
  {
  }

  lemma RemoveKeeps<R>(s: State<R>, id: string)
    requires Inv(s)
    ensures Inv(RemoveStep(s, id))
  {
    hide QueueOk, NothingLost, LogOk, RemoveStep;
    RemoveQueue(s, id);
    RemoveLosesNone(s, id);
    RemoveLog(s, id);
  }

  lemma TickHolds<R>(s: State<R>, job: R, at: int, attempt: Attempt, clock: Clock, r: R)
    requires QueueOk(s) && job in s.queue && job in s.times && job in s.infos
    requires r in TickStep(s, job, at, attempt, clock).queue
    ensures Held(TickStep(s, job, at, attempt, clock), r)
  {
    hide Held, TickStep, UpdateTime;
    HeadHeld(s, job);
    TickParts(s, job, at, attempt, clock, r);
    assert r in s.queue ==> Held(s, r);
    HeldOn(s, TickStep(s, job, at, attempt, clock), r);
  }

  lemma HeldOn<R>(s: State<R>, t: State<R>, r: R)
    requires Held(s, r) && 0 < t.queue[r] <= s.queue[r] && t.infos == s.infos && t.scheduleIDMap == s.scheduleIDMap
    ensures Held(t, r)
  {
  }

  lemma TickQueue<R>(s: State<R>, job: R, at: int, attempt: Attempt, clock: Clock)
    requires QueueOk(s) && job in s.queue && job in s.times && job in s.infos
    ensures QueueOk(TickStep(s, job, at, attempt, clock))
  {
    hide Held;
    var t := TickStep(s, job, at, attempt, clock);
    TickKnown(s, job, at, attempt, clock);
    hide TickStep;
    forall r | r in t.queue ensures Held(t, r) { TickHolds(s, job, at, attempt, clock, r); }
  }

  lemma TickKnown<R>(s: State<R>, job: R, at: int, attempt: Attempt, clock: Clock)
    requires QueueOk(s) && job in s.times && job in s.infos && job in s.queue
    ensures var t := TickStep(s, job, at, attempt, clock);
            && t.infos.Keys == t.times.Keys
            && (forall id :: id in t.scheduleIDMap ==>
                 t.scheduleIDMap[id] in t.infos && t.infos[t.scheduleIDMap[id]].id == id)
  {
    hide Held, UpdateTime, TickStep;
    TickParts(s, job, at, attempt, clock, job);
    TickKeys(s, job, at, attempt, clock);
  }

  lemma TickWaits<R>(s: State<R>, job: R, at: int, attempt: Attempt, clock: Clock, id: string)
    requires NothingLost(s) && job in s.queue && job in s.times && job in s.infos && id in s.scheduleIDMap
    ensures var t := TickStep(s, job, at, attempt, clock);
            id in t.scheduleIDMap && t.scheduleIDMap[id] in t.infos && Waits(t, id)
  {
    hide TickStep;
    assert Waits(s, id);
    OneRound(s.infos[job], s.times[job], clock);
    hide UpdateTime;
    TickParts(s, job, at, attempt, clock, s.scheduleIDMap[id]);
  }

  /** Only a job without a period is not put back. */
  lemma OneRound(info: JobInfo, time: int, clock: Clock)
    ensures UpdateTime(info, time, clock).NotRecurring? ==> info.period.None?
    ensures time <= clock.check && info.period.None? ==> UpdateTime(info, time, clock).NotRecurring?
  {
    hide NextRuntime;
  }

  lemma TickLosesNone<R>(s: State<R>, job: R, at: int, attempt: Attempt, clock: Clock)
    requires NothingLost(s) && job in s.queue && job in s.times && job in s.infos
    ensures NothingLost(TickStep(s, job, at, attempt, clock))
  {
    hide UpdateTime, Waits, TickStep;
    var t := TickStep(s, job, at, attempt, clock);
    TickParts(s, job, at, attempt, clock, job);
    TickKeys(s, job, at, attempt, clock);
    forall id | id in t.scheduleIDMap ensures t.scheduleIDMap[id] in t.infos && Waits(t, id) {
      TickWaits(s, job, at, attempt, clock, id);
    }
  }

  lemma TickKeys<R>(s: State<R>, job: R, at: int, attempt: Attempt, clock: Clock)
    requires job in s.times && job in s.infos
    ensures TickStep(s, job, at, attempt, clock).times.Keys == s.times.Keys
  {
    hide UpdateTime;
  }

  /** The log is in order once the due job is taken out of the queue and its execution written down. */
  lemma TryLog<R>(s: State<R>, job: R, at: int, attempt: Attempt)
    requires LogOk(s) && s.queue[job] == 1 && job in s.times && s.times[job] <= at
    ensures LogOk(TryJob(s, job, at, attempt)) && job !in TryJob(s, job, at, attempt).queue
  {
  }

  lemma RescheduleLog<R>(s: State<R>, job: R, u: Update)
    requires LogOk(s) && job !in s.queue && job in s.infos
    requires u.Updated? ==> s.infos[job].period.Some? && forall x :: x in s.executions && x.job == job ==> x.at < u.next
    ensures LogOk(Reschedule(s, job, u))
  {
  }

  /** The executions of the job so far were made before the tick. */
  lemma TriedBefore<R>(s: State<R>, job: R, at: int, attempt: Attempt)
    requires LogOk(s) && job in s.queue && job in s.times && s.times[job] <= at
    ensures forall x :: x in TryJob(s, job, at, attempt).executions && x.job == job ==> x.at <= at
  {
  }

  lemma TickLog<R>(s: State<R>, job: R, at: int, attempt: Attempt, clock: Clock)
    requires LogOk(s) && s.queue[job] == 1 && job in s.times && job in s.infos
    requires clock.Forward() && at <= clock.check
    ensures LogOk(TickStep(s, job, at, attempt, clock))
  {
    if s.times[job] <= at {
      var u := UpdateTime(s.infos[job], s.times[job], clock);
      if u.Updated? { UpdatedIsLater(s.infos[job], s.times[job], clock); }
      hide UpdateTime;
      TriedBefore(s, job, at, attempt);
      TryLog(s, job, at, attempt);
      var tried := TryJob(s, job, at, attempt);
      assert tried.infos == s.infos;
      if attempt.OtherException? {
        DroppedLog(tried, tried.dropped + {job});
      } else {
        RescheduleLog(tried, job, u);
      }
      hide LogOk, TryJob, Reschedule;
    }
  }

  lemma DroppedLog<R>(s: State<R>, dropped: set<R>)
    requires LogOk(s)
    ensures LogOk(s.(dropped := dropped))
  {
  }

  lemma {:induction false} StepKeeps<R>(s: State<R>, e: Event<R>)
    requires Inv(s) && Enabled(s, e)
    ensures Inv(Step(s, e))
  {
    hide QueueOk, NothingLost, LogOk, ScheduleStep, TickStep, RemoveStep;
    match e {
      case Schedule(job, info, time, clock) =>
        ScheduleQueue(s, job, info, time, clock);
        ScheduleLosesNone(s, job, info, time, clock);
        ScheduleLog(s, job, info, time, clock);
      case Remove(id) => RemoveKeeps(s, id);
      case Tick(job, at, attempt, clock) =>
        HeadHeld(s, job);
        TickQueue(s, job, at, attempt, clock);
        TickLosesNone(s, job, at, attempt, clock);
        TickLog(s, job, at, attempt, clock);
    }
  }

  lemma HeadHeld<R>(s: State<R>, job: R)
    requires QueueOk(s) && job in s.queue
    ensures s.queue[job] == 1
  {
    assert Held(s, job);
  }

  // ---- Runs ----

  /** The events can happen one after the other from an empty schedule. */
  ghost predicate CanRun<R>(es: seq<Event<R>>)
    decreases |es|, 0
  {
    es == [] || (CanRun(es[..|es| - 1]) && Enabled(After(es[..|es| - 1]), es[|es| - 1]))
  }

  ghost function After<R>(es: seq<Event<R>>): State<R>
    requires CanRun(es)
    decreases |es|, 1
  {
    if es == [] then Start() else Step(After(es[..|es| - 1]), es[|es| - 1])
  }

  lemma {:induction false} InvAfter<R>(es: seq<Event<R>>)
    requires CanRun(es)
    ensures Inv(After(es))
    decreases |es|
  {
    hide Inv, Step, Enabled;
    if es == [] {
      InvStart<R>();
    } else {
      InvAfter(es[..|es| - 1]);
      StepKeeps(After(es[..|es| - 1]), es[|es| - 1]);
    }
  }

  lemma InvStart<R>()
    ensures Inv(Start<R>())
  {
  }

  /** In every run the queue holds at most one entry for an id, and it is the object of the id map. */
  lemma {:induction false} OneEntryPerId<R>(es: seq<Event<R>>, r: R, r': R)
    requires CanRun(es) && r in After(es).queue && r' in After(es).queue
    ensures var s := After(es);
            && s.queue[r] == 1 && r in s.infos && r' in s.infos
            && s.infos[r].id in s.scheduleIDMap && s.scheduleIDMap[s.infos[r].id] == r
            && (s.infos[r].id == s.infos[r'].id ==> r == r')
  {
    InvAfter(es);
    hide After, CanRun;
    assert Held(After(es), r) && Held(After(es), r');
  }

  /** In every run, no job is executed before it is due, and a job's executions are each due after the
      one before was made. */
  lemma {:induction false} ExecutionsInTime<R>(es: seq<Event<R>>)
    requires CanRun(es)
    ensures var log := After(es).executions;
            && (forall i :: 0 <= i < |log| ==> log[i].due <= log[i].at)
            && (forall i, j :: 0 <= i < j < |log| && log[i].job == log[j].job ==> log[i].at < log[j].due)
  {
    InvAfter(es);
    hide After, CanRun;
  }

  /** In every run a recurring job that is scheduled waits in the queue, if no exception dropped it. */
  lemma {:induction false} RecurringJobsWait<R>(es: seq<Event<R>>, id: string)
    requires CanRun(es) && id in After(es).scheduleIDMap
    ensures var s := After(es); var r := s.scheduleIDMap[id];
            r in s.infos && (s.infos[r].period.Some? && r !in s.dropped ==> r in s.queue)
  {
    InvAfter(es);
    hide After, CanRun;
    assert Waits(After(es), id);
  }

  /** A step changes the time of a queued job only by running it when it is due, and then to a time
      after the present; otherwise the time stays while the job is queued. */
  lemma {:induction false} TimesStay<R>(s: State<R>, e: Event<R>, r: R)
    requires Inv(s) && Enabled(s, e) && r in s.queue && r in Step(s, e).queue
    ensures var t := Step(s, e);
            && r in s.times && r in t.times
            && (t.times[r] == s.times[r] || (e.Tick? && e.job == r && s.times[r] <= e.at && t.times[r] > e.clock.now))
  {
    assert Held(s, r);
    hide ScheduleStep, TickStep, NothingLost, LogOk;
    match e {
      case Schedule(job, info, time, clock) => ScheduleTimes(s, job, info, time, clock, r);
      case Remove(id) =>
      case Tick(job, at, attempt, clock) => TickTimes(s, job, at, attempt, clock, r);
    }
  }

  lemma ScheduleTimes<R>(s: State<R>, job: R, info: JobInfo, time: int, clock: Clock, r: R)
    requires r in s.times && r != job
    ensures var t := ScheduleStep(s, job, info, time, clock); r in t.times && t.times[r] == s.times[r]
  {
    hide UpdateTime;
  }

  lemma TickTimes<R>(s: State<R>, job: R, at: int, attempt: Attempt, clock: Clock, r: R)
    requires r in s.times && job in s.times && job in s.infos && clock.Forward() && at <= clock.check
    ensures var t := TickStep(s, job, at, attempt, clock);
            r in t.times && (t.times[r] == s.times[r] || (job == r && s.times[r] <= at && t.times[r] > clock.now))
  {
    if s.times[job] <= at && UpdateTime(s.infos[job], s.times[job], clock).Updated? {
      UpdatedIsLater(s.infos[job], s.times[job], clock);
    }
    hide UpdateTime;
  }

  /** A due recurring job is back in the queue after the tick, for a time after the present, if only a
      JobExecutionException was raised and the next run could be found. */
  lemma {:induction false} DueIsRequeued<R>(s: State<R>, e: Event<R>)
    requires Inv(s) && Enabled(s, e) && e.Tick? && s.times[e.job] <= e.at && s.infos[e.job].period.Some?
    requires !e.attempt.OtherException? && !UpdateTime(s.infos[e.job], s.times[e.job], e.clock).Raised?
    ensures Step(s, e).queue[e.job] == 1 && e.job in Step(s, e).times && Step(s, e).times[e.job] > e.clock.now
    ensures NextIs(s.infos[e.job], s.times[e.job], e.clock, Step(s, e).times[e.job])
  {
    HeadHeld(s, e.job);
    UpdatedIsLater(s.infos[e.job], s.times[e.job], e.clock);
    UpdatedExactly(s.infos[e.job], s.times[e.job], e.clock);
    OneRound(s.infos[e.job], s.times[e.job], e.clock);
    assert !UpdateTime(s.infos[e.job], s.times[e.job], e.clock).NotRecurring? by { hide NextRuntime; }
    hide UpdateTime, NextIs, Inv;
    TickParts(s, e.job, e.at, e.attempt, e.clock, e.job);
    hide TickStep;
    TickTime(s, e.job, e.at, e.attempt, e.clock);
  }

  lemma TickTime<R>(s: State<R>, job: R, at: int, attempt: Attempt, clock: Clock)
    requires job in s.times && job in s.infos
    ensures var t, u := TickStep(s, job, at, attempt, clock), UpdateTime(s.infos[job], s.times[job], clock);
            && job in t.times
            && t.times[job] ==
                 (if s.times[job] <= at && !attempt.OtherException? && u.Updated? then u.next else s.times[job])
  {
    hide UpdateTime;
  }

  // ---- Each event in terms of the fields ----

  /** The two states agree on all entries but those of this id and this object. */
  ghost predicate SameElsewhere<R>(s: State<R>, t: State<R>, id: string, r: R) {
    && (forall x :: x != id ==> (x in s.scheduleIDMap <==> x in t.scheduleIDMap))
    && (forall x :: x != id && x in s.scheduleIDMap && x in t.scheduleIDMap ==>
          t.scheduleIDMap[x] == s.scheduleIDMap[x])
    && (forall x :: x in s.queue && x != r ==> t.queue[x] == s.queue[x])
    && (forall x :: x in t.queue && x != r ==> t.queue[x] == s.queue[x])
  }

  /** Removing a known id takes its entry out of the map and its object out of the queue, and touches nothing
      else. */
  lemma {:induction false} RemoveTakesOut<R>(s: State<R>, id: string)
    requires QueueOk(s)
    ensures id !in s.scheduleIDMap ==> RemoveStep(s, id) == s
    ensures id in s.scheduleIDMap ==>
              var t, former := RemoveStep(s, id), s.scheduleIDMap[id];
              && id !in t.scheduleIDMap && t.queue[former] == 0 && SameElsewhere(s, t, id, former)
              && t.infos == s.infos && t.times == s.times && t.executions == s.executions && t.dropped == s.dropped
  {
    if id in s.scheduleIDMap {
      var former := s.scheduleIDMap[id];
      assert former in s.queue ==> Held(s, former);
      forall x ensures x != former ==> RemoveStep(s, id).queue[x] == s.queue[x] { Counts(s.queue, former, x); }
      Counts(s.queue, former, former);
    }
  }

  /** Scheduling puts the new object into the map and, once, into the queue, in place of the one its id had;
      an exception from updateTime puts it nowhere. */
  lemma {:induction false} SchedulePutsIn<R>(s: State<R>, job: R, info: JobInfo, time: int, clock: Clock)
    requires QueueOk(s) && job !in s.infos && clock.Forward()
    ensures var t, u := ScheduleStep(s, job, info, time, clock), UpdateTime(info, time, clock);
            && t.executions == s.executions && t.dropped == s.dropped
            && (u.Raised? ==> t.scheduleIDMap == s.scheduleIDMap && t.queue == s.queue)
            && (!u.Raised? ==>
                  && info.id in t.scheduleIDMap && t.scheduleIDMap[info.id] == job && t.queue[job] == 1
                  && job in t.infos && t.infos[job] == info && job in t.times
                  && (time > clock.check || info.period.None? ==> t.times[job] == time)
                  && (time <= clock.check && info.period.Some? ==> NextIs(info, time, clock, t.times[job]))
                  && (forall x :: x != info.id ==> (x in s.scheduleIDMap <==> x in t.scheduleIDMap))
                  && (forall x :: x != info.id && x in s.scheduleIDMap ==> t.scheduleIDMap[x] == s.scheduleIDMap[x])
                  && (info.id in s.scheduleIDMap ==> t.queue[s.scheduleIDMap[info.id]] == 0)
                  && (forall x :: x != job && (info.id in s.scheduleIDMap ==> x != s.scheduleIDMap[info.id]) ==>
                        t.queue[x] == s.queue[x]))
  {
    UpdatedExactly(info, time, clock);
    OneRound(info, time, clock);
    var u := UpdateTime(info, time, clock);
    hide UpdateTime, NextIs;
    var seen := Seen(s, job, info, if u.Updated? then u.next else time);
    ScheduleParts(s, job, info, time, clock);
    if !u.Raised? {
      assert job in s.queue ==> Held(s, job);
      forall x ensures InstallCount(seen, job, info.id, x) == Install(seen, job, info.id).queue[x] {
        Installed(seen, job, info.id, x);
      }
      if info.id in s.scheduleIDMap {
        var former := s.scheduleIDMap[info.id];
        assert former in s.queue ==> Held(s, former);
        assert InstallCount(seen, job, info.id, former) == 0;
      }
      assert InstallCount(seen, job, info.id, job) == 1;
    }
  }

  function InstallCount<R>(s: State<R>, job: R, id: string, x: R): nat {
    var left := if id in s.scheduleIDMap && x == s.scheduleIDMap[id] && s.queue[x] > 0 then s.queue[x] - 1
                else s.queue[x];
    if x == job then left + 1 else left
  }

  lemma Installed<R>(s: State<R>, job: R, id: string, x: R)
    ensures Install(s, job, id).queue[x] == InstallCount(s, job, id, x)
  {
    if id in s.scheduleIDMap {
      Counts(s.queue, s.scheduleIDMap[id], x);
      Counts(s.queue - multiset{s.scheduleIDMap[id]}, job, x);
    } else {
      Counts(s.queue, job, x);
    }
  }

  /** A round executes the job exactly if it is due and its check does not say no; one that is not due leaves
      everything as it is. Afterwards the job is queued exactly if it was not due, or recurs and was put back. */
  lemma {:induction false} TickExecutes<R>(s: State<R>, job: R, at: int, attempt: Attempt, clock: Clock)
    requires QueueOk(s) && job in s.queue && job in s.times && job in s.infos && at <= clock.check
    ensures var t, due := TickStep(s, job, at, attempt, clock), s.times[job] <= at;
            && t.executions == s.executions + (if due && !attempt.CheckSaysNo?
                                               then [Execution(job, s.times[job], at)] else [])
            && t.scheduleIDMap == s.scheduleIDMap && (!due ==> t == s)
            && (forall x :: x != job ==> t.queue[x] == s.queue[x])
            && t.queue[job] ==
                 if !due then 1
                 else if attempt.OtherException? || s.infos[job].period.None? then 0
                 else if UpdateTime(s.infos[job], s.times[job], clock).Raised? then 0 else 1
  {
    HeadHeld(s, job);
    OneRound(s.infos[job], s.times[job], clock);
    TickLogs(s, job, at, attempt, clock);
    hide UpdateTime, TickStep;
    forall x ensures x != job ==> TickStep(s, job, at, attempt, clock).queue[x] == s.queue[x] {
      TickParts(s, job, at, attempt, clock, x);
    }
    TickParts(s, job, at, attempt, clock, job);
  }

  lemma TickLogs<R>(s: State<R>, job: R, at: int, attempt: Attempt, clock: Clock)
    requires job in s.times && job in s.infos
    ensures TickStep(s, job, at, attempt, clock).executions ==
              s.executions
              + (if s.times[job] <= at && !attempt.CheckSaysNo? then [Execution(job, s.times[job], at)] else [])
  {
    hide UpdateTime;
  }

  /** r is known, not queued, and was not executed in between. */
  ghost predicate StillGone<R>(s: State<R>, t: State<R>, r: R) {
    r in t.infos && r !in t.queue && (forall x :: x in t.executions && x.job == r ==> x in s.executions)
  }

  lemma TickGone<R>(s: State<R>, job: R, at: int, attempt: Attempt, clock: Clock, r: R)
    requires job in s.queue && job in s.times && job in s.infos && r in s.infos && r !in s.queue
    ensures StillGone(s, TickStep(s, job, at, attempt, clock), r)
  {
    hide UpdateTime, TickStep;
    TickParts(s, job, at, attempt, clock, r);
    TickRuns(s, job, at, attempt, clock);
  }

  /** Only the job itself is executed in its round. */
  lemma TickRuns<R>(s: State<R>, job: R, at: int, attempt: Attempt, clock: Clock)
    requires job in s.times && job in s.infos
    ensures forall x :: x in TickStep(s, job, at, attempt, clock).executions ==> x in s.executions || x.job == job
  {
    hide UpdateTime;
  }

  lemma ScheduleGone<R>(s: State<R>, job: R, info: JobInfo, time: int, clock: Clock, r: R)
    requires job !in s.infos && r in s.infos && r !in s.queue
    ensures StillGone(s, ScheduleStep(s, job, info, time, clock), r)
  {
    hide UpdateTime;
  }

  lemma StepGone<R>(s: State<R>, e: Event<R>, r: R)
    requires Enabled(s, e) && r in s.infos && r !in s.queue
    ensures StillGone(s, Step(s, e), r)
  {
    hide ScheduleStep, TickStep;
    match e {
      case Schedule(job, info, time, clock) => ScheduleGone(s, job, info, time, clock, r);
      case Remove(id) =>
      case Tick(job, at, attempt, clock) => TickGone(s, job, at, attempt, clock, r);
    }
  }

  /** A job that was taken out of the queue, or has run for the last time, is never executed again. */
  lemma {:induction false} GoneForGood<R>(es: seq<Event<R>>, n: nat, r: R)
    requires CanRun(es) && n <= |es| && CanRun(es[..n])
    requires r in After(es[..n]).infos && r !in After(es[..n]).queue
    ensures r in After(es).infos && r !in After(es).queue
    ensures forall x :: x in After(es).executions && x.job == r ==> x in After(es[..n]).executions
    decreases |es|
  {
    hide Step, Enabled;
    if n == |es| {
      assert es[..n] == es;
    } else {
      var before := es[..|es| - 1];
      assert before[..n] == es[..n];
      GoneForGood(before, n, r);
      StepGone(After(before), es[|es| - 1], r);
    }
  }

  lemma {:induction false} PrefixRuns<R>(es: seq<Event<R>>, n: nat)
    requires CanRun(es) && n <= |es|
    ensures CanRun(es[..n])
    ensures n < |es| ==>
              && CanRun(es[..n + 1]) && Enabled(After(es[..n]), es[n])
              && After(es[..n + 1]) == Step(After(es[..n]), es[n])
    decreases |es|
  {
    hide Step, Enabled;
    if n < |es| {
      var before := es[..|es| - 1];
      if n < |before| {
        PrefixRuns(before, n);
        assert before[..n] == es[..n] && before[..n + 1] == es[..n + 1];
      } else {
        assert es[..n] == before && es[..n + 1] == es;
      }
    } else {
      assert es[..n] == es;
    }
  }

  /** Over every run: once an id has been removed, the object it named is queued no more and is never
      executed again. */
  lemma {:induction false} RemovedNeverRuns<R>(es: seq<Event<R>>, n: nat, id: string)
    requires CanRun(es) && n < |es| && es[n] == Remove(id)
    ensures CanRun(es[..n])
    ensures id in After(es[..n]).scheduleIDMap ==>
              var r := After(es[..n]).scheduleIDMap[id];
              && r !in After(es).queue
              && forall x :: x in After(es).executions && x.job == r ==> x in After(es[..n]).executions
  {
    PrefixRuns(es, n);
    InvAfter(es[..n]);
    var s := After(es[..n]);
    RemoveTakesOut(s, id);
    if id in s.scheduleIDMap { GoneForGood(es, n + 1, s.scheduleIDMap[id]); }
  }

  // ---- Jobs of the id map that are not queued ----

  /** A round in which the job was due. */
  ghost predicate Due<R>(s: State<R>, e: Event<R>, r: R) {
    e.Tick? && e.job == r && r in s.times && r in s.infos && s.times[r] <= e.at
  }

  /** An exception ends the round before the job is put back. */
  ghost predicate Drops<R>(s: State<R>, e: Event<R>, r: R) {
    Due(s, e, r) && (e.attempt.OtherException? || UpdateTime(s.infos[r], s.times[r], e.clock).Raised?)
  }

  /** The last round of a job without a period. */
  ghost predicate Retires<R>(s: State<R>, e: Event<R>, r: R) {
    Due(s, e, r) && !e.attempt.OtherException? && s.infos[r].period.None?
  }

  ghost predicate WasDropped<R>(es: seq<Event<R>>, r: R)
    requires CanRun(es)
  {
    es != [] && (WasDropped(es[..|es| - 1], r) || Drops(After(es[..|es| - 1]), es[|es| - 1], r))
  }

  ghost predicate HasRetired<R>(es: seq<Event<R>>, r: R)
    requires CanRun(es)
  {
    es != [] && (HasRetired(es[..|es| - 1], r) || Retires(After(es[..|es| - 1]), es[|es| - 1], r))
  }

  lemma LeavesQueue<R>(s: State<R>, e: Event<R>, r: R)
    requires Inv(s) && Enabled(s, e) && (Drops(s, e, r) || Retires(s, e, r))
    ensures r in Step(s, e).infos && r !in Step(s, e).queue
  {
    HeadHeld(s, r);
    OneRound(s.infos[r], s.times[r], e.clock);
    hide Inv, UpdateTime, TickStep;
    TickParts(s, r, e.at, e.attempt, e.clock, r);
  }

  /** Once dropped or retired, never queued again. */
  lemma {:induction false} GoneAfterLast<R>(es: seq<Event<R>>, r: R)
    requires CanRun(es) && (WasDropped(es, r) || HasRetired(es, r))
    ensures r in After(es).infos && r !in After(es).queue
    decreases |es|
  {
    hide Step, Enabled, Inv, Drops, Retires;
    var front, e := es[..|es| - 1], es[|es| - 1];
    InvAfter(front);
    if WasDropped(front, r) || HasRetired(front, r) {
      GoneAfterLast(front, r);
      StepGone(After(front), e, r);
    } else {
      LeavesQueue(After(front), e, r);
    }
  }

  /** A job the id map keeps leaves the queue only in a round that drops or retires it. */
  lemma TickStays<R>(s: State<R>, job: R, at: int, attempt: Attempt, clock: Clock, r: R)
    requires Enabled(s, Tick(job, at, attempt, clock)) && r in s.queue
    requires !Drops(s, Tick(job, at, attempt, clock), r) && !Retires(s, Tick(job, at, attempt, clock), r)
    ensures r in TickStep(s, job, at, attempt, clock).queue
  {
    if r == job { OneRound(s.infos[r], s.times[r], clock); }
    hide UpdateTime, TickStep;
    TickParts(s, job, at, attempt, clock, r);
  }

  lemma ScheduleStays<R>(s: State<R>, job: R, info: JobInfo, time: int, clock: Clock, id: string)
    requires QueueOk(s) && job !in s.infos && id in ScheduleStep(s, job, info, time, clock).scheduleIDMap
    ensures var t := ScheduleStep(s, job, info, time, clock);
            || t.scheduleIDMap[id] in t.queue
            || (id in s.scheduleIDMap && t.scheduleIDMap[id] == s.scheduleIDMap[id] && s.scheduleIDMap[id] !in s.queue)
  {
    hide UpdateTime, Held;
    if id in s.scheduleIDMap && info.id in s.scheduleIDMap {
      Counts(s.queue, s.scheduleIDMap[info.id], s.scheduleIDMap[id]);
    }
  }

  lemma RemoveStays<R>(s: State<R>, x: string, id: string)
    requires QueueOk(s) && id in RemoveStep(s, x).scheduleIDMap
    ensures id in s.scheduleIDMap && RemoveStep(s, x).scheduleIDMap[id] == s.scheduleIDMap[id]
    ensures s.scheduleIDMap[id] in s.queue ==> s.scheduleIDMap[id] in RemoveStep(s, x).queue
  {
    hide Held;
    if x in s.scheduleIDMap { Counts(s.queue, s.scheduleIDMap[x], s.scheduleIDMap[id]); }
  }

  lemma StaysQueued<R>(s: State<R>, e: Event<R>, id: string)
    requires Inv(s) && Enabled(s, e) && id in Step(s, e).scheduleIDMap
    requires Step(s, e).scheduleIDMap[id] !in Step(s, e).queue
    ensures id in s.scheduleIDMap && Step(s, e).scheduleIDMap[id] == s.scheduleIDMap[id]
    ensures var r := s.scheduleIDMap[id]; r !in s.queue || Drops(s, e, r) || Retires(s, e, r)
  {
    hide ScheduleStep, TickStep, RemoveStep, Drops, Retires, NothingLost, LogOk, Held;
    match e {
      case Schedule(job, info, time, clock) => ScheduleStays(s, job, info, time, clock, id);
      case Remove(x) => RemoveStays(s, x, id);
      case Tick(job, at, attempt, clock) =>
        TickParts(s, job, at, attempt, clock, job);
        var r := s.scheduleIDMap[id];
        if r in s.queue && !Drops(s, e, r) && !Retires(s, e, r) { TickStays(s, job, at, attempt, clock, r); }
    }
  }

  lemma {:induction false} MissingHasReason<R>(es: seq<Event<R>>, id: string)
    requires CanRun(es) && id in After(es).scheduleIDMap && After(es).scheduleIDMap[id] !in After(es).queue
    ensures WasDropped(es, After(es).scheduleIDMap[id]) || HasRetired(es, After(es).scheduleIDMap[id])
    decreases |es|
  {
    hide Step, Enabled, Inv, Drops, Retires;
    if es != [] {
      var front, e := es[..|es| - 1], es[|es| - 1];
      InvAfter(front);
      StaysQueued(After(front), e, id);
      if After(front).scheduleIDMap[id] !in After(front).queue { MissingHasReason(front, id); }
    }
  }

  /** In every run, a job that the id map names is missing from the queue exactly if an exception has
      dropped it or it has no period and its one round has passed: the runner takes it out of the queue
      but not out of the map. */
  lemma {:induction false} MissingIff<R>(es: seq<Event<R>>, id: string)
    requires CanRun(es) && id in After(es).scheduleIDMap
    ensures var r := After(es).scheduleIDMap[id]; r !in After(es).queue <==> WasDropped(es, r) || HasRetired(es, r)
  {
    var r := After(es).scheduleIDMap[id];
    if r !in After(es).queue { MissingHasReason(es, id); }
    if WasDropped(es, r) || HasRetired(es, r) { GoneAfterLast(es, r); }
  }

  /** The shortest such run: a job without a period is scheduled, and executed when it is due. */
  lemma {:induction false} RunsOnce<R>(job: R, info: JobInfo, time: int, clock: Clock, at: int, later: Clock)
    requires info.period.None? && info.event.None? && clock.Forward() && later.Forward() && time <= at <= later.check
    ensures var es := [Schedule(job, info, time, clock), Tick(job, at, Executed, later)];
            && CanRun(es) && After(es).scheduleIDMap == map[info.id := job] && After(es).queue == multiset{}
            && After(es).executions == [Execution(job, time, at)]
  {
    hide Enabled, UpdateTime, TickStep;
    var first, second := Schedule(job, info, time, clock), Tick(job, at, Executed, later);
    assert [first, second][..1] == [first];
    FirstScheduled(job, info, time, clock);
    OneDue(job, info, time, at, later);
  }

  function OneJob<R>(job: R, info: JobInfo, time: int): State<R> {
    State(map[job := info], map[job := time], map[info.id := job], multiset{job}, [], {})
  }

  lemma FirstScheduled<R>(job: R, info: JobInfo, time: int, clock: Clock)
    requires info.period.None? && clock.Forward()
    ensures var es: seq<Event<R>> := [Schedule(job, info, time, clock)];
            CanRun(es) && After(es) == OneJob(job, info, time)
  {
    var es: seq<Event<R>> := [Schedule(job, info, time, clock)];
    var none: seq<Event<R>> := [];
    assert es[..|es| - 1] == none && CanRun(none) && After(none) == Start<R>();
    assert Enabled(Start<R>(), es[0]);
    assert ScheduleStep(Start<R>(), job, info, time, clock) == OneJob(job, info, time);
  }

  lemma OneDue<R>(job: R, info: JobInfo, time: int, at: int, clock: Clock)
    requires info.period.None? && clock.Forward() && time <= at <= clock.check
    ensures var s, e := OneJob(job, info, time), Tick(job, at, Executed, clock);
            && Enabled(s, e) && TickStep(s, job, at, Executed, clock).queue == multiset{}
            && TickStep(s, job, at, Executed, clock).scheduleIDMap == map[info.id := job]
            && TickStep(s, job, at, Executed, clock).executions == [Execution(job, time, at)]
  {
  }
}
