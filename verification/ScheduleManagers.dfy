/** The schedule manager and its runner, with the fields they update in place. Each public call and
    each round of the runner is proved to be the step of the same name. */
module ScheduleManagers {
  import opened ScheduledJobs
  import opened ScheduleSteps

  class ScheduleManager {
    var scheduleIDMap: map<string, ScheduledJob>
    var schedule: multiset<ScheduledJob>
    ghost var known: set<ScheduledJob>
    ghost var executions: seq<Execution<ScheduledJob>>
    ghost var dropped: set<ScheduledJob>

    /** The fields of the manager and of every job object handed in so far. */
    ghost function View(): State<ScheduledJob>
      reads this, known
    {
      State(map j | j in known :: j.info, map j | j in known :: j.nextScheduledExecution,
            scheduleIDMap, schedule, executions, dropped)
    }

    constructor ()
      ensures View() == Start()
    {
      scheduleIDMap, schedule, known, executions, dropped := map[], multiset{}, {}, [], {};
    }

    /** schedule(job): an exception from updateTime leaves the schedule as it was. */
    method Schedule(job: ScheduledJob, clock: Clock) returns (raised: bool)
      requires job !in known
      modifies this, job
      ensures View() == ScheduleStep(old(View()), job, job.info, old(job.nextScheduledExecution), clock)
      ensures raised == UpdateTime(job.info, old(job.nextScheduledExecution), clock).Raised?
    {
      hide UpdateTime, ScheduleSteps.Install;
      var u := job.Update(clock);
      known := known + {job};
      assert View().infos == old(View()).infos[job := job.info];
      assert View().times == old(View()).times[job := job.nextScheduledExecution];
      if u.Raised? {
        return true;
      }
      Install(job);
      raised := false;
    }

    /** The job takes the place of the one its id had, in the queue and in the id map. */
    method Install(job: ScheduledJob)
      modifies this
      ensures View() == ScheduleSteps.Install(old(View()), job, job.info.id) && known == old(known)
    {
      if job.info.id in scheduleIDMap {
        schedule := schedule - multiset{scheduleIDMap[job.info.id]};
      }
      schedule := schedule + multiset{job};
      scheduleIDMap := scheduleIDMap[job.info.id := job];
    }

    /** removeScheduledJob: an unknown id ends in a null pointer exception, with nothing changed. */
    method RemoveScheduledJob(id: string) returns (raised: bool)
      modifies this
      ensures View() == RemoveStep(old(View()), id) && raised == (id !in old(scheduleIDMap))
      ensures id !in scheduleIDMap && forall x :: x in scheduleIDMap <==> x in old(scheduleIDMap) && x != id
      ensures forall x :: x in scheduleIDMap ==> scheduleIDMap[x] == old(scheduleIDMap)[x]
      ensures schedule == if raised then old(schedule) else old(schedule) - multiset{old(scheduleIDMap)[id]}
    {
      if id !in scheduleIDMap {
        return true;
      }
      var job := scheduleIDMap[id];
      scheduleIDMap := scheduleIDMap - {id};
      schedule := schedule - multiset{job};
      raised := false;
    }

    /** The end of a round: updateTime, and back into the queue. */
    method Reschedule(job: ScheduledJob, clock: Clock)
      requires job in known
      modifies this, job
      ensures View() == ScheduleSteps.Reschedule(old(View()), job,
                                                 UpdateTime(job.info, old(job.nextScheduledExecution), clock))
    {
      hide UpdateTime;
      var u := job.Update(clock);
      assert View().infos == old(View()).infos;
      assert View().times == if u.Updated? then old(View()).times[job := u.next] else old(View()).times;
      match u {
        case Updated(_) => schedule := schedule + multiset{job};
        case NotRecurring => schedule := schedule - multiset{job};
        case Raised(_) => dropped := dropped + {job};
      }
    }

    /** One round of the runner's loop for the job that peek returned. */
    method RunJob(job: ScheduledJob, at: int, attempt: Attempt, clock: Clock)
      requires job in known && job in schedule
      modifies this, job
      ensures View() == TickStep(old(View()), job, at, attempt, clock)
    {
      hide UpdateTime, ScheduleSteps.Reschedule;
      if job.nextScheduledExecution > at {
        return;
      }
      schedule := schedule - multiset{job};
      if !attempt.CheckSaysNo? {
        executions := executions + [Execution(job, job.nextScheduledExecution, at)];
      }
      assert View() == TryJob(old(View()), job, at, attempt);
      if attempt.OtherException? {
        dropped := dropped + {job};
        return;
      }
      Reschedule(job, clock);
    }

    /** A whole round: peek returns an entry with the least time, or nothing. */
    method RunOnce(at: int, attempt: Attempt, clock: Clock) returns (job: ScheduledJob?)
      requires forall r :: r in schedule ==> r in known
      modifies this, known
      ensures old(schedule) == multiset{} ==> job == null && View() == old(View())
      ensures old(schedule) != multiset{} ==>
                && job != null && job in old(known) && IsHead(old(View()), job)
                && View() == TickStep(old(View()), job, at, attempt, clock)
    {
      if schedule == multiset{} {
        return null;
      }
      ghost var head := LeastOf(schedule);
      var first: ScheduledJob :| first in schedule
        && forall r :: r in schedule ==> first.nextScheduledExecution <= r.nextScheduledExecution;
      hide TickStep;
      RunJob(first, at, attempt, clock);
      job := first;
    }
  }

  lemma {:induction false} LeastOf(q: multiset<ScheduledJob>) returns (head: ScheduledJob)
    requires q != multiset{}
    ensures head in q && forall r :: r in q ==> head.nextScheduledExecution <= r.nextScheduledExecution
    decreases |q|
  {
    var one :| one in q;
    head := one;
    var rest := q - multiset{one};
    if rest != multiset{} {
      assert |rest| < |q|;
      var other := LeastOf(rest);
      if other.nextScheduledExecution < one.nextScheduledExecution { head := other; }
    }
    forall r | r in q ensures head.nextScheduledExecution <= r.nextScheduledExecution {
      assert r == one || r in rest;
    }
  }
}
