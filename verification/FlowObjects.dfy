/** The executable flow classes, with their fields and synchronized sections. Each method that takes part in a
    run is proved to be the step, or the step function of the same name, that runs are built from. */
module FlowObjects {
  import opened FlowTypes
  import opened FlowSteps
  import opened FlowRestart
  import opened FlowReset
  import opened PropsChain

  class IndividualJobExecutableFlow {
    var jobState: Status
    var parentProps: Option<PropMap>
    var returnProps: Option<PropMap>
    var callbacksToCall: seq<Callback>

    function View(): NodeState
      reads this
    {
      NodeState(jobState, parentProps, returnProps, callbacksToCall, false)
    }

    constructor ()
      ensures View() == FRESH
    {
      jobState, parentProps, returnProps, callbacksToCall := READY, None, None, [];
    }

    /** The synchronized part of execute; a null argument stands for empty props. */
    method Execute(props: Option<PropMap>, callback: Callback) returns (o: Outcome)
      modifies this
      ensures var differs := old(parentProps).Some? && old(parentProps).value != OrEmpty(props);
              o == Refuse <==> old(jobState) != COMPLETED && differs
      ensures o == Refuse ==> View() == old(View())
      ensures o != Refuse ==>
                && parentProps == Some(if old(parentProps).Some? then old(parentProps).value else OrEmpty(props))
                && match old(jobState)
                   case READY => jobState == RUNNING && o == Begin
                   case IGNORED => jobState == COMPLETED && o == Answer(SUCCEEDED)
                   case RUNNING => jobState == RUNNING && o == Wait
                   case FAILED => jobState == FAILED && o == Answer(FAILED)
                   case _ => jobState == old(jobState) && o == Answer(SUCCEEDED)
      ensures callbacksToCall == old(callbacksToCall) + if o in {Begin, Wait} then [callback] else []
      ensures returnProps == old(returnProps)
      ensures (View(), o) == EnterNode(Individual, old(View()), OrEmpty(props), callback)
    {
      var p := OrEmpty(props);
      if parentProps.None? {
        parentProps := Some(p);
      } else if jobState != COMPLETED && parentProps.value != p {
        return Refuse;
      }
      match jobState {
        case READY =>
          jobState := RUNNING;
          callbacksToCall := callbacksToCall + [callback];
          o := Begin;
        case RUNNING =>
          callbacksToCall := callbacksToCall + [callback];
          o := Wait;
        case IGNORED =>
          jobState := COMPLETED;
          o := Answer(SUCCEEDED);
        case COMPLETED => o := Answer(SUCCEEDED);
        case SUCCEEDED => o := Answer(SUCCEEDED);
        case FAILED => o := Answer(FAILED);
      }
    }

    /** The job of this object could not be loaded. In any state of a run, what this changes and the
        calls it leaves to make are those of the failing Load step; in particular the queue stays, so
        that a caller who comes before the calls are made is told the failure directly. */
    method LoadFailed(ghost g: Graph, ghost s: State, ghost k: Job, ghost c: Choice) returns (calls: seq<Callback>)
      requires Fits(g, s) && k in s.flows && s.flows[k].job == View() && !c.ok
      modifies this
      ensures StepEffect(g, s, Load(k), c)
           == Same(s, k).(flow := s.flows[k].(job := View()), spawned := Deliveries(calls, FAILED))
      ensures View().callbacks == old(View()).callbacks
    {
      jobState := FAILED;
      calls := callbacksToCall;
    }

    /** The job's thread has ended: a job that ended well keeps what its thread generated. */
    method Finish(c: Choice) returns (calls: seq<Callback>)
      modifies this
      ensures jobState == (if c.ok then SUCCEEDED else FAILED)
      ensures returnProps == Some(if c.ok then c.output else map[])
      ensures parentProps == old(parentProps) && callbacksToCall == old(callbacksToCall)
      ensures View() == FinishJob(old(View()), c) && calls == old(callbacksToCall)
    {
      if c.ok {
        jobState := SUCCEEDED;
        returnProps := Some(c.output);
      } else {
        jobState := FAILED;
        returnProps := Some(map[]);
      }
      calls := callbacksToCall;
    }

    /** The synchronized part of cancel: a job not yet at its end fails and loses its queue; one at its end stays
        as it is. */
    method Cancel() returns (calls: seq<Callback>)
      modifies this
      ensures var ended := old(jobState) in {COMPLETED, SUCCEEDED, FAILED, IGNORED};
              && jobState == (if ended then old(jobState) else FAILED)
              && callbacksToCall == (if ended then old(callbacksToCall) else [])
              && returnProps == (if ended then old(returnProps) else Some(map[]))
              && calls == if ended then [] else old(callbacksToCall)
      ensures parentProps == old(parentProps)
      ensures (View(), calls) == CancelNode(old(View()))
    {
      match jobState {
        case COMPLETED => calls := [];
        case SUCCEEDED => calls := [];
        case FAILED => calls := [];
        case IGNORED => calls := [];
        case _ =>
          jobState := FAILED;
          calls := callbacksToCall;
          callbacksToCall := [];
          returnProps := Some(map[]);
      }
    }

    method Reset() returns (done: bool)
      modifies this
      ensures done == (old(jobState) != RUNNING)
      ensures done ==> View() == NodeState(READY, None, None, [], false)
      ensures !done ==> View() == old(View())
      ensures View() == ResetNode(old(View()))
    {
      if jobState == RUNNING {
        return false;
      }
      jobState, parentProps, returnProps, callbacksToCall := READY, None, None, [];
      done := true;
    }

    method MarkCompleted() returns (done: bool)
      modifies this
      ensures done == (old(jobState) != RUNNING)
      ensures View() == if !done then old(View())
                        else old(View()).(status := COMPLETED, parentProps := Some(map[]), returnProps := Some(map[]))
    {
      if jobState == RUNNING {
        return false;
      }
      jobState, parentProps, returnProps := COMPLETED, Some(map[]), Some(map[]);
      done := true;
    }
  }

  /** What is left to do when a callback of the composed flow returns. */
  datatype Reaction = ExecuteDepender(props: PropMap) | CallBack(calls: seq<Callback>, verdict: Status)

  class ComposedExecutableFlow {
    var jobState: Status
    var parentProps: Option<PropMap>
    var callbacksToCall: seq<Callback>
    const depender: IndividualJobExecutableFlow

    function View(): NodeState
      reads this
    {
      NodeState(jobState, parentProps, None, callbacksToCall, false)
    }

    constructor (depender: IndividualJobExecutableFlow)
      ensures View() == FRESH && this.depender == depender
    {
      this.depender := depender;
      jobState, parentProps, callbacksToCall := READY, None, [];
    }

    method Execute(props: Option<PropMap>, callback: Callback) returns (o: Outcome)
      modifies this
      ensures var differs := old(parentProps).Some? && old(parentProps).value != OrEmpty(props);
              o == Refuse <==> old(jobState) != COMPLETED && differs
      ensures o == Refuse ==> View() == old(View())
      ensures o != Refuse ==>
                && parentProps == Some(if old(parentProps).Some? then old(parentProps).value else OrEmpty(props))
                && match old(jobState)
                   case READY => jobState == RUNNING && o == Begin
                   case IGNORED => jobState == IGNORED && o == Drop
                   case RUNNING => jobState == RUNNING && o == Wait
                   case FAILED => jobState == FAILED && o == Answer(FAILED)
                   case _ => jobState == old(jobState) && o == Answer(SUCCEEDED)
      ensures callbacksToCall == old(callbacksToCall) + if o in {Begin, Wait} then [callback] else []
      ensures (View(), o) == EnterNode(Composed, old(View()), OrEmpty(props), callback)
    {
      var p := OrEmpty(props);
      if parentProps.None? {
        parentProps := Some(p);
      } else if jobState != COMPLETED && parentProps.value != p {
        return Refuse;
      }
      match jobState {
        case READY =>
          jobState := RUNNING;
          callbacksToCall := callbacksToCall + [callback];
          o := Begin;
        case RUNNING =>
          callbacksToCall := callbacksToCall + [callback];
          o := Wait;
        case COMPLETED => o := Answer(SUCCEEDED);
        case SUCCEEDED => o := Answer(SUCCEEDED);
        case FAILED => o := Answer(FAILED);
        case IGNORED => o := Drop;
      }
    }

    /** completed(verdict) of the dependee callback: after a success the depender is to be executed with
        the own props overridden by what the group returned. In any state of a run this is the step that
        delivers the callback. */
    method DependeeCompleted(ghost g: Graph, ghost s: State, ghost k: Job, ghost c: Choice,
                             verdict: Status, returned: Option<PropMap>) returns (next: Reaction)
      requires IsVerdict(verdict) && At(g, s, k) && s.flows[k].group.returnProps == returned
      modifies this
      ensures var cb := DependeeCallback(k); var e := Same(s, k).(completed := multiset{Completion(cb, verdict)});
              StepEffect(g, s, Deliver(cb, verdict), c) ==
                match next
                case ExecuteDepender(p) =>
                  e.(spawned := [Enter(IndividualNode(k), p, DependerCallback(k))],
                     handed := multiset{DependerCallback(k)})
                case CallBack(calls, v) =>
                  e.(flow := s.flows[k].(composed := View()), spawned := Deliveries(calls, v))
      ensures verdict == SUCCEEDED ==>
                View() == old(View()) && next == ExecuteDepender(OrEmpty(old(parentProps)) + OrEmpty(returned))
      ensures verdict == FAILED ==>
                View() == old(View()).(status := FAILED) && next == CallBack(old(callbacksToCall), FAILED)
    {
      if verdict == SUCCEEDED {
        next := ExecuteDepender(OrEmpty(parentProps) + OrEmpty(returned));
      } else {
        var calls := Settle(g, s, k, c, verdict);
        next := CallBack(calls, verdict);
      }
    }

    /** This object is the composed flow of job k in the state of a run. */
    ghost predicate At(g: Graph, s: State, k: Job)
      reads this
    {
      Fits(g, s) && k in s.flows && s.flows[k].Multiple? && s.flows[k].composed == View()
    }

    /** completed(verdict) of the depender callback, and of the dependee callback when it failed. In any
        state of a run this is the step that delivers the callback. */
    method Settle(ghost g: Graph, ghost s: State, ghost k: Job, ghost c: Choice, verdict: Status)
      returns (calls: seq<Callback>)
      requires IsVerdict(verdict) && At(g, s, k)
      modifies this
      ensures StepEffect(g, s, Deliver(DependerCallback(k), verdict), c)
           == Same(s, k).(flow := s.flows[k].(composed := View()), spawned := Deliveries(calls, verdict),
                          completed := multiset{Completion(DependerCallback(k), verdict)})
      ensures View() == old(View()).(status := verdict) && calls == old(callbacksToCall)
    {
      jobState := verdict;
      calls := callbacksToCall;
    }

    method MarkCompleted() returns (done: bool)
      modifies this
      ensures done == (old(jobState) != RUNNING)
      ensures View() == if done then old(View()).(status := COMPLETED, parentProps := Some(map[])) else old(View())
    {
      if jobState == RUNNING {
        return false;
      }
      jobState, parentProps := COMPLETED, Some(map[]);
      done := true;
    }

    /** getReturnProps(): what the depender returns, over what the dependee does. */
    method GetReturnProps(ghost f: Flow, dependee: Props?, depender: Props?) returns (r: Props)
      requires f.Multiple? && Shows(dependee, f.group.returnProps) && Shows(depender, f.job.returnProps)
      ensures fresh(r) && r.Valid() && r.parent == dependee && r.Flat() == f.Output()
      ensures forall key :: Lookup(r.Flat(), key) ==
                if key in OrEmpty(f.job.returnProps) then Some(f.job.returnProps.value[key])
                else if key in OrEmpty(f.group.returnProps) then Some(f.group.returnProps.value[key])
                else None
    {
      r := new Props.With(dependee, depender);
    }

    /** reset(): the wrapped job is reset as well, unless this flow is running. */
    method Reset() returns (done: bool)
      modifies this, depender
      ensures old(jobState) == RUNNING ==> View() == old(View()) && depender.View() == old(depender.View())
      ensures old(jobState) != RUNNING ==>
                && View() == NodeState(READY, None, None, [], false)
                && depender.View() == if old(depender.jobState) == RUNNING then old(depender.View())
                                      else NodeState(READY, None, None, [], false)
      ensures View() == ResetNode(old(View()))
      ensures depender.View() == if old(jobState) == RUNNING then old(depender.View())
                                 else ResetNode(old(depender.View()))
      ensures done == (old(jobState) != RUNNING && old(depender.jobState) != RUNNING)
    {
      if jobState == RUNNING {
        return false;
      }
      jobState := READY;
      done := depender.Reset();
      callbacksToCall, parentProps := [], None;
    }
  }

  class GroupedExecutableFlow {
    var jobState: Status
    var parentProps: Option<PropMap>
    var returnProps: Option<PropMap>
    var callbacksToCall: seq<Callback>
    var notifiedCallbackAlready: bool
    const flows: seq<Job>

    function View(): NodeState
      reads this
    {
      NodeState(jobState, parentProps, returnProps, callbacksToCall, notifiedCallbackAlready)
    }

    constructor (flows: seq<Job>)
      ensures View() == FRESH && this.flows == flows
    {
      this.flows := flows;
      jobState, parentProps, returnProps, callbacksToCall, notifiedCallbackAlready := READY, None, None, [], false;
    }

    method Execute(props: Option<PropMap>, callback: Callback) returns (o: Outcome)
      modifies this
      ensures var differs := old(parentProps).Some? && old(parentProps).value != OrEmpty(props);
              o == Refuse <==> old(jobState) != COMPLETED && differs
      ensures o == Refuse ==> View() == old(View())
      ensures o != Refuse ==>
                && parentProps == Some(if old(parentProps).Some? then old(parentProps).value else OrEmpty(props))
                && match old(jobState)
                   case READY => jobState == RUNNING && o == Begin
                   case IGNORED => jobState == IGNORED && o == Answer(SUCCEEDED)
                   case RUNNING => jobState == RUNNING && o == Wait
                   case FAILED => jobState == FAILED && o == Answer(FAILED)
                   case _ => jobState == old(jobState) && o == Answer(SUCCEEDED)
      ensures callbacksToCall == old(callbacksToCall) + if o in {Begin, Wait} then [callback] else []
      ensures returnProps == old(returnProps) && notifiedCallbackAlready == old(notifiedCallbackAlready)
      ensures (View(), o) == EnterNode(Grouped, old(View()), OrEmpty(props), callback)
    {
      var p := OrEmpty(props);
      if parentProps.None? {
        parentProps := Some(p);
      } else if jobState != COMPLETED && parentProps.value != p {
        return Refuse;
      }
      match jobState {
        case READY =>
          jobState := RUNNING;
          callbacksToCall := callbacksToCall + [callback];
          o := Begin;
        case RUNNING =>
          callbacksToCall := callbacksToCall + [callback];
          o := Wait;
        case COMPLETED => o := Answer(SUCCEEDED);
        case SUCCEEDED => o := Answer(SUCCEEDED);
        case IGNORED => o := Answer(SUCCEEDED);
        case FAILED => o := Answer(FAILED);
      }
    }

    /** updateState: the first failed child decides; otherwise all must be done, and their outputs
        are laid over each other in order. */
    method UpdateState(objects: map<Job, Flow>)
      requires forall d :: d in flows ==> d in objects
      modifies this
      ensures parentProps == old(parentProps) && callbacksToCall == old(callbacksToCall)
      ensures notifiedCallbackAlready == old(notifiedCallbackAlready)
      ensures (exists d :: d in flows && objects[d].GetStatus() == FAILED) ==>
                jobState == FAILED && returnProps == Some(map[])
      ensures (forall d :: d in flows ==> objects[d].GetStatus() in {SUCCEEDED, COMPLETED}) ==>
                jobState == SUCCEEDED && returnProps.Some? && LastOneWins(returnProps.value, Outputs(objects, flows))
      ensures (forall d :: d in flows ==> objects[d].GetStatus() != FAILED)
              && (exists d :: d in flows && objects[d].GetStatus() !in {SUCCEEDED, COMPLETED}) ==>
                jobState == old(jobState) && returnProps == old(returnProps)
      ensures View() == UpdateGroup(objects, flows, old(View()))
    {
      hide LastOneWins, Outputs;
      var allComplete := true;
      var i := 0;
      while i < |flows|
        invariant i <= |flows| && View() == old(View())
        invariant forall x :: 0 <= x < i ==> objects[flows[x]].GetStatus() != FAILED
        invariant allComplete <==> forall x :: 0 <= x < i ==> IsDone(objects[flows[x]].GetStatus())
      {
        var st := objects[flows[i]].GetStatus();
        if st == FAILED {
          jobState := FAILED;
          returnProps := Some(map[]);
          assert flows[i] in flows && st == objects[flows[i]].GetStatus();
          return;
        }
        if !(st == COMPLETED || st == SUCCEEDED) {
          allComplete := false;
        }
        i := i + 1;
      }
      if allComplete {
        jobState := SUCCEEDED;
        var merged := MergeOutputs(objects);
        returnProps := Some(merged);
      }
    }

    /** The loop of updateState over the children once all are done. */
    method MergeOutputs(objects: map<Job, Flow>) returns (merged: PropMap)
      requires forall d :: d in flows ==> d in objects
      ensures merged == Merge(objects, flows) && LastOneWins(merged, Outputs(objects, flows))
    {
      hide LastOneWins, Outputs, Merge, Flow.Output;
      merged := map[];
      MergeNone(objects);
      assert flows[..0] == [];
      var i := 0;
      while i < |flows|
        invariant i <= |flows| && merged == Merge(objects, flows[..i])
      {
        MergeNext(objects, flows, i);
        merged := merged + objects[flows[i]].Output();
        i := i + 1;
      }
      assert flows[..|flows|] == flows;
      MergeLastWins(objects, flows);
    }

    /** The rest of completed, once the status was read as the verdict: compareAndSet, and if that
        succeeds the callbacks are to be completed. In any state of a run this is the step of the same
        name; only one caller ever gets calls to make. */
    method CompareAndSet(ghost g: Graph, ghost s: State, ghost k: Job, ghost i: nat, ghost c: Choice, verdict: Status)
      returns (won: bool, calls: seq<Callback>)
      requires IsVerdict(verdict) && Fits(g, s) && k in s.flows && s.flows[k].Multiple? && s.flows[k].group == View()
      requires i < |g.deps[k]|
      modifies this
      ensures StepEffect(g, s, if verdict == SUCCEEDED then CasSucceeded(k, i) else CasFailed(k, i), c)
           == Same(s, k).(flow := s.flows[k].(group := View()),
                          spawned := if won then Deliveries(calls, verdict)
                                     else if verdict == SUCCEEDED then [ReadSecond(k, i)] else [])
      ensures won <==> !old(notifiedCallbackAlready)
      ensures notifiedCallbackAlready && (won ==> calls == old(callbacksToCall))
    {
      won, calls := !notifiedCallbackAlready, callbacksToCall;
      notifiedCallbackAlready := true;
    }

    method Reset() returns (done: bool)
      modifies this
      ensures done == (old(jobState) != RUNNING)
      ensures done ==> View() == NodeState(READY, None, None, [], false)
      ensures !done ==> View() == old(View())
      ensures View() == ResetNode(old(View()))
    {
      if jobState == RUNNING {
        return false;
      }
      jobState, parentProps, returnProps, callbacksToCall := READY, None, None, [];
      notifiedCallbackAlready := false;
      done := true;
    }
  }

  /** The wiring of the two, and the job they run. */
  class MultipleDependencyExecutableFlow {
    const depender: IndividualJobExecutableFlow
    const dependeesGrouping: GroupedExecutableFlow
    const actualFlow: ComposedExecutableFlow

    ghost predicate Wired() {
      actualFlow.depender == depender
    }

    function View(): Flow
      reads this, depender, actualFlow, dependeesGrouping
    {
      Multiple(depender.View(), actualFlow.View(), dependeesGrouping.View())
    }

    constructor (depender: IndividualJobExecutableFlow, dependees: seq<Job>)
      ensures Wired() && this.depender == depender && dependeesGrouping.flows == dependees
      ensures fresh(dependeesGrouping) && fresh(actualFlow)
      ensures View() == Multiple(depender.View(), FRESH, FRESH)
    {
      this.depender := depender;
      dependeesGrouping := new GroupedExecutableFlow(dependees);
      actualFlow := new ComposedExecutableFlow(depender);
    }

    /** markCompleted(): the composed flow alone is marked, so a new flow becomes one that runs may start from. */
    method MarkCompleted() returns (done: bool)
      requires Wired()
      modifies actualFlow
      ensures done == (old(actualFlow.jobState) != RUNNING)
      ensures old(View()) == Multiple(FRESH, FRESH, FRESH) ==> FreshOrMarked(View()) && View().GetStatus() == COMPLETED
      ensures View() == if !done then old(View())
                        else old(View()).(composed :=
                               old(View()).composed.(status := COMPLETED, parentProps := Some(map[])))
    {
      done := actualFlow.MarkCompleted();
    }

    /** reset(): the composed flow first, then its only child, the group. */
    method Reset() returns (done: bool)
      requires Wired()
      modifies depender, actualFlow, dependeesGrouping
      ensures var stays := old(actualFlow.jobState) == RUNNING;
              && actualFlow.View() == (if stays then old(actualFlow.View()) else FRESH)
              && depender.View() == if stays || old(depender.jobState) == RUNNING then old(depender.View()) else FRESH
      ensures dependeesGrouping.View() ==
                if old(dependeesGrouping.jobState) == RUNNING then old(dependeesGrouping.View()) else FRESH
      ensures View() == ResetFlow(old(View()))
    {
      done := actualFlow.Reset();
      var _ := dependeesGrouping.Reset();
    }
  }
}
