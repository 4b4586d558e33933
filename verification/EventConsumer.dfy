/** The consumer behind an event triggered job: messages queue up, tick off criteria and trigger a run
    once all are met. */
module EventConsumer {
  import opened FlowTypes
  import opened ScheduledJobs

  /** A message, with the fields of its JSON object; none if the text does not parse. */
  datatype Message = Message(text: string, fields: Option<map<string, string>>)

  /** keys are the criteria in the order the map iterates over them; criteriaMap numbers them so. */
  datatype Rules = Rules(keys: seq<string>, criteria: map<string, string>, window: Window) {
    ghost predicate Valid() {
      && (forall i :: 0 <= i < |keys| ==> keys[i] in criteria)
      && (forall i, j :: 0 <= i < j < |keys| ==> keys[i] != keys[j])
    }

    predicate InWindow(hour: int) {
      CheckTimeConstraints(hour, window.startHour, window.stopHour)
    }

    /** The message has what criterion i asks for. */
    predicate Matches(i: nat, m: Message)
      requires i < |keys|
    {
      && keys[i] in criteria && m.fields.Some? && keys[i] in m.fields.value
      && m.fields.value[keys[i]] == criteria[keys[i]]
    }
  }

  /** The first open criterion from i on that the message meets, or the number of criteria. */
  function FirstMatch(rules: Rules, checks: seq<bool>, m: Message, i: nat): (k: nat)
    requires i <= |rules.keys| == |checks|
    ensures i <= k <= |checks|
    ensures k < |checks| ==> !checks[k] && rules.Matches(k, m)
    ensures forall j :: i <= j < k ==> checks[j] || !rules.Matches(j, m)
    decreases |checks| - i
  {
    if i == |checks| then i
    else if !checks[i] && rules.Matches(i, m) then i
    else FirstMatch(rules, checks, m, i + 1)
  }

  /** What a message does to the criteria: it ticks off one of them at most. */
  function Absorb(rules: Rules, checks: seq<bool>, m: Message): (r: seq<bool>)
    requires |rules.keys| == |checks|
    ensures |r| == |checks|
  {
    var k := FirstMatch(rules, checks, m, 0);
    if k < |checks| then checks[k := true] else checks
  }

  function AbsorbAll(rules: Rules, checks: seq<bool>, ms: seq<Message>): (r: seq<bool>)
    requires |rules.keys| == |checks|
    ensures |r| == |checks|
  {
    if ms == [] then checks else Absorb(rules, AbsorbAll(rules, checks, ms[..|ms| - 1]), ms[|ms| - 1])
  }

  predicate AllTrue(checks: seq<bool>) {
    forall i :: 0 <= i < |checks| ==> checks[i]
  }

  function Cleared(n: nat): (r: seq<bool>)
    ensures |r| == n && forall i :: 0 <= i < n ==> !r[i]
  {
    if n == 0 then [] else Cleared(n - 1) + [false]
  }

  /** Afterwards a criterion is met if it was before, or if the message carries its key with its value and no
      open criterion before it could use the message. */
  lemma {:induction false} AbsorbAt(rules: Rules, checks: seq<bool>, m: Message, i: nat)
    requires rules.Valid() && i < |rules.keys| == |checks|
    ensures var carried := if m.fields.Some? then m.fields.value.Items else {};
            Absorb(rules, checks, m)[i] <==>
              || checks[i]
              || ((rules.keys[i], rules.criteria[rules.keys[i]]) in carried
                  && forall j :: 0 <= j < i ==>
                       checks[j] || (rules.keys[j], rules.criteria[rules.keys[j]]) !in carried)
  {
    var carried := if m.fields.Some? then m.fields.value.Items else {};
    forall j | 0 <= j <= i ensures rules.Matches(j, m) <==> (rules.keys[j], rules.criteria[rules.keys[j]]) in carried {}
    var k := FirstMatch(rules, checks, m, 0);
    assert k < i ==> !checks[k] && rules.Matches(k, m);
  }

  // ---- The consumer as a state machine ----

  /** One run that was triggered: the messages consumed from since to until, and which of them met
      which criterion. */
  datatype Trigger = Trigger(since: nat, until: nat, backing: map<nat, nat>)

  /** consumed, since, met and triggers are logs; met says which consumed message ticked off a
      criterion since the last trigger. */
  datatype Stage = Stage(
    queue: seq<Message>,
    checks: seq<bool>,
    ready: bool,
    consumed: seq<Message>,
    since: nat,
    met: map<nat, nat>,
    triggers: seq<Trigger>)

  datatype Event =
    | Arrive(message: Message)   // the stream thread puts a message into the queue
    | Take(hour: int)            // one turn of the loop in consume
    | Fire                       // consume returned true: the criteria are reset and the job is executed

  function Start(rules: Rules): Stage {
    Stage([], Cleared(|rules.keys|), false, [], 0, map[], [])
  }

  predicate Enabled(rules: Rules, s: Stage, e: Event) {
    match e
    case Arrive(_) => true
    case Take(_) => s.queue != [] && !s.ready
    case Fire => s.ready
  }

  /** queue.take and checkCriteria: outside the window the message goes back to the end of the queue. */
  function TakeStep(rules: Rules, s: Stage, hour: int): Stage
    requires s.queue != [] && |rules.keys| == |s.checks|
  {
    var m := s.queue[0];
    if !rules.InWindow(hour) then s.(queue := s.queue[1..] + [m])
    else
      var k := FirstMatch(rules, s.checks, m, 0);
      var checks := Absorb(rules, s.checks, m);
      s.(queue := s.queue[1..], checks := checks, ready := AllTrue(checks), consumed := s.consumed + [m],
         met := if k < |checks| then s.met[k := |s.consumed|] else s.met)
  }

  function Step(rules: Rules, s: Stage, e: Event): Stage
    requires Enabled(rules, s, e) && |rules.keys| == |s.checks|
  {
    match e
    case Arrive(m) => s.(queue := s.queue + [m])
    case Take(hour) => TakeStep(rules, s, hour)
    case Fire => s.(checks := Cleared(|s.checks|), ready := false, since := |s.consumed|, met := map[],
                    triggers := s.triggers + [Trigger(s.since, |s.consumed|, s.met)])
  }

  // ---- What every step keeps ----

  /** backing names, for each criterion it covers, a consumed message of its own that meets it. */
  ghost predicate Backed(rules: Rules, consumed: seq<Message>, since: nat, until: nat, backing: map<nat, nat>) {
    && since <= until <= |consumed|
    && (forall i :: i in backing ==>
         i < |rules.keys| && since <= backing[i] < until && rules.Matches(i, consumed[backing[i]]))
    && (forall i, j :: i in backing && j in backing && backing[i] == backing[j] ==> i == j)
  }

  ghost predicate Complete(rules: Rules, backing: map<nat, nat>) {
    forall i: nat :: i < |rules.keys| ==> i in backing
  }

  ghost predicate TriggerOk(rules: Rules, consumed: seq<Message>, t: Trigger) {
    Complete(rules, t.backing) && Backed(rules, consumed, t.since, t.until, t.backing)
  }

  ghost predicate TriggersOk(rules: Rules, s: Stage) {
    && (forall t :: t in s.triggers ==> TriggerOk(rules, s.consumed, t))
    && (forall i, j {:trigger s.triggers[i], s.triggers[j]} :: 0 <= i < j == i + 1 < |s.triggers| ==>
          s.triggers[i].until == s.triggers[j].since)
    && (if s.triggers == [] then s.since == 0
        else s.triggers[0].since == 0 && s.triggers[|s.triggers| - 1].until == s.since)
    && s.since <= |s.consumed|
  }

  /** The log of the criteria met agrees with the flags. */
  ghost predicate Ticked(checks: seq<bool>, met: map<nat, nat>) {
    forall i :: 0 <= i < |checks| ==> (checks[i] <==> i in met)
  }

  ghost predicate Inv(rules: Rules, s: Stage) {
    && |s.checks| == |rules.keys|
    && Ticked(s.checks, s.met)
    && Backed(rules, s.consumed, s.since, |s.consumed|, s.met)
    && (s.ready ==> AllTrue(s.checks))
    && TriggersOk(rules, s)
  }

  lemma BackedGrows(rules: Rules, consumed: seq<Message>, more: seq<Message>, since: nat, until: nat,
                    backing: map<nat, nat>)
    requires Backed(rules, consumed, since, until, backing)
    ensures Backed(rules, consumed + more, since, until, backing)
  {
  }

  /** A consumed message that meets an open criterion becomes its backing. */
  lemma BackedByNew(rules: Rules, consumed: seq<Message>, m: Message, since: nat, met: map<nat, nat>, k: nat)
    requires Backed(rules, consumed, since, |consumed|, met) && since <= |consumed|
    requires k < |rules.keys| && rules.Matches(k, m)
    ensures Backed(rules, consumed + [m], since, |consumed| + 1, met[k := |consumed|])
  {
  }

  lemma BackedLater(rules: Rules, consumed: seq<Message>, m: Message, since: nat, met: map<nat, nat>)
    requires Backed(rules, consumed, since, |consumed|, met)
    ensures Backed(rules, consumed + [m], since, |consumed| + 1, met)
  {
  }

  lemma TriggerStays(rules: Rules, consumed: seq<Message>, more: seq<Message>, t: Trigger)
    requires TriggerOk(rules, consumed, t)
    ensures TriggerOk(rules, consumed + more, t)
  {
    BackedGrows(rules, consumed, more, t.since, t.until, t.backing);
  }

  lemma TriggersStay(rules: Rules, s: Stage, t: Stage, more: seq<Message>)
    requires TriggersOk(rules, s) && t.triggers == s.triggers && t.since == s.since && t.consumed == s.consumed + more
    ensures TriggersOk(rules, t)
  {
    hide TriggerOk;
    forall x | x in t.triggers ensures TriggerOk(rules, t.consumed, x) { TriggerStays(rules, s.consumed, more, x); }
  }

  lemma TakeKeeps(rules: Rules, s: Stage, hour: int)
    requires Inv(rules, s) && s.queue != []
    ensures Inv(rules, TakeStep(rules, s, hour))
  {
    if rules.InWindow(hour) {
      ConsumeKeeps(rules, s, hour);
    } else {
      hide Backed;
      assert s.queue == [s.queue[0]] + s.queue[1..];
      assert s.consumed + [] == s.consumed;
      TriggersStay(rules, s, TakeStep(rules, s, hour), []);
    }
  }

  /** What taking a message inside the window does to the stage. */
  lemma TakeParts(rules: Rules, s: Stage, hour: int)
    requires s.queue != [] && |rules.keys| == |s.checks| && rules.InWindow(hour)
    ensures var m, t, k := s.queue[0], TakeStep(rules, s, hour), FirstMatch(rules, s.checks, s.queue[0], 0);
            && t.queue == s.queue[1..] && t.consumed == s.consumed + [m]
            && t.checks == (if k < |s.checks| then s.checks[k := true] else s.checks)
            && t.met == (if k < |s.checks| then s.met[k := |s.consumed|] else s.met)
            && t.triggers == s.triggers && t.since == s.since && (t.ready ==> AllTrue(t.checks))
  {
  }

  lemma ConsumeKeeps(rules: Rules, s: Stage, hour: int)
    requires Inv(rules, s) && s.queue != [] && rules.InWindow(hour)
    ensures Inv(rules, TakeStep(rules, s, hour))
  {
    SinceBound(rules, s);
    hide TriggersOk, FirstMatch, Backed, TakeStep, AllTrue, Rules.InWindow, Rules.Matches,
         Ticked;
    TakeParts(rules, s, hour);
    var m, t := s.queue[0], TakeStep(rules, s, hour);
    TriggersStay(rules, s, t, [m]);
    BackedNext(rules, s, m, FirstMatch(rules, s.checks, m, 0));
    var k := FirstMatch(rules, s.checks, m, 0);
    if k < |s.checks| { TickedOff(s.checks, s.met, k, |s.consumed|); }
  }

  /** The flag and the log change together. */
  lemma TickedOff(checks: seq<bool>, met: map<nat, nat>, k: nat, n: nat)
    requires Ticked(checks, met) && k < |checks|
    ensures Ticked(checks[k := true], met[k := n])
  {
  }

  lemma BackedNext(rules: Rules, s: Stage, m: Message, k: nat)
    requires Backed(rules, s.consumed, s.since, |s.consumed|, s.met) && s.since <= |s.consumed|
    requires k < |rules.keys| ==> rules.Matches(k, m)
    ensures Backed(rules, s.consumed + [m], s.since, |s.consumed| + 1,
                   if k < |rules.keys| then s.met[k := |s.consumed|] else s.met)
  {
    hide Backed;
    if k < |rules.keys| {
      BackedByNew(rules, s.consumed, m, s.since, s.met, k);
    } else {
      BackedLater(rules, s.consumed, m, s.since, s.met);
    }
  }

  lemma SinceBound(rules: Rules, s: Stage)
    requires TriggersOk(rules, s)
    ensures s.since <= |s.consumed|
  {
  }

  lemma FireTriggers(rules: Rules, s: Stage)
    requires Inv(rules, s) && s.ready
    ensures TriggersOk(rules, Step(rules, s, Fire))
  {
    var t := Trigger(s.since, |s.consumed|, s.met);
    AllMet(rules, s);
    hide Backed, Complete, TriggerOk, Cleared;
    assert TriggerOk(rules, s.consumed, t) by { IsTrigger(rules, s.consumed, t); }
    var ts := s.triggers + [t];
    forall i | 0 < i < |ts| ensures ts[i - 1].until == ts[i].since {
      if i < |s.triggers| { assert ts[i] == s.triggers[i]; }
    }
  }

  lemma AllMet(rules: Rules, s: Stage)
    requires Inv(rules, s) && s.ready
    ensures Complete(rules, s.met)
  {
    forall i: nat | i < |rules.keys| ensures i in s.met { assert s.checks[i]; }
    hide Backed, TriggersOk;
  }

  lemma IsTrigger(rules: Rules, consumed: seq<Message>, t: Trigger)
    requires Complete(rules, t.backing) && Backed(rules, consumed, t.since, t.until, t.backing)
    ensures TriggerOk(rules, consumed, t)
  {
  }

  lemma StepKeeps(rules: Rules, s: Stage, e: Event)
    requires Inv(rules, s) && Enabled(rules, s, e)
    ensures Inv(rules, Step(rules, s, e))
  {
    match e {
      case Arrive(m) =>
        hide Backed;
        assert s.consumed + [] == s.consumed;
        TriggersStay(rules, s, Step(rules, s, e), []);
      case Take(hour) => TakeKeeps(rules, s, hour);
      case Fire => FireTriggers(rules, s);
    }
  }

  // ---- Runs ----

  ghost predicate CanRun(rules: Rules, es: seq<Event>)
    decreases |es|, 0
  {
    es == [] || (CanRun(rules, es[..|es| - 1]) && Enabled(rules, After(rules, es[..|es| - 1]), es[|es| - 1]))
  }

  ghost function After(rules: Rules, es: seq<Event>): (s: Stage)
    requires CanRun(rules, es)
    ensures |s.checks| == |rules.keys|
    decreases |es|, 1
  {
    if es == [] then Start(rules) else Step(rules, After(rules, es[..|es| - 1]), es[|es| - 1])
  }

  lemma {:induction false} InvAfter(rules: Rules, es: seq<Event>)
    requires CanRun(rules, es)
    ensures Inv(rules, After(rules, es))
    decreases |es|
  {
    if es != [] {
      hide Inv, Step, Enabled;
      InvAfter(rules, es[..|es| - 1]);
      StepKeeps(rules, After(rules, es[..|es| - 1]), es[|es| - 1]);
    }
  }

  /** The messages that the stream thread puts in. */
  function Sent(es: seq<Event>): multiset<Message> {
    if es == [] then multiset{}
    else
      var e := es[|es| - 1];
      Sent(es[..|es| - 1]) + if e.Arrive? then multiset{e.message} else multiset{}
  }

  /** No message is lost or made up: what was sent is what is queued and what was consumed. */
  lemma {:induction false} NothingLost(rules: Rules, es: seq<Event>)
    requires CanRun(rules, es)
    ensures var s := After(rules, es); Sent(es) == multiset(s.queue) + multiset(s.consumed)
    decreases |es|
  {
    if es != [] {
      hide Step, Enabled;
      NothingLost(rules, es[..|es| - 1]);
      StepHolds(rules, After(rules, es[..|es| - 1]), es[|es| - 1]);
    }
  }

  /** Only an arrival changes which messages there are, by the one that arrives. */
  lemma StepHolds(rules: Rules, s: Stage, e: Event)
    requires Enabled(rules, s, e) && |rules.keys| == |s.checks|
    ensures var t := Step(rules, s, e);
            multiset(t.queue) + multiset(t.consumed)
              == multiset(s.queue) + multiset(s.consumed) + if e.Arrive? then multiset{e.message} else multiset{}
  {
    hide TakeStep;
    if e.Take? {
      assert s.queue == [s.queue[0]] + s.queue[1..];
      TakeIs(rules, s, e.hour);
    }
  }

  /** One turn of the loop, field by field: outside the window the first message goes to the end of the queue and
      nothing else happens; inside it is consumed, and a run is due if all criteria are met then. */
  lemma {:induction false} TakeIs(rules: Rules, s: Stage, hour: int)
    requires s.queue != [] && |rules.keys| == |s.checks|
    ensures var t := TakeStep(rules, s, hour);
            && t.since == s.since && t.triggers == s.triggers
            && (!rules.InWindow(hour) ==>
                  && t.queue == s.queue[1..] + [s.queue[0]]
                  && t.consumed == s.consumed && t.checks == s.checks && t.ready == s.ready)
            && (rules.InWindow(hour) ==>
                  && t.queue == s.queue[1..] && t.consumed == s.consumed + [s.queue[0]]
                  && t.checks == Absorb(rules, s.checks, s.queue[0])
                  && (t.ready <==> forall i :: 0 <= i < |t.checks| ==> t.checks[i]))
  {
    hide Absorb, FirstMatch;
  }

  lemma {:induction false} TriggersInOrder(rules: Rules, s: Stage, a: nat, b: nat)
    requires TriggersOk(rules, s) && a < b < |s.triggers|
    ensures s.triggers[a].until <= s.triggers[b].since
    decreases b - a
  {
    assert s.triggers[b - 1].until == s.triggers[b].since by { assert s.triggers[b] == s.triggers[b]; }
    if a < b - 1 {
      TriggersInOrder(rules, s, a, b - 1);
      TriggerSpan(rules, s, b - 1);
    }
  }

  lemma TriggerSpan(rules: Rules, s: Stage, i: nat)
    requires TriggersOk(rules, s) && i < |s.triggers|
    ensures s.triggers[i].since <= s.triggers[i].until <= |s.consumed|
  {
    assert s.triggers[i] in s.triggers;
  }

  /** Each criterion of each triggered run is backed by a consumed message that meets it, and no
      message backs two of them, in one run or in two. */
  lemma {:induction false} DistinctBacking(rules: Rules, es: seq<Event>, a: nat, i: nat, b: nat, j: nat)
    requires CanRun(rules, es) && a <= b < |After(rules, es).triggers| && i < |rules.keys| && j < |rules.keys|
    ensures var s := After(rules, es);
            && i in s.triggers[a].backing && j in s.triggers[b].backing
            && s.triggers[a].backing[i] < |s.consumed|
            && var key, m := rules.keys[i], s.consumed[s.triggers[a].backing[i]];
            && key in rules.criteria && m.fields.Some? && (key, rules.criteria[key]) in m.fields.value.Items
            && (s.triggers[a].backing[i] == s.triggers[b].backing[j] ==> a == b && i == j)
  {
    InvAfter(rules, es);
    var s := After(rules, es);
    hide After, CanRun;
    assert s.triggers[a] in s.triggers && s.triggers[b] in s.triggers;
    if a < b { TriggersInOrder(rules, s, a, b); }
  }

  /** An injection of the criteria into a range needs room for all of them. */
  lemma {:induction false} RoomFor(n: nat, since: nat, until: nat, backing: map<nat, nat>)
    requires since <= until
    requires forall i: nat :: i < n ==> i in backing && since <= backing[i] < until
    requires forall i: nat, j: nat :: i < n && j < n && backing[i] == backing[j] ==> i == j
    ensures n <= until - since
    decreases n
  {
    if n > 0 {
      var top, out := n - 1, backing[n - 1];
      // What backs the others is moved into the range without its last place.
      var moved := map i: nat | i < top :: if backing[i] == until - 1 then out else backing[i];
      forall i: nat | i < top ensures since <= moved[i] < until - 1 {
        assert backing[i] != out;
      }
      forall i: nat, j: nat | i < top && j < top && moved[i] == moved[j] ensures i == j {
        assert backing[i] != out && backing[j] != out;
      }
      RoomFor(top, since, until - 1, moved);
    }
  }

  lemma {:induction false} RoomForAll(rules: Rules, s: Stage, m: nat)
    requires TriggersOk(rules, s) && m <= |s.triggers|
    ensures m * |rules.keys| <= if m == 0 then 0 else s.triggers[m - 1].until
    decreases m
  {
    if m > 0 {
      hide TriggersOk;
      RoomForAll(rules, s, m - 1);
      RoomForOne(rules, s, m - 1);
      assert m * |rules.keys| == (m - 1) * |rules.keys| + |rules.keys|;
    }
  }

  lemma RoomForOne(rules: Rules, s: Stage, i: nat)
    requires TriggersOk(rules, s) && i < |s.triggers|
    ensures |rules.keys| + (if i == 0 then 0 else s.triggers[i - 1].until) <= s.triggers[i].until
  {
    var t := s.triggers[i];
    assert t in s.triggers;
    assert i > 0 ==> s.triggers[i - 1].until == t.since;
    RoomFor(|rules.keys|, t.since, t.until, t.backing);
  }

  /** So the number of triggered runs times the number of criteria is at most the number of messages
      consumed. */
  lemma {:induction false} TriggersCost(rules: Rules, es: seq<Event>)
    requires CanRun(rules, es)
    ensures |After(rules, es).triggers| * |rules.keys| <= |After(rules, es).consumed|
  {
    InvAfter(rules, es);
    var s := After(rules, es);
    hide After, CanRun;
    RoomForAll(rules, s, |s.triggers|);
    if s.triggers != [] { TriggerSpan(rules, s, |s.triggers| - 1); }
  }

  // ---- The consumer object ----

  /** A satisfying prefix: some message is taken, all criteria are met after the last one and not
      after any earlier one. */
  ghost predicate ShortestPrefix(rules: Rules, checks: seq<bool>, q: seq<Message>, k: nat)
    requires |rules.keys| == |checks| && k <= |q|
  {
    && k > 0 && AllTrue(AbsorbAll(rules, checks, q[..k]))
    && forall j {:trigger q[..j]} :: 0 < j < k ==> !AllTrue(AbsorbAll(rules, checks, q[..j]))
  }

  lemma AbsorbNext(rules: Rules, checks: seq<bool>, q: seq<Message>, k: nat)
    requires |rules.keys| == |checks| && k < |q|
    ensures AbsorbAll(rules, checks, q[..k + 1]) == Absorb(rules, AbsorbAll(rules, checks, q[..k]), q[k])
  {
    assert q[..k + 1][..k] == q[..k];
  }

  lemma AbsorbNone(rules: Rules, checks: seq<bool>)
    requires |rules.keys| == |checks|
    ensures AbsorbAll(rules, checks, []) == checks && forall q :: NoneYet(rules, checks, q, 0)
  {
  }

  /** No prefix of at most k messages satisfies the criteria. */
  ghost predicate NoneYet(rules: Rules, checks: seq<bool>, q: seq<Message>, k: nat)
    requires |rules.keys| == |checks|
  {
    k <= |q| ==> forall j {:trigger q[..j]} :: 0 < j <= k ==> !AllTrue(AbsorbAll(rules, checks, q[..j]))
  }

  lemma PrefixNext(rules: Rules, checks: seq<bool>, q: seq<Message>, k: nat)
    requires |rules.keys| == |checks| && k < |q| && NoneYet(rules, checks, q, k)
    ensures if AllTrue(AbsorbAll(rules, checks, q[..k + 1])) then ShortestPrefix(rules, checks, q, k + 1)
            else NoneYet(rules, checks, q, k + 1)
  {
    hide AllTrue, AbsorbAll;
  }

  lemma NoPrefix(rules: Rules, checks: seq<bool>, q: seq<Message>)
    requires |rules.keys| == |checks| && NoneYet(rules, checks, q, |q|)
    ensures forall k: nat :: k <= |q| ==> !ShortestPrefix(rules, checks, q, k)
  {
    hide AllTrue, AbsorbAll;
  }

  /** A criterion once met stays met. */
  lemma {:induction false} MetStays(rules: Rules, checks: seq<bool>, q: seq<Message>, k: nat, i: nat)
    requires |rules.keys| == |checks| && k <= |q| && i < |checks| && AbsorbAll(rules, checks, q[..k])[i]
    ensures AbsorbAll(rules, checks, q)[i]
    decreases |q|
  {
    if k < |q| {
      assert q[..|q| - 1][..k] == q[..k];
      MetStays(rules, checks, q[..|q| - 1], k, i);
    } else {
      assert q[..k] == q;
    }
  }

  /** So some prefix satisfies the criteria exactly if the whole queue does. */
  lemma {:induction false} PrefixIff(rules: Rules, checks: seq<bool>, q: seq<Message>)
    requires |rules.keys| == |checks|
    ensures (exists k: nat :: k <= |q| && ShortestPrefix(rules, checks, q, k)) <==>
              q != [] && AllTrue(AbsorbAll(rules, checks, q))
  {
    if k: nat :| k <= |q| && ShortestPrefix(rules, checks, q, k) {
      forall i: nat | i < |checks| ensures AbsorbAll(rules, checks, q)[i] { MetStays(rules, checks, q, k, i); }
    }
    if q != [] && AllTrue(AbsorbAll(rules, checks, q)) {
      assert q[..|q|] == q;
      var k := Least(rules, checks, q, 1);
      assert ShortestPrefix(rules, checks, q, k);
    }
  }

  lemma {:induction false} Least(rules: Rules, checks: seq<bool>, q: seq<Message>, from: nat) returns (k: nat)
    requires |rules.keys| == |checks| && 0 < from <= |q| && AllTrue(AbsorbAll(rules, checks, q[..|q|]))
    requires forall j {:trigger q[..j]} :: 0 < j < from ==> !AllTrue(AbsorbAll(rules, checks, q[..j]))
    ensures k <= |q| && ShortestPrefix(rules, checks, q, k)
    decreases |q| - from
  {
    hide AllTrue, AbsorbAll;
    if AllTrue(AbsorbAll(rules, checks, q[..from])) {
      k := from;
    } else {
      k := Least(rules, checks, q, from + 1);
    }
  }

  class EventConsumerManager {
    const rules: Rules
    const criteriaMap: map<string, nat>
    const criteriaCheck: array<bool>
    var queue: seq<Message>

    ghost predicate Valid()
      reads this, criteriaCheck
    {
      && rules.Valid() && criteriaCheck.Length == |rules.keys|
      && forall i {:trigger rules.keys[i]} :: 0 <= i < |rules.keys| ==>
           rules.keys[i] in criteriaMap && criteriaMap[rules.keys[i]] == i
    }

    /** The criteria are numbered in the order of iteration, and none is met. */
    constructor (rules: Rules)
      requires rules.Valid()
      ensures Valid() && this.rules == rules && fresh(criteriaCheck)
      ensures queue == [] && criteriaCheck[..] == Cleared(|rules.keys|)
    {
      var numbers: map<string, nat> := map[];
      var i := 0;
      while i < |rules.keys|
        invariant i <= |rules.keys|
        invariant forall j {:trigger rules.keys[j]} :: 0 <= j < i ==>
                  rules.keys[j] in numbers && numbers[rules.keys[j]] == j
      {
        numbers := numbers[rules.keys[i] := i];
        i := i + 1;
      }
      var check := new bool[|rules.keys|];
      i := 0;
      while i < check.Length
        invariant 0 <= i <= check.Length && forall j :: 0 <= j < i ==> !check[j]
        modifies check
      {
        check[i] := false;
        i := i + 1;
      }
      this.rules, criteriaMap, criteriaCheck, queue := rules, numbers, check, [];
    }

    method ResetCriteriaCheck()
      requires Valid()
      modifies criteriaCheck
      ensures criteriaCheck[..] == Cleared(|rules.keys|)
    {
      var i := 0;
      while i < criteriaCheck.Length
        invariant 0 <= i <= criteriaCheck.Length && forall j :: 0 <= j < i ==> !criteriaCheck[j]
      {
        criteriaCheck[i] := false;
        i := i + 1;
      }
    }

    method AllCriteriaSatisfied() returns (ret: bool)
      ensures ret == AllTrue(criteriaCheck[..])
    {
      ret := true;
      var i := 0;
      while ret && i < criteriaCheck.Length
        invariant 0 <= i <= criteriaCheck.Length
        invariant ret ==> forall j :: 0 <= j < i ==> criteriaCheck[j]
        invariant !ret ==> exists j :: 0 <= j < criteriaCheck.Length && !criteriaCheck[j]
      {
        ret := criteriaCheck[i];
        i := i + 1;
      }
    }

    /** The message ticks off the first open criterion it meets; outside the window it goes back. */
    method CheckCriteria(m: Message, hour: int) returns (satisfied: bool)
      requires Valid()
      modifies this`queue, criteriaCheck
      ensures rules.InWindow(hour) ==>
                && queue == old(queue) && criteriaCheck[..] == Absorb(rules, old(criteriaCheck[..]), m)
                && satisfied == AllTrue(criteriaCheck[..])
      ensures !rules.InWindow(hour) ==>
                queue == old(queue) + [m] && criteriaCheck[..] == old(criteriaCheck[..]) && !satisfied
    {
      if !CheckTimeConstraints(hour, rules.window.startHour, rules.window.stopHour) {
        queue := queue + [m];
        return false;
      }
      ghost var before := criteriaCheck[..];
      var found := false;
      var i := 0;
      while i < |rules.keys| && !found
        invariant 0 <= i <= |rules.keys|
        invariant !found ==>
                  criteriaCheck[..] == before && FirstMatch(rules, before, m, 0) == FirstMatch(rules, before, m, i)
        invariant found ==> criteriaCheck[..] == Absorb(rules, before, m)
        invariant queue == old(queue)
      {
        var key := rules.keys[i];
        var index := criteriaMap[key];
        if !criteriaCheck[index] {
          if m.fields.Some? && key in m.fields.value && m.fields.value[key] == rules.criteria[key] {
            found := true;
            criteriaCheck[index] := true;
          }
        }
        i := i + 1;
      }
      assert !found ==> FirstMatch(rules, before, m, i) == |before|;
      assert criteriaCheck[..] == Absorb(rules, before, m);
      satisfied := AllCriteriaSatisfied();
    }

    /** consume while the clock stays inside the window: it takes the shortest prefix that satisfies
        the criteria, or everything if there is none. */
    method Consume(hours: nat -> int) returns (satisfied: bool)
      requires Valid() && forall k: nat :: rules.InWindow(hours(k))
      modifies this`queue, criteriaCheck
      ensures satisfied <==>
                exists k: nat :: k <= |old(queue)| && ShortestPrefix(rules, old(criteriaCheck[..]), old(queue), k)
      ensures satisfied <==> old(queue) != [] && AllTrue(AbsorbAll(rules, old(criteriaCheck[..]), old(queue)))
      ensures satisfied ==> exists k: nat ::
                && k <= |old(queue)| && ShortestPrefix(rules, old(criteriaCheck[..]), old(queue), k)
                && queue == old(queue)[k..]
                && criteriaCheck[..] == AbsorbAll(rules, old(criteriaCheck[..]), old(queue)[..k])
      ensures !satisfied ==> queue == [] && criteriaCheck[..] == AbsorbAll(rules, old(criteriaCheck[..]), old(queue))
    {
      satisfied := false;
      ghost var q, checks := queue, criteriaCheck[..];
      var taken: nat := 0;
      assert q[..0] == [];
      AbsorbNone(rules, checks);
      hide Absorb, AllTrue, AbsorbAll, NoneYet, ShortestPrefix;
      while queue != [] && !satisfied
        invariant taken <= |q| && queue == q[taken..]
        invariant criteriaCheck[..] == AbsorbAll(rules, checks, q[..taken])
        invariant if satisfied then ShortestPrefix(rules, checks, q, taken) else NoneYet(rules, checks, q, taken)
        decreases |queue|, !satisfied
      {
        var entry := queue[0];
        queue := queue[1..];
        AbsorbNext(rules, checks, q, taken);
        satisfied := CheckCriteria(entry, hours(taken));
        PrefixNext(rules, checks, q, taken);
        taken := taken + 1;
      }
      assert q[..|q|] == q;
      if !satisfied { NoPrefix(rules, checks, q); }
      PrefixIff(rules, checks, q);
    }
  }

  // ---- What the greedy choice costs ----

  /** All criteria are met once these messages have been consumed. */
  predicate Triggers(rules: Rules, ms: seq<Message>) {
    AllTrue(AbsorbAll(rules, Cleared(|rules.keys|), ms))
  }

  /** Every criterion can be given a message of its own that meets it. */
  ghost predicate Matchable(rules: Rules, ms: seq<Message>) {
    exists backing: map<nat, nat> :: Complete(rules, backing) && Backed(rules, ms, 0, |ms|, backing)
  }

  /** The first message, if any, that meets criterion i and that no earlier criterion has picked. */
  ghost function Pick(rules: Rules, ms: seq<Message>, i: nat): (x: nat)
    requires i < |rules.keys|
    ensures x <= |ms| && (x < |ms| ==> rules.Matches(i, ms[x]) && !Taken(rules, ms, i, x))
    ensures forall y :: 0 <= y < x ==> !rules.Matches(i, ms[y]) || Taken(rules, ms, i, y)
    decreases i, 2, 0
  {
    FirstFree(rules, ms, i, 0)
  }

  ghost function FirstFree(rules: Rules, ms: seq<Message>, i: nat, from: nat): (x: nat)
    requires i < |rules.keys| && from <= |ms|
    ensures from <= x <= |ms| && (x < |ms| ==> rules.Matches(i, ms[x]) && !Taken(rules, ms, i, x))
    ensures forall y :: from <= y < x ==> !rules.Matches(i, ms[y]) || Taken(rules, ms, i, y)
    decreases i, 1, |ms| - from
  {
    if from == |ms| || (rules.Matches(i, ms[from]) && !Taken(rules, ms, i, from)) then from
    else FirstFree(rules, ms, i, from + 1)
  }

  ghost predicate Taken(rules: Rules, ms: seq<Message>, i: nat, x: nat)
    requires i <= |rules.keys|
    decreases i, 0, 0
  {
    exists j: nat :: j < i && Pick(rules, ms, j) == x
  }

  /** Message x meets criterion i and is left for it. */
  ghost predicate LeftFor(rules: Rules, ms: seq<Message>, i: nat, x: nat) {
    i < |rules.keys| && x < |ms| && rules.Matches(i, ms[x]) && !Taken(rules, ms, i, x)
  }

  ghost predicate Served(rules: Rules, ms: seq<Message>, i: nat) {
    exists x: nat :: LeftFor(rules, ms, i, x)
  }

  /** What one more message changes: it goes to the first criterion that has none and that it meets. */
  lemma {:induction false} PickNext(rules: Rules, ms: seq<Message>, m: Message, i: nat)
    requires i < |rules.keys|
    ensures Pick(rules, ms, i) < |ms| ==> Pick(rules, ms + [m], i) == Pick(rules, ms, i)
    ensures Pick(rules, ms, i) == |ms| ==>
              Pick(rules, ms + [m], i) ==
                if rules.Matches(i, m) && !Taken(rules, ms + [m], i, |ms|) then |ms| else |ms| + 1
    decreases i
  {
    forall j: nat | j < i
      ensures Pick(rules, ms, j) < |ms| ==> Pick(rules, ms + [m], j) == Pick(rules, ms, j)
      ensures Pick(rules, ms, j) == |ms| ==> Pick(rules, ms + [m], j) >= |ms|
    {
      PickNext(rules, ms, m, j);
    }
    forall x: nat | x < |ms| ensures Taken(rules, ms + [m], i, x) <==> Taken(rules, ms, i, x) {
      if j: nat :| j < i && Pick(rules, ms, j) == x { assert Pick(rules, ms + [m], j) == x; }
    }
    var p, p' := Pick(rules, ms, i), Pick(rules, ms + [m], i);
    assert forall y :: 0 <= y < |ms| ==> (ms + [m])[y] == ms[y];
  }

  /** Consuming message by message is the same as letting the criteria choose, one after the other, the
      first message left that meets them. */
  lemma {:induction false} GreedyIsSerial(rules: Rules, ms: seq<Message>, i: nat)
    requires i < |rules.keys|
    ensures AbsorbAll(rules, Cleared(|rules.keys|), ms)[i] <==> Pick(rules, ms, i) < |ms|
    decreases |ms|
  {
    if ms != [] {
      var last := |ms| - 1;
      var front, m := ms[..last], ms[last];
      assert ms == front + [m];
      var checks := AbsorbAll(rules, Cleared(|rules.keys|), front);
      forall j: nat | j < |rules.keys|
        ensures checks[j] <==> Pick(rules, front, j) < |front|
        ensures Pick(rules, front, j) < |front| ==> Pick(rules, ms, j) == Pick(rules, front, j)
        ensures Pick(rules, front, j) == |front| ==>
                  Pick(rules, ms, j) == if rules.Matches(j, m) && !Taken(rules, ms, j, |front|) then |front| else |ms|
      {
        GreedyIsSerial(rules, front, j);
        PickNext(rules, front, m, j);
      }
      TakenByFirst(rules, ms, checks, i);
    }
  }

  /** The first open criterion the last message meets is the one that picks it. */
  lemma TakenByFirst(rules: Rules, ms: seq<Message>, checks: seq<bool>, i: nat)
    requires i < |rules.keys| == |checks| && ms != []
    requires forall j: nat :: j < |checks| ==>
               && (checks[j] ==> Pick(rules, ms, j) < |ms| - 1)
               && (!checks[j] ==>
                     var mine := rules.Matches(j, ms[|ms| - 1]) && !Taken(rules, ms, j, |ms| - 1);
                     Pick(rules, ms, j) == if mine then |ms| - 1 else |ms|)
    ensures Absorb(rules, checks, ms[|ms| - 1])[i] <==> Pick(rules, ms, i) < |ms|
  {
    var m, last := ms[|ms| - 1], |ms| - 1;
    var k := FirstMatch(rules, checks, m, 0);
    if k < |checks| {
      assert !Taken(rules, ms, k, last);
      assert Pick(rules, ms, k) == last;
      if i > k && !checks[i] { assert Taken(rules, ms, i, last); }
    }
  }

  /** A queue triggers exactly if each criterion is met by some message that no criterion before it has
      picked. */
  lemma {:induction false} TriggersIff(rules: Rules, ms: seq<Message>)
    ensures Triggers(rules, ms) <==> forall i: nat :: i < |rules.keys| ==> Served(rules, ms, i)
  {
    var checks := AbsorbAll(rules, Cleared(|rules.keys|), ms);
    forall i: nat | i < |rules.keys| ensures checks[i] <==> Served(rules, ms, i) {
      GreedyIsSerial(rules, ms, i);
      if Pick(rules, ms, i) < |ms| { assert LeftFor(rules, ms, i, Pick(rules, ms, i)); }
    }
    if forall i: nat :: i < |rules.keys| ==> Served(rules, ms, i) {
      forall i | 0 <= i < |checks| ensures checks[i] { assert Served(rules, ms, i); }
    }
  }

  /** What triggers could be matched: the picks are such a matching. */
  lemma {:induction false} TriggersSoundly(rules: Rules, ms: seq<Message>)
    requires Triggers(rules, ms)
    ensures Matchable(rules, ms)
  {
    forall i: nat | i < |rules.keys| ensures Pick(rules, ms, i) < |ms| {
      GreedyIsSerial(rules, ms, i);
      assert AbsorbAll(rules, Cleared(|rules.keys|), ms)[i];
    }
    var backing: map<nat, nat> := map i: nat | 0 <= i < |rules.keys| :: Pick(rules, ms, i);
    forall i: nat, j: nat | i < j < |rules.keys| ensures backing[i] != backing[j] {
      assert Taken(rules, ms, j, Pick(rules, ms, i));
    }
    assert Complete(rules, backing) && Backed(rules, ms, 0, |ms|, backing);
  }

  ghost predicate MeetsTwo(rules: Rules, m: Message) {
    exists i: nat, j: nat :: i < j < |rules.keys| && rules.Matches(i, m) && rules.Matches(j, m)
  }

  /** Some message carries the key of criterion i with exactly the value that the criterion asks for. */
  ghost predicate Met(rules: Rules, ms: seq<Message>, i: nat)
    requires i < |rules.keys|
  {
    var key := rules.keys[i];
    && key in rules.criteria
    && exists x :: 0 <= x < |ms| && ms[x].fields.Some? && (key, rules.criteria[key]) in ms[x].fields.value.Items
  }

  /** If no message meets two criteria, a queue triggers exactly if every criterion is met by some message. */
  lemma {:induction false} RightWithoutOverlap(rules: Rules, ms: seq<Message>)
    requires forall m :: m in ms ==> !MeetsTwo(rules, m)
    ensures Triggers(rules, ms) <==> forall i: nat :: i < |rules.keys| ==> Met(rules, ms, i)
  {
    TriggersIff(rules, ms);
    forall i: nat | i < |rules.keys| ensures Met(rules, ms, i) <==> Served(rules, ms, i) {
      if Met(rules, ms, i) {
        var key := rules.keys[i];
        var x :| 0 <= x < |ms| && ms[x].fields.Some? && (key, rules.criteria[key]) in ms[x].fields.value.Items;
        assert rules.Matches(i, ms[x]);
        assert !MeetsTwo(rules, ms[x]);
        assert LeftFor(rules, ms, i, x);
      }
      if x: nat :| LeftFor(rules, ms, i, x) { assert rules.Matches(i, ms[x]); }
    }
  }

  /** A message that meets exactly the criteria in the given set. */
  function Meeting(rules: Rules, keys: set<string>): Message
    requires keys <= rules.criteria.Keys
  {
    Message("", Some(map k | k in keys :: rules.criteria[k]))
  }

  lemma MeetsThem(rules: Rules, keys: set<string>, i: nat)
    requires rules.Valid() && keys <= rules.criteria.Keys && i < |rules.keys|
    ensures rules.Matches(i, Meeting(rules, keys)) <==> rules.keys[i] in keys
  {
  }

  /** What message x of the queue below meets. */
  function MissedKeys(rules: Rules, x: nat): set<string>
    requires |rules.keys| >= 2 && x < |rules.keys|
  {
    if x == 0 then {rules.keys[0], rules.keys[1]} else if x == 1 then {rules.keys[0]} else {rules.keys[x]}
  }

  /** The first message meets the first two criteria, the second only the first of them, and each
      further one the criterion of its own number. */
  function MissedQueue(rules: Rules): (ms: seq<Message>)
    requires rules.Valid() && |rules.keys| >= 2
    ensures |ms| == |rules.keys|
  {
    seq(|rules.keys|, x requires 0 <= x < |rules.keys| =>
      Meeting(rules, MissedKeys(rules, x)))
  }

  /** The message that would have to serve criterion i. */
  function Swapped(i: nat): nat {
    if i == 0 then 1 else if i == 1 then 0 else i
  }

  lemma {:induction false} QueueIsMissed(rules: Rules)
    requires rules.Valid() && |rules.keys| >= 2
    ensures Matchable(rules, MissedQueue(rules)) && !Triggers(rules, MissedQueue(rules))
  {
    var ms := MissedQueue(rules);
    forall x: nat, i: nat | x < |ms| && i < |ms|
      ensures rules.Matches(i, ms[x]) <==> (if x == 0 then i <= 1 else if x == 1 then i == 0 else i == x)
    {
      MeetsThem(rules, MissedKeys(rules, x), i);
    }
    var backing: map<nat, nat> := map i: nat | 0 <= i < |ms| :: Swapped(i);
    assert Complete(rules, backing) && Backed(rules, ms, 0, |ms|, backing);
    assert rules.Matches(0, ms[0]) && !Taken(rules, ms, 0, 0);
    assert Pick(rules, ms, 0) == 0 && Taken(rules, ms, 1, 0);
    assert !Served(rules, ms, 1);
    TriggersIff(rules, ms);
  }

  ghost predicate RightOn(rules: Rules, ms: seq<Message>) {
    Matchable(rules, ms) <==> Triggers(rules, ms)
  }

  /** The greedy match is right on every queue, triggering whenever it could be matched, exactly if there
      are no two criteria: with two, a message that meets both may be spent on the wrong one. */
  lemma {:induction false} GreedyIsRightIff(rules: Rules)
    requires rules.Valid()
    ensures (forall ms: seq<Message> :: RightOn(rules, ms)) <==> |rules.keys| <= 1
  {
    if |rules.keys| >= 2 {
      QueueIsMissed(rules);
      assert !RightOn(rules, MissedQueue(rules));
    } else {
      forall ms: seq<Message> ensures RightOn(rules, ms) { RightForOne(rules, ms); }
    }
  }

  lemma RightForOne(rules: Rules, ms: seq<Message>)
    requires |rules.keys| <= 1
    ensures RightOn(rules, ms)
  {
    if Triggers(rules, ms) { TriggersSoundly(rules, ms); }
    if Matchable(rules, ms) {
      var backing: map<nat, nat> :| Complete(rules, backing) && Backed(rules, ms, 0, |ms|, backing);
      TriggersIff(rules, ms);
      forall i: nat | i < |rules.keys| ensures Served(rules, ms, i) { assert LeftFor(rules, ms, i, backing[i]); }
    }
  }

  // ---- Over a run, triggers come as early as they can ----

  /** No shorter stretch from since on than the one to until would trigger. */
  ghost predicate Earliest(rules: Rules, consumed: seq<Message>, since: nat, until: nat) {
    since <= until <= |consumed| && forall u :: since < u < until ==> !Triggers(rules, consumed[since..u])
  }

  ghost predicate RightTrigger(rules: Rules, consumed: seq<Message>, t: Trigger) {
    && t.since < t.until <= |consumed|
    && Triggers(rules, consumed[t.since..t.until]) && Earliest(rules, consumed, t.since, t.until)
  }

  /** Where the run stands follows from what was consumed since the last trigger. */
  ghost predicate OnTime(rules: Rules, s: Stage) {
    && |s.checks| == |rules.keys| && s.since <= |s.consumed| && Earliest(rules, s.consumed, s.since, |s.consumed|)
    && s.checks == AbsorbAll(rules, Cleared(|rules.keys|), s.consumed[s.since..])
    && (s.ready <==> s.since < |s.consumed| && Triggers(rules, s.consumed[s.since..]))
    && forall i :: 0 <= i < |s.triggers| ==> RightTrigger(rules, s.consumed, s.triggers[i])
  }

  lemma EarliestGrows(rules: Rules, consumed: seq<Message>, m: Message, since: nat, until: nat)
    requires Earliest(rules, consumed, since, until)
    ensures Earliest(rules, consumed + [m], since, until)
    ensures (consumed + [m])[since..until] == consumed[since..until]
  {
    hide Triggers;
    forall u | since < u < until ensures !Triggers(rules, (consumed + [m])[since..u]) {
      assert (consumed + [m])[since..u] == consumed[since..u];
    }
  }

  lemma ConsumeOnTime(rules: Rules, s: Stage, hour: int)
    requires OnTime(rules, s) && s.queue != [] && !s.ready && rules.InWindow(hour)
    ensures OnTime(rules, TakeStep(rules, s, hour))
  {
    hide TakeStep, Absorb, Earliest, RightTrigger;
    var m, t := s.queue[0], TakeStep(rules, s, hour);
    TakeIs(rules, s, hour);
    ConsumedMore(rules, s.consumed, s.since, m);
    forall i | 0 <= i < |s.triggers| ensures RightTrigger(rules, t.consumed, s.triggers[i]) {
      TriggerStaysRight(rules, s.consumed, m, s.triggers[i]);
    }
  }

  lemma TriggerStaysRight(rules: Rules, consumed: seq<Message>, m: Message, t: Trigger)
    requires RightTrigger(rules, consumed, t)
    ensures RightTrigger(rules, consumed + [m], t)
  {
    hide Triggers, Earliest;
    EarliestGrows(rules, consumed, m, t.since, t.until);
  }

  lemma ConsumedMore(rules: Rules, consumed: seq<Message>, since: nat, m: Message)
    requires Earliest(rules, consumed, since, |consumed|)
    requires since <= |consumed| && !(since < |consumed| && Triggers(rules, consumed[since..]))
    ensures var c, checks := consumed + [m], Cleared(|rules.keys|);
            && Earliest(rules, c, since, |c|)
            && AbsorbAll(rules, checks, c[since..]) == Absorb(rules, AbsorbAll(rules, checks, consumed[since..]), m)
  {
    var c := consumed + [m];
    assert c[since..] == consumed[since..] + [m];
    EarliestGrows(rules, consumed, m, since, |consumed|);
    assert consumed[since..|consumed|] == consumed[since..];
    hide Triggers, Absorb;
    forall u | since < u < |c| ensures !Triggers(rules, c[since..u]) {
      if u == |consumed| { assert c[since..u] == consumed[since..]; }
    }
  }

  lemma FireOnTime(rules: Rules, s: Stage)
    requires OnTime(rules, s) && s.ready
    ensures OnTime(rules, Step(rules, s, Fire))
  {
    hide Triggers, Earliest;
    var n := |s.consumed|;
    assert s.consumed[s.since..n] == s.consumed[s.since..] && s.consumed[n..] == [];
    NothingSince(rules, s.consumed);
  }

  lemma NothingSince(rules: Rules, consumed: seq<Message>)
    ensures Earliest(rules, consumed, |consumed|, |consumed|)
    ensures AbsorbAll(rules, Cleared(|rules.keys|), []) == Cleared(|rules.keys|)
  {
  }

  /** Over every run a run is due, and one was triggered, exactly as soon as the messages consumed since the
      trigger before satisfy all criteria. */
  lemma {:induction false} TriggersOnTime(rules: Rules, es: seq<Event>)
    requires CanRun(rules, es)
    ensures OnTime(rules, After(rules, es))
    decreases |es|
  {
    hide OnTime, TakeStep;
    if es == [] {
      StartOnTime(rules);
    } else {
      var s, e := After(rules, es[..|es| - 1]), es[|es| - 1];
      TriggersOnTime(rules, es[..|es| - 1]);
      assert Enabled(rules, s, e);
      match e {
        case Arrive(m) => ArriveOnTime(rules, s, m);
        case Fire => FireOnTime(rules, s);
        case Take(hour) => TakeOnTime(rules, s, hour);
      }
    }
  }

  lemma StartOnTime(rules: Rules)
    ensures OnTime(rules, Start(rules))
  {
    NothingSince(rules, []);
  }

  lemma ArriveOnTime(rules: Rules, s: Stage, m: Message)
    requires OnTime(rules, s)
    ensures OnTime(rules, Step(rules, s, Arrive(m)))
  {
    hide Triggers, Earliest, RightTrigger;
  }

  lemma TakeOnTime(rules: Rules, s: Stage, hour: int)
    requires OnTime(rules, s) && s.queue != [] && !s.ready
    ensures OnTime(rules, TakeStep(rules, s, hour))
  {
    if rules.InWindow(hour) {
      ConsumeOnTime(rules, s, hour);
    } else {
      hide Triggers, Earliest, RightTrigger, Absorb;
    }
  }
}
