/** The cache of flow executions: access ordered, bounded, with running entries pinned. */
module FlowCache {
  import opened FlowTypes

  /** Holders are told apart by identity: R is the type of references to them. */
  datatype Entry<R> = Entry(key: string, holder: R)

  // ---- An access ordered LinkedHashMap, eldest entry first ----

  predicate HasKey<R>(m: seq<Entry<R>>, key: string) {
    exists i :: 0 <= i < |m| && m[i].key == key
  }

  /** The index of the key, or the size. */
  function IndexOf<R>(m: seq<Entry<R>>, key: string): (i: nat)
    ensures i <= |m| && (i < |m| <==> HasKey(m, key))
    ensures i < |m| ==> m[i].key == key
    ensures forall j :: 0 <= j < i ==> m[j].key != key
  {
    if m == [] then 0
    else if m[0].key == key then 0
    else 1 + IndexOf(m[1..], key)
  }

  function Without<R>(m: seq<Entry<R>>, key: string): seq<Entry<R>> {
    var i := IndexOf(m, key);
    if i == |m| then m else m[..i] + m[i + 1..]
  }

  /** get: the entry becomes the youngest. */
  function Touched<R>(m: seq<Entry<R>>, key: string): seq<Entry<R>> {
    var i := IndexOf(m, key);
    if i == |m| then m else Without(m, key) + [m[i]]
  }

  ghost predicate DistinctKeys<R>(m: seq<Entry<R>>) {
    forall i, j :: 0 <= i < j < |m| ==> m[i].key != m[j].key
  }

  // ---- The cache as a state machine ----

  /** statuses are the fields of the holders' flows. */
  datatype Cache<R> = Cache(entries: seq<Entry<R>>, statuses: map<R, Status>)

  datatype Event<R> =
    | Execute(id: string, holder: R, status: Status)       // execute on the wrapped flow, and the status it leaves
    | Load(id: string, stored: Option<R>, status: Status)  // loadExecutableFlow, and what the base manager has
    | Change(holder: R, status: Status)                    // a flow changes its status

  function Running<R>(c: Cache<R>, h: R): bool {
    h in c.statuses && c.statuses[h] == RUNNING
  }

  /** removeEldestEntry after an insertion: at most one entry goes, and never a running one. */
  function Evict<R>(c: Cache<R>, cacheSize: nat): Cache<R> {
    if |c.entries| <= cacheSize || c.entries == [] then c
    else if !Running(c, c.entries[0].holder) then c.(entries := c.entries[1..])
    else c
  }

  /** addToCache for a key that is not there. */
  function Insert<R>(c: Cache<R>, cacheSize: nat, id: string, h: R): Cache<R> {
    Evict(c.(entries := c.entries + [Entry(id, h)]), cacheSize)
  }

  /** A status is known as soon as a holder is. */
  function Know<R>(c: Cache<R>, h: R, status: Status): Cache<R> {
    c.(statuses := c.statuses[h := status])
  }

  /** A flow that is executed is READY if it was not known, and inserted unless its id is there. */
  function Admitted<R>(c: Cache<R>, cacheSize: nat, id: string, h: R): Cache<R> {
    var d := if h in c.statuses then c else Know(c, h, READY);
    if HasKey(c.entries, id) then d else Insert(d, cacheSize, id, h)
  }

  function ExecuteStep<R>(c: Cache<R>, cacheSize: nat, id: string, h: R, status: Status): Cache<R> {
    Know(Admitted(c, cacheSize, id, h), h, status)
  }

  /** A hit makes the entry the youngest; a miss inserts what the base manager found. */
  function LoadStep<R>(c: Cache<R>, cacheSize: nat, id: string, stored: Option<R>, status: Status): Cache<R> {
    if HasKey(c.entries, id) then
      c.(entries := Touched(c.entries, id))
    else if stored.None? then c
    else Insert(Know(c, stored.value, status), cacheSize, id, stored.value)
  }

  function Step<R>(c: Cache<R>, cacheSize: nat, e: Event<R>): Cache<R> {
    match e
    case Execute(id, h, status) => ExecuteStep(c, cacheSize, id, h, status)
    case Load(id, stored, status) => LoadStep(c, cacheSize, id, stored, status)
    case Change(h, status) => Know(c, h, status)
  }

  /** What loadExecutableFlow returns. */
  function LoadResult<R>(c: Cache<R>, id: string, stored: Option<R>): Option<R> {
    if HasKey(c.entries, id) then Some(c.entries[IndexOf(c.entries, id)].holder) else stored
  }

  function Empty<R>(): Cache<R> {
    Cache([], map[])
  }

  // ---- What every step keeps ----

  lemma InsertKeeps<R>(c: Cache<R>, cacheSize: nat, id: string, h: R)
    requires DistinctKeys(c.entries) && !HasKey(c.entries, id)
    ensures DistinctKeys(Insert(c, cacheSize, id, h).entries)
  {
  }

  lemma TouchedSame<R>(m: seq<Entry<R>>, key: string)
    ensures |Touched(m, key)| == |m| && forall x :: x in Touched(m, key) <==> x in m
  {
    var i := IndexOf(m, key);
    if i < |m| { assert m == m[..i] + [m[i]] + m[i + 1..]; }
  }

  /** Where the entries of a touched map come from: the last one is the key's, the others keep their order. */
  lemma TouchedAt<R>(m: seq<Entry<R>>, key: string, i: nat, x: nat)
    requires i == IndexOf(m, key) < |m| && x < |m|
    ensures |Touched(m, key)| == |m|
    ensures Touched(m, key)[x] == m[if x == |m| - 1 then i else if x < i then x else x + 1]
  {
    hide IndexOf;
    var rest := m[..i] + m[i + 1..];
    assert Touched(m, key) == rest + [m[i]];
  }

  /** A touched map holds the same entries under the same keys. */
  lemma TouchKeeps<R>(c: Cache<R>, id: string)
    requires DistinctKeys(c.entries) && HasKey(c.entries, id)
    ensures DistinctKeys(Touched(c.entries, id))
  {
    var m, i := c.entries, IndexOf(c.entries, id);
    TouchedSame(m, id);
    hide Touched, HasKey, IndexOf;
    forall x, y | 0 <= x < y < |m| ensures Touched(m, id)[x].key != Touched(m, id)[y].key {
      TouchedAt(m, id, i, x);
      TouchedAt(m, id, i, y);
    }
  }

  lemma {:induction false} StepKeeps<R>(c: Cache<R>, cacheSize: nat, e: Event<R>)
    requires DistinctKeys(c.entries)
    ensures DistinctKeys(Step(c, cacheSize, e).entries)
  {
    hide Insert, Touched;
    match e {
      case Execute(id, h, status) =>
        if !HasKey(c.entries, id) { InsertKeeps(if h in c.statuses then c else Know(c, h, READY), cacheSize, id, h); }
      case Load(id, stored, status) =>
        if HasKey(c.entries, id) {
          TouchKeeps(c, id);
        } else if stored.Some? {
          InsertKeeps(Know(c, stored.value, status), cacheSize, id, stored.value);
        }
      case Change(h, status) =>
    }
  }

  /** The entry leaves the cache in this step. */
  ghost predicate Evicted<R>(c: Cache<R>, cacheSize: nat, e: Event<R>, x: Entry<R>) {
    x in c.entries && x !in Step(c, cacheSize, e).entries
  }

  lemma InsertEvicts<R>(c: Cache<R>, cacheSize: nat, id: string, h: R, x: Entry<R>)
    requires x in c.entries && x !in Insert(c, cacheSize, id, h).entries && cacheSize > 0
    ensures |c.entries| >= cacheSize && x == c.entries[0] && !Running(c, x.holder)
  {
    var m := c.entries + [Entry(id, h)];
    assert x in m;
    assert forall y :: y in m && y != m[0] ==> y in m[1..];
  }

  /** Only an insertion into a full cache evicts, and only the eldest entry, when it is not running. */
  lemma {:induction false} EvictsEldest<R>(c: Cache<R>, cacheSize: nat, e: Event<R>, x: Entry<R>)
    requires DistinctKeys(c.entries) && cacheSize > 0 && Evicted(c, cacheSize, e, x)
    ensures |c.entries| >= cacheSize && x == c.entries[0]
    ensures match e
            case Execute(id, h, _) => !Running(if h in c.statuses then c else Know(c, h, READY), x.holder)
            case Load(id, stored, status) => stored.Some? && !Running(Know(c, stored.value, status), x.holder)
            case Change(_, _) => false
  {
    hide Insert, Touched;
    match e {
      case Execute(id, h, status) =>
        if !HasKey(c.entries, id) {
          InsertEvicts(if h in c.statuses then c else Know(c, h, READY), cacheSize, id, h, x);
        }
      case Load(id, stored, status) =>
        TouchedSame(c.entries, id);
        if !HasKey(c.entries, id) && stored.Some? {
          InsertEvicts(Know(c, stored.value, status), cacheSize, id, stored.value, x);
        }
      case Change(h, status) =>
    }
  }

  lemma StepGrows<R>(c: Cache<R>, cacheSize: nat, e: Event<R>)
    ensures |c.entries| <= |Step(c, cacheSize, e).entries| <= |c.entries| + 1
  {
    if e.Load? { TouchedSame(c.entries, e.id); }
    hide Touched;
  }

  // ---- Runs ----

  ghost function After<R>(cacheSize: nat, es: seq<Event<R>>): Cache<R> {
    if es == [] then Empty() else Step(After(cacheSize, es[..|es| - 1]), cacheSize, es[|es| - 1])
  }

  lemma {:induction false} InvAfter<R>(cacheSize: nat, es: seq<Event<R>>)
    ensures DistinctKeys(After(cacheSize, es).entries)
    decreases |es|
  {
    if es != [] {
      hide Step;
      InvAfter(cacheSize, es[..|es| - 1]);
      StepKeeps(After(cacheSize, es[..|es| - 1]), cacheSize, es[|es| - 1]);
    }
  }

  // ---- How large the cache becomes, read off the events ----

  /** The entry that the event puts in, if it puts in one. */
  ghost function Newcomer<R>(c: Cache<R>, e: Event<R>): Option<Entry<R>> {
    match e
    case Execute(id, h, _) => if HasKey(c.entries, id) then None else Some(Entry(id, h))
    case Load(id, stored, _) => if HasKey(c.entries, id) || stored.None? then None else Some(Entry(id, stored.value))
    case Change(_, _) => None
  }

  /** What is known of the status of a holder when the event puts its entry in. */
  ghost function StatusThen<R>(c: Cache<R>, e: Event<R>, h: R): Option<Status> {
    if e.Load? && e.stored == Some(h) then Some(e.status)
    else if h in c.statuses then Some(c.statuses[h])
    else if e.Execute? && e.holder == h then Some(READY)
    else None
  }

  /** The event puts an entry into the full cache and finds the eldest running. */
  ghost predicate Crowds<R>(c: Cache<R>, cacheSize: nat, e: Event<R>) {
    var n := Newcomer(c, e);
    && n.Some? && |c.entries| >= cacheSize
    && StatusThen(c, e, (c.entries + [n.value])[0].holder) == Some(RUNNING)
  }

  /** What is put in comes last. The eldest entry goes exactly if there is no room and it is not running. */
  lemma {:induction false} InsertionIs<R>(c: Cache<R>, cacheSize: nat, e: Event<R>)
    ensures Newcomer(c, e).None? ==> |Step(c, cacheSize, e).entries| == |c.entries|
    ensures Newcomer(c, e).Some? ==>
              var m := c.entries + [Newcomer(c, e).value];
              Step(c, cacheSize, e).entries == if |c.entries| < cacheSize || Crowds(c, cacheSize, e) then m else m[1..]
  {
    hide HasKey;
    match e {
      case Execute(id, h, status) =>
      case Load(id, stored, status) => TouchedSame(c.entries, id); hide Touched;
      case Change(h, status) =>
    }
  }

  /** How many events of the run found the eldest entry running. */
  ghost function Crowdings<R>(cacheSize: nat, es: seq<Event<R>>): nat {
    if es == [] then 0
    else
      var before := es[..|es| - 1];
      Crowdings(cacheSize, before) + if Crowds(After(cacheSize, before), cacheSize, es[|es| - 1]) then 1 else 0
  }

  /** In every run the size of the cache is exact once some insertion into the full cache has found the
      least recently used entry running, and within the configured size before. */
  lemma {:induction false} SizeIs<R>(cacheSize: nat, es: seq<Event<R>>)
    ensures var size, n := |After(cacheSize, es).entries|, Crowdings(cacheSize, es);
            if n > 0 then size == cacheSize + n else size <= cacheSize
    decreases |es|
  {
    if es != [] {
      hide Step, Crowds, Newcomer;
      var before, e := es[..|es| - 1], es[|es| - 1];
      SizeIs(cacheSize, before);
      InsertionIs(After(cacheSize, before), cacheSize, e);
      CrowdsIn(After(cacheSize, before), cacheSize, e);
    }
  }

  lemma CrowdsIn<R>(c: Cache<R>, cacheSize: nat, e: Event<R>)
    ensures Crowds(c, cacheSize, e) ==> Newcomer(c, e).Some? && |c.entries| >= cacheSize
  {
  }

  lemma {:induction false} CrowdingsCount<R>(cacheSize: nat, es: seq<Event<R>>)
    ensures Crowdings(cacheSize, es) > 0 <==>
              exists i :: 0 <= i < |es| && Crowds(After(cacheSize, es[..i]), cacheSize, es[i])
    decreases |es|
  {
    if es != [] {
      hide Crowds, After;
      var before := es[..|es| - 1];
      CrowdingsCount(cacheSize, before);
      if i :| 0 <= i < |before| && Crowds(After(cacheSize, before[..i]), cacheSize, before[i]) {
        assert es[..i] == before[..i] && es[i] == before[i];
      }
      if i :| 0 <= i < |es| && Crowds(After(cacheSize, es[..i]), cacheSize, es[i]) {
        if i < |before| { assert es[..i] == before[..i] && es[i] == before[i]; }
      }
    }
  }

  /** A cache has outgrown its size exactly if there was such an insertion. */
  lemma {:induction false} OutgrownIff<R>(cacheSize: nat, es: seq<Event<R>>)
    ensures |After(cacheSize, es).entries| > cacheSize <==>
              exists i :: 0 <= i < |es| && Crowds(After(cacheSize, es[..i]), cacheSize, es[i])
  {
    SizeIs(cacheSize, es);
    CrowdingsCount(cacheSize, es);
    hide After, Crowds;
  }

  /** In no run does the cache become smaller, so once it has outgrown its size it stays so. */
  lemma {:induction false} NeverShrinks<R>(cacheSize: nat, es: seq<Event<R>>, n: nat)
    requires n <= |es|
    ensures |After(cacheSize, es[..n]).entries| <= |After(cacheSize, es).entries|
    decreases |es|
  {
    hide Step;
    if n == |es| {
      assert es[..n] == es;
    } else {
      var before := es[..|es| - 1];
      assert before[..n] == es[..n];
      NeverShrinks(cacheSize, before, n);
      InvAfter(cacheSize, before);
      StepGrows(After(cacheSize, before), cacheSize, es[|es| - 1]);
    }
  }

  /** It takes more events than the cache has room for to outgrow it. */
  lemma {:induction false} EntriesCost<R>(cacheSize: nat, es: seq<Event<R>>)
    ensures |After(cacheSize, es).entries| <= |es|
    decreases |es|
  {
    if es != [] {
      hide Step;
      EntriesCost(cacheSize, es[..|es| - 1]);
      InvAfter(cacheSize, es[..|es| - 1]);
      StepGrows(After(cacheSize, es[..|es| - 1]), cacheSize, es[|es| - 1]);
    }
  }

  /** Flows with different ids, all executed and left running. */
  ghost predicate LeftRunning<R>(es: seq<Event<R>>) {
    && (forall i :: 0 <= i < |es| ==> es[i].Execute? && es[i].status == RUNNING)
    && (forall i, j :: 0 <= i < j < |es| ==> es[i].Execute? && es[j].Execute? && es[i].id != es[j].id)
  }

  ghost predicate Filled<R>(c: Cache<R>, es: seq<Event<R>>) {
    && |c.entries| == |es|
    && forall i :: 0 <= i < |es| ==> es[i].Execute? && c.entries[i].key == es[i].id && Running(c, c.entries[i].holder)
  }

  lemma FillStep<R>(c: Cache<R>, cacheSize: nat, es: seq<Event<R>>, id: string, h: R)
    requires cacheSize > 0 && Filled(c, es) && forall i :: 0 <= i < |es| ==> es[i].Execute? && es[i].id != id
    ensures Filled(ExecuteStep(c, cacheSize, id, h, RUNNING), es + [Execute(id, h, RUNNING)])
  {
    assert !HasKey(c.entries, id);
    hide HasKey;
  }

  /** A cache can be outgrown as far as one likes: flows that are left running all stay. */
  lemma {:induction false} RunningFlowsOutgrow<R>(cacheSize: nat, es: seq<Event<R>>)
    requires cacheSize > 0 && LeftRunning(es)
    ensures Filled(After(cacheSize, es), es)
    decreases |es|
  {
    if es != [] {
      var before, e := es[..|es| - 1], es[|es| - 1];
      assert es == before + [e];
      RunningFlowsOutgrow(cacheSize, before);
      FillStep(After(cacheSize, before), cacheSize, before, e.id, e.holder);
    }
  }

  /** The shortest run that outgrows a cache with room for one: two flows are executed, the first of which
      is still running. A single event never suffices. */
  lemma {:induction false} TwoOutgrowOne<R>(a: string, b: string, first: R, second: R, status: Status)
    requires a != b
    ensures var es := [Execute(a, first, RUNNING), Execute(b, second, status)];
            After(1, es).entries == [Entry(a, first), Entry(b, second)] && Crowdings(1, es) == 1
    ensures forall es: seq<Event<R>> :: |es| <= 1 ==> |After(1, es).entries| <= 1
  {
    hide ExecuteStep, After;
    var es: seq<Event<R>> := [Execute(a, first, RUNNING), Execute(b, second, status)];
    assert es[..1] == [es[0]] && [es[0]][..0] == [];
    AfterNone<R>(1);
    AfterNext(1, [es[0]]);
    AfterNext(1, es);
    FirstIn(a, first);
    SecondIn(a, b, first, second, status);
    SizeIs(1, es);
    forall shorter: seq<Event<R>> | |shorter| <= 1 ensures |After(1, shorter).entries| <= 1 { EntriesCost(1, shorter); }
  }

  lemma AfterNone<R>(cacheSize: nat)
    ensures After<R>(cacheSize, []) == Empty()
  {
  }

  lemma AfterNext<R>(cacheSize: nat, es: seq<Event<R>>)
    requires es != []
    ensures After(cacheSize, es) == Step(After(cacheSize, es[..|es| - 1]), cacheSize, es[|es| - 1])
  {
  }

  function OneIn<R>(a: string, first: R): Cache<R> {
    Cache([Entry(a, first)], map[first := RUNNING])
  }

  lemma FirstIn<R>(a: string, first: R)
    ensures ExecuteStep(Empty<R>(), 1, a, first, RUNNING) == OneIn(a, first)
  {
  }

  lemma SecondIn<R>(a: string, b: string, first: R, second: R, status: Status)
    requires a != b
    ensures var c := ExecuteStep(OneIn(a, first), 1, b, second, status);
            c.entries == [Entry(a, first), Entry(b, second)]
  {
    assert !HasKey(OneIn(a, first).entries, b);
  }

  // ---- When keys were last used, read off the events ----

  /** The event puts an entry under the key into this cache, or looks the key up and finds it. Executing a
      flow whose id is there does neither. */
  ghost predicate UsesKey<R>(c: Cache<R>, e: Event<R>, key: string) {
    match e
    case Execute(id, _, _) => id == key && !HasKey(c.entries, key)
    case Load(id, stored, _) => id == key && (HasKey(c.entries, key) || stored.Some?)
    case Change(_, _) => false
  }

  /** The number of the last event that used the key, 0 if none did. */
  ghost function LastUse<R>(cacheSize: nat, es: seq<Event<R>>, key: string): (n: nat)
    ensures n <= |es|
  {
    if es == [] then 0
    else
      var before := es[..|es| - 1];
      if UsesKey(After(cacheSize, before), es[|es| - 1], key) then |es| else LastUse(cacheSize, before, key)
  }

  /** The entries stand in the order in which their keys were last used. */
  ghost predicate InOrderOfUse<R>(cacheSize: nat, es: seq<Event<R>>, m: seq<Entry<R>>) {
    forall i, j :: 0 <= i < j < |m| ==> LastUse(cacheSize, es, m[i].key) < LastUse(cacheSize, es, m[j].key)
  }

  lemma UseNext<R>(cacheSize: nat, es: seq<Event<R>>, key: string)
    requires es != []
    ensures LastUse(cacheSize, es, key) ==
              if UsesKey(After(cacheSize, es[..|es| - 1]), es[|es| - 1], key) then |es|
              else LastUse(cacheSize, es[..|es| - 1], key)
  {
  }

  /** An event that uses no cached key leaves the order as it was. */
  lemma OrderStays<R>(cacheSize: nat, es: seq<Event<R>>)
    requires es != []
    requires var c := After(cacheSize, es[..|es| - 1]);
             && InOrderOfUse(cacheSize, es[..|es| - 1], c.entries)
             && forall x :: x in c.entries ==> !UsesKey(c, es[|es| - 1], x.key)
    ensures InOrderOfUse(cacheSize, es, After(cacheSize, es[..|es| - 1]).entries)
  {
    hide After, LastUse, UsesKey;
    var c := After(cacheSize, es[..|es| - 1]);
    forall i, j | 0 <= i < j < |c.entries|
      ensures LastUse(cacheSize, es, c.entries[i].key) < LastUse(cacheSize, es, c.entries[j].key)
    {
      UseNext(cacheSize, es, c.entries[i].key);
      UseNext(cacheSize, es, c.entries[j].key);
      assert c.entries[i] in c.entries && c.entries[j] in c.entries;
    }
  }

  /** The key just used comes last. */
  lemma OrderWithNew<R>(cacheSize: nat, es: seq<Event<R>>, m: seq<Entry<R>>, x: Entry<R>)
    requires es != [] && UsesKey(After(cacheSize, es[..|es| - 1]), es[|es| - 1], x.key)
    requires InOrderOfUse(cacheSize, es, m)
    requires forall y :: y in m ==> !UsesKey(After(cacheSize, es[..|es| - 1]), es[|es| - 1], y.key)
    ensures InOrderOfUse(cacheSize, es, m + [x])
  {
    hide After, UsesKey, LastUse;
    var all := m + [x];
    UseNext(cacheSize, es, x.key);
    forall i, j | 0 <= i < j < |all| ensures LastUse(cacheSize, es, all[i].key) < LastUse(cacheSize, es, all[j].key) {
      if j == |m| {
        assert m[i] in m;
        UseNext(cacheSize, es, m[i].key);
      }
    }
  }

  lemma OrderInserted<R>(cacheSize: nat, es: seq<Event<R>>, c: Cache<R>, id: string, h: R)
    requires es != [] && UsesKey(After(cacheSize, es[..|es| - 1]), es[|es| - 1], id)
    requires InOrderOfUse(cacheSize, es, c.entries)
    requires forall y :: y in c.entries ==> !UsesKey(After(cacheSize, es[..|es| - 1]), es[|es| - 1], y.key)
    ensures InOrderOfUse(cacheSize, es, Insert(c, cacheSize, id, h).entries)
  {
    OrderWithNew(cacheSize, es, c.entries, Entry(id, h));
    hide LastUse, UsesKey, After;
  }

  lemma OrderTouched<R>(cacheSize: nat, es: seq<Event<R>>, m: seq<Entry<R>>, id: string)
    requires es != [] && DistinctKeys(m) && HasKey(m, id)
    requires UsesKey(After(cacheSize, es[..|es| - 1]), es[|es| - 1], id)
    requires InOrderOfUse(cacheSize, es[..|es| - 1], m)
    requires forall y :: y in m && y.key != id ==> !UsesKey(After(cacheSize, es[..|es| - 1]), es[|es| - 1], y.key)
    ensures InOrderOfUse(cacheSize, es, Touched(m, id))
  {
    var i := IndexOf(m, id);
    var rest := m[..i] + m[i + 1..];
    assert Touched(m, id) == rest + [m[i]] && m[i].key == id;
    hide After, LastUse, UsesKey, HasKey, IndexOf, Touched, InOrderOfUse;
    RestParts(m, i);
    RestStays(cacheSize, es, m, i);
    OrderWithNew(cacheSize, es, rest, m[i]);
  }

  lemma RestParts<R>(m: seq<Entry<R>>, i: nat)
    requires DistinctKeys(m) && i < |m|
    ensures forall y :: y in m[..i] + m[i + 1..] ==> y in m && y.key != m[i].key
  {
    var rest := m[..i] + m[i + 1..];
    forall y | y in rest ensures y in m && y.key != m[i].key {
      var x :| 0 <= x < |rest| && rest[x] == y;
      assert y == m[if x < i then x else x + 1];
    }
  }

  /** The other entries are still in their order. */
  lemma RestStays<R>(cacheSize: nat, es: seq<Event<R>>, m: seq<Entry<R>>, i: nat)
    requires es != [] && i < |m| && InOrderOfUse(cacheSize, es[..|es| - 1], m)
    requires forall y :: y in m[..i] + m[i + 1..] ==> !UsesKey(After(cacheSize, es[..|es| - 1]), es[|es| - 1], y.key)
    ensures InOrderOfUse(cacheSize, es, m[..i] + m[i + 1..])
  {
    hide After, LastUse, UsesKey;
    var rest := m[..i] + m[i + 1..];
    forall x, y | 0 <= x < y < |rest|
      ensures LastUse(cacheSize, es, rest[x].key) < LastUse(cacheSize, es, rest[y].key)
    {
      assert rest[x] in rest && rest[y] in rest;
      var a, b := if x < i then x else x + 1, if y < i then y else y + 1;
      assert rest[x] == m[a] && rest[y] == m[b];
      TwoStay(cacheSize, es, m, a, b);
    }
  }

  lemma TwoStay<R>(cacheSize: nat, es: seq<Event<R>>, m: seq<Entry<R>>, a: nat, b: nat)
    requires es != [] && a < b < |m| && InOrderOfUse(cacheSize, es[..|es| - 1], m)
    requires !UsesKey(After(cacheSize, es[..|es| - 1]), es[|es| - 1], m[a].key)
    requires !UsesKey(After(cacheSize, es[..|es| - 1]), es[|es| - 1], m[b].key)
    ensures LastUse(cacheSize, es, m[a].key) < LastUse(cacheSize, es, m[b].key)
  {
    hide After, LastUse, UsesKey;
    UseNext(cacheSize, es, m[a].key);
    UseNext(cacheSize, es, m[b].key);
  }

  lemma NotUsed<R>(c: Cache<R>, e: Event<R>)
    ensures forall y :: y in c.entries && (e.Load? ==> y.key != e.id) ==> !UsesKey(c, e, y.key)
  {
    forall y | y in c.entries && (e.Load? ==> y.key != e.id) ensures !UsesKey(c, e, y.key) {
      var i :| 0 <= i < |c.entries| && c.entries[i] == y;
      assert HasKey(c.entries, y.key);
    }
  }

  /** Over every run the entries stand in the order in which their keys were last inserted or loaded. */
  lemma {:induction false} EntriesInOrderOfUse<R>(cacheSize: nat, es: seq<Event<R>>)
    ensures InOrderOfUse(cacheSize, es, After(cacheSize, es).entries)
    decreases |es|
  {
    if es != [] {
      var before, e := es[..|es| - 1], es[|es| - 1];
      var c := After(cacheSize, before);
      EntriesInOrderOfUse(cacheSize, before);
      InvAfter(cacheSize, before);
      AfterNext(cacheSize, es);
      NotUsed(c, e);
      if e.Load? && HasKey(c.entries, e.id) {
        hide After, InOrderOfUse, Touched, Insert;
        OrderTouched(cacheSize, es, c.entries, e.id);
      } else {
        NotLoaded(c, e);
        hide After, InOrderOfUse, Touched, Insert;
        OrderStays(cacheSize, es);
        OrderAdded(cacheSize, es, c, e);
      }
    }
  }

  lemma NotLoaded<R>(c: Cache<R>, e: Event<R>)
    requires !(e.Load? && HasKey(c.entries, e.id))
    ensures forall y :: y in c.entries ==> !UsesKey(c, e, y.key)
  {
    forall y | y in c.entries ensures !UsesKey(c, e, y.key) {
      var i :| 0 <= i < |c.entries| && c.entries[i] == y;
      assert HasKey(c.entries, y.key);
    }
  }

  lemma OrderAdded<R>(cacheSize: nat, es: seq<Event<R>>, c: Cache<R>, e: Event<R>)
    requires es != [] && c == After(cacheSize, es[..|es| - 1]) && e == es[|es| - 1]
    requires InOrderOfUse(cacheSize, es, c.entries) && !(e.Load? && HasKey(c.entries, e.id))
    requires forall y :: y in c.entries ==> !UsesKey(c, e, y.key)
    ensures InOrderOfUse(cacheSize, es, Step(c, cacheSize, e).entries)
  {
    hide After, InOrderOfUse, Insert;
    match e {
      case Execute(id, h, _) =>
        if !HasKey(c.entries, id) {
          OrderInserted(cacheSize, es, if h in c.statuses then c else Know(c, h, READY), id, h);
        }
      case Load(id, stored, status) =>
        if stored.Some? { OrderInserted(cacheSize, es, Know(c, stored.value, status), id, stored.value); }
      case Change(_, _) =>
    }
  }

  /** Over every run: what is evicted is the entry whose key was inserted or loaded the longest ago. */
  lemma {:induction false} EvictsLeastRecent<R>(cacheSize: nat, es: seq<Event<R>>, e: Event<R>, x: Entry<R>)
    requires cacheSize > 0 && Evicted(After(cacheSize, es), cacheSize, e, x)
    ensures x in After(cacheSize, es).entries && |After(cacheSize, es).entries| >= cacheSize
    ensures forall y :: y in After(cacheSize, es).entries && y != x ==>
              LastUse(cacheSize, es, x.key) < LastUse(cacheSize, es, y.key)
  {
    var m := After(cacheSize, es).entries;
    InvAfter(cacheSize, es);
    EntriesInOrderOfUse(cacheSize, es);
    EvictsEldest(After(cacheSize, es), cacheSize, e, x);
    hide After, LastUse, Step;
    forall y | y in m && y != x ensures LastUse(cacheSize, es, x.key) < LastUse(cacheSize, es, y.key) {
      var i :| 0 <= i < |m| && m[i] == y;
    }
  }

  /** Loading a cached id makes its entry the youngest and leaves the others in their order. */
  lemma {:induction false} HitIsYoungest<R>(c: Cache<R>, cacheSize: nat, i: nat, stored: Option<R>, status: Status)
    requires DistinctKeys(c.entries) && i < |c.entries|
    ensures var t := Step(c, cacheSize, Event.Load(c.entries[i].key, stored, status));
            && t.entries == c.entries[..i] + c.entries[i + 1..] + [c.entries[i]]
            && t.statuses == c.statuses
    ensures LoadResult(c, c.entries[i].key, stored) == Some(c.entries[i].holder)
  {
    HitAt(c.entries, i);
    hide Touched;
  }

  lemma UniqueKey<R>(m: seq<Entry<R>>, i: nat, j: nat)
    requires DistinctKeys(m) && i < |m| && j < |m| && m[i].key == m[j].key
    ensures i == j
  {
  }

  lemma HitAt<R>(m: seq<Entry<R>>, i: nat)
    requires DistinctKeys(m) && i < |m|
    ensures HasKey(m, m[i].key) && IndexOf(m, m[i].key) == i
    ensures Touched(m, m[i].key) == m[..i] + m[i + 1..] + [m[i]]
  {
    assert HasKey(m, m[i].key);
    var x := IndexOf(m, m[i].key);
    hide IndexOf, HasKey;
    UniqueKey(m, i, x);
    assert Without(m, m[i].key) == m[..i] + m[i + 1..];
  }

  /** Two flows are cached, the elder is loaded, and a third comes in: the one not loaded goes. */
  lemma {:induction false} LoadedStays<R>(a: string, b: string, d: string, x: R, y: R, z: R)
    requires a != b && a != d && b != d && x != z && y != z && x != y
    ensures var es := [Execute(a, x, SUCCEEDED), Execute(b, y, SUCCEEDED),
                       Event.Load(a, None, READY), Event.Load(d, Some(z), SUCCEEDED)];
            After(2, es).entries == [Entry(a, x), Entry(d, z)]
  {
    hide Step, After;
    var e1: Event<R>, e2: Event<R> := Execute(a, x, SUCCEEDED), Execute(b, y, SUCCEEDED);
    var e3: Event<R>, e4: Event<R> := Event.Load(a, None, READY), Event.Load(d, Some(z), SUCCEEDED);
    var es := [e1, e2, e3, e4];
    assert [e1][..0] == [] && [e1, e2][..1] == [e1] && [e1, e2, e3][..2] == [e1, e2] && es[..3] == [e1, e2, e3];
    AfterNone<R>(2);
    AfterNext(2, [e1]);
    AfterNext(2, [e1, e2]);
    AfterNext(2, [e1, e2, e3]);
    AfterNext(2, es);
    FourSteps(a, b, d, x, y, z);
  }

  lemma FourSteps<R>(a: string, b: string, d: string, x: R, y: R, z: R)
    requires a != b && a != d && b != d && x != z && y != z && x != y
    ensures var c1 := Step(Empty<R>(), 2, Execute(a, x, SUCCEEDED)); var c2 := Step(c1, 2, Execute(b, y, SUCCEEDED));
            var c3 := Step(c2, 2, Event.Load(a, None, READY));
            Step(c3, 2, Event.Load(d, Some(z), SUCCEEDED)).entries == [Entry(a, x), Entry(d, z)]
  {
    hide Step;
    var c1 := Cache([Entry(a, x)], map[x := SUCCEEDED]);
    var c2 := Cache([Entry(a, x), Entry(b, y)], map[x := SUCCEEDED, y := SUCCEEDED]);
    FirstTwo(a, b, x, y);
    HitIsYoungest(c2, 2, 0, None, READY);
    var c3 := c2.(entries := [Entry(b, y), Entry(a, x)]);
    assert c2.entries[..0] + c2.entries[1..] + [c2.entries[0]] == c3.entries;
    assert Step(c2, 2, Event.Load(a, None, READY)) == c3;
    ThirdIn(c3, b, a, d, z);
  }

  lemma FirstTwo<R>(a: string, b: string, x: R, y: R)
    requires a != b && x != y
    ensures var c1 := Step(Empty<R>(), 2, Execute(a, x, SUCCEEDED));
            Step(c1, 2, Execute(b, y, SUCCEEDED)) ==
              Cache([Entry(a, x), Entry(b, y)], map[x := SUCCEEDED, y := SUCCEEDED])
  {
    var c1 := Cache([Entry(a, x)], map[x := SUCCEEDED]);
    assert Step(Empty<R>(), 2, Execute(a, x, SUCCEEDED)) == c1;
    assert !HasKey(c1.entries, b);
  }

  lemma ThirdIn<R>(c: Cache<R>, b: string, a: string, d: string, z: R)
    requires |c.entries| == 2 && c.entries[0].key == b && c.entries[1].key == a && a != d && b != d
    requires !Running(c, c.entries[0].holder) && c.entries[0].holder != z
    ensures Step(c, 2, Event.Load(d, Some(z), SUCCEEDED)).entries == [c.entries[1], Entry(d, z)]
  {
    assert !HasKey(c.entries, d);
  }

  /** The keys are the ids of the flows, given that the base manager stores a flow under its own id. */
  ghost predicate Faithful<R>(ids: map<R, string>, e: Event<R>) {
    match e
    case Execute(id, h, _) => h in ids && ids[h] == id
    case Load(id, stored, _) => stored.Some? ==> stored.value in ids && ids[stored.value] == id
    case Change(_, _) => true
  }

  ghost predicate Keyed<R>(ids: map<R, string>, c: Cache<R>) {
    forall x :: x in c.entries ==> x.holder in ids && ids[x.holder] == x.key
  }

  lemma InsertKeyed<R>(ids: map<R, string>, c: Cache<R>, cacheSize: nat, id: string, h: R)
    requires Keyed(ids, c) && h in ids && ids[h] == id
    ensures Keyed(ids, Insert(c, cacheSize, id, h))
  {
    var m := c.entries + [Entry(id, h)];
    assert forall x :: x in m[1..] ==> x in m;
    assert forall x :: x in m ==> x in c.entries || x == Entry(id, h);
  }

  lemma StepKeyed<R>(ids: map<R, string>, c: Cache<R>, cacheSize: nat, e: Event<R>)
    requires Keyed(ids, c) && Faithful(ids, e)
    ensures Keyed(ids, Step(c, cacheSize, e))
  {
    hide Insert, Touched;
    match e {
      case Execute(id, h, status) =>
        var d := if h in c.statuses then c else Know(c, h, READY);
        assert Keyed(ids, d);
        InsertKeyed(ids, d, cacheSize, id, h);
      case Load(id, stored, status) =>
        TouchedSame(c.entries, id);
        assert Keyed(ids, c.(entries := Touched(c.entries, id)));
        if stored.Some? {
          assert Keyed(ids, Know(c, stored.value, status));
          InsertKeyed(ids, Know(c, stored.value, status), cacheSize, id, stored.value);
        }
      case Change(h, status) =>
    }
  }

  lemma {:induction false} KeysAreIds<R>(ids: map<R, string>, cacheSize: nat, es: seq<Event<R>>)
    requires forall i :: 0 <= i < |es| ==> Faithful(ids, es[i])
    ensures Keyed(ids, After(cacheSize, es))
    decreases |es|
  {
    if es != [] {
      hide Keyed, Faithful, Step;
      KeysAreIds(ids, cacheSize, es[..|es| - 1]);
      StepKeyed(ids, After(cacheSize, es[..|es| - 1]), cacheSize, es[|es| - 1]);
    }
  }

  lemma StepPins<R>(c: Cache<R>, cacheSize: nat, e: Event<R>, x: Entry<R>)
    requires DistinctKeys(c.entries) && cacheSize > 0 && x in c.entries && Running(c, x.holder)
    requires e.Load? && e.stored.Some? && !HasKey(c.entries, e.id) ==> e.stored.value != x.holder
    ensures x in Step(c, cacheSize, e).entries
  {
    if Evicted(c, cacheSize, e, x) {
      EvictsEldest(c, cacheSize, e, x);
    }
  }

  /** The base manager builds a new holder each time it loads one. */
  ghost predicate NewHolder<R>(c: Cache<R>, e: Event<R>) {
    e.Load? && e.stored.Some? ==> forall x :: x in c.entries ==> x.holder != e.stored.value
  }

  /** As long as a cached flow keeps running it stays cached, and loading its id returns this holder
      and no other. */
  lemma {:induction false} RunningIsPinned<R>(cacheSize: nat, es: seq<Event<R>>, n: nat, x: Entry<R>, stored: Option<R>)
    requires cacheSize > 0 && n <= |es| && x in After(cacheSize, es[..n]).entries
    requires forall i {:trigger es[..i]} :: n <= i < |es| ==>
               Running(After(cacheSize, es[..i]), x.holder) && NewHolder(After(cacheSize, es[..i]), es[i])
    ensures x in After(cacheSize, es).entries && LoadResult(After(cacheSize, es), x.key, stored) == Some(x.holder)
    decreases |es|
  {
    hide After, Step, LoadResult;
    InvAfter(cacheSize, es);
    if n == |es| {
      assert es[..n] == es;
    } else {
      AfterNext(cacheSize, es);
      var before := es[..|es| - 1];
      forall i | n <= i < |before|
        ensures Running(After(cacheSize, before[..i]), x.holder) && NewHolder(After(cacheSize, before[..i]), before[i])
      {
        assert before[..i] == es[..i];
      }
      assert before[..n] == es[..n] && es[..|es| - 1] == before;
      RunningIsPinned(cacheSize, before, n, x, stored);
      InvAfter(cacheSize, before);
      StepPins(After(cacheSize, before), cacheSize, es[|es| - 1], x);
    }
    LoadFinds(After(cacheSize, es), x, stored);
  }

  lemma LoadFinds<R>(c: Cache<R>, x: Entry<R>, stored: Option<R>)
    requires DistinctKeys(c.entries) && x in c.entries
    ensures LoadResult(c, x.key, stored) == Some(x.holder)
  {
    var i :| 0 <= i < |c.entries| && c.entries[i] == x;
    assert c.entries[IndexOf(c.entries, x.key)].key == c.entries[i].key;
  }

  // ---- The manager object ----

  /** A holder with the flow it holds. */
  class FlowExecutionHolder {
    const id: string
    var status: Status

    constructor (id: string, status: Status)
      ensures this.id == id && this.status == status
    {
      this.id, this.status := id, status;
    }
  }

  datatype Addition = Added | AlreadyExisted

  class CachingFlowManager {
    const cacheSize: nat
    var flowCache: seq<Entry<FlowExecutionHolder>>
    ghost var known: set<FlowExecutionHolder>

    ghost function View(): Cache<FlowExecutionHolder>
      reads this, known
    {
      Cache(flowCache, map h | h in known :: h.status)
    }

    /** Every cached holder is known. */
    ghost predicate Valid()
      reads this
    {
      forall x :: x in flowCache ==> x.holder in known
    }

    constructor (cacheSize: nat)
      ensures View() == Empty() && Valid() && this.cacheSize == cacheSize && known == {}
    {
      this.cacheSize := cacheSize;
      flowCache, known := [], {};
    }

    /** addToCache: the put, and removeEldestEntry after it. An entry that was there already is
        replaced before the exception. */
    method AddToCache(holder: FlowExecutionHolder) returns (r: Addition)
      requires Valid() && holder in known
      modifies this
      ensures Valid() && known == old(known)
      ensures HasKey(old(flowCache), holder.id) <==> r.AlreadyExisted?
      ensures r.Added? ==> View() == Insert(old(View()), cacheSize, holder.id, holder)
      ensures r.AlreadyExisted? ==>
                View() == old(View()).(entries := Without(old(flowCache), holder.id) + [Entry(holder.id, holder)])
    {
      hide Without, HasKey, IndexOf;
      if HasKey(flowCache, holder.id) {
        WithoutKnown(flowCache, holder.id, known);
        flowCache := Without(flowCache, holder.id) + [Entry(holder.id, holder)];
        return AlreadyExisted;
      }
      flowCache := flowCache + [Entry(holder.id, holder)];
      if |flowCache| > cacheSize {
        if flowCache[0].holder.status != RUNNING {
          flowCache := flowCache[1..];
        }
      }
      r := Added;
    }

    /** A wrapped flow is put into the cache unless its id is there. */
    method Admit(holder: FlowExecutionHolder)
      requires Valid() && (holder !in known ==> holder.status == READY)
      modifies this
      ensures Valid() && known == old(known) + {holder}
      ensures View() == Admitted(old(View()), cacheSize, holder.id, holder)
    {
      hide Insert, HasKey;
      ghost var was := View();
      known := known + {holder};
      assert View() == if holder in was.statuses then was else Know(was, holder, READY);
      if !HasKey(flowCache, holder.id) {
        var _ := AddToCache(holder);
      }
    }

    /** execute on a wrapped flow: the cache first, and then the flow. */
    method Execute(holder: FlowExecutionHolder, status: Status)
      requires Valid() && (holder !in known ==> holder.status == READY)
      modifies this, holder
      ensures Valid() && known == old(known) + {holder} && holder.status == status
      ensures View() == ExecuteStep(old(View()), cacheSize, holder.id, holder, status)
    {
      hide Admitted;
      Admit(holder);
      ghost var admitted := View();
      holder.status := status;
      assert View().statuses == admitted.statuses[holder := status];
    }

    /** flowCache.get: an entry that is found becomes the youngest. */
    method Get(id: string) returns (r: Option<FlowExecutionHolder>)
      requires Valid()
      modifies this
      ensures Valid() && known == old(known)
      ensures r.None? <==> !HasKey(old(flowCache), id)
      ensures r.None? ==> flowCache == old(flowCache)
      ensures r.Some? ==> IndexOf(old(flowCache), id) < |old(flowCache)| && flowCache == Touched(old(flowCache), id)
                          && r.value == old(flowCache)[IndexOf(old(flowCache), id)].holder
    {
      hide Touched, HasKey;
      if !HasKey(flowCache, id) {
        return None;
      }
      var i := IndexOf(flowCache, id);
      r := Some(flowCache[i].holder);
      TouchedSame(flowCache, id);
      flowCache := Touched(flowCache, id);
    }

    /** loadExecutableFlow; stored is what the base manager finds under the id. */
    method LoadExecutableFlow(id: string, stored: Option<FlowExecutionHolder>) returns (r: Option<FlowExecutionHolder>)
      requires Valid() && (stored.Some? ==> stored.value.id == id)
      modifies this
      ensures Valid() && r == LoadResult(old(View()), id, stored)
      ensures View() ==
                LoadStep(old(View()), cacheSize, id, stored, if stored.Some? then stored.value.status else READY)
    {
      hide Insert, Touched, HasKey, IndexOf;
      ghost var was := View();
      r := Get(id);
      assert View().statuses == was.statuses;
      if r.Some? || stored.None? {
        return;
      }
      known := known + {stored.value};
      assert View().statuses == was.statuses[stored.value := stored.value.status];
      var _ := AddToCache(stored.value);
      r := stored;
    }
  }

  lemma WithoutKnown(m: seq<Entry<FlowExecutionHolder>>, key: string, known: set<FlowExecutionHolder>)
    requires forall x :: x in m ==> x.holder in known
    ensures forall x :: x in Without(m, key) ==> x.holder in known
  {
  }
}
