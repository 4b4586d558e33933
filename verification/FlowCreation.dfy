/** From flows to executable flows: createExecutableFlow and the overrides map that makes them shared. */
module FlowCreation {
  import opened FlowTypes
  import opened FlowObjects
  import opened FlowRuns
  import opened FlowRestart
  import opened FlowBuilding
  import opened NameOrder
  import opened FlowGraph

  /** The objects behind a name: a lone job, or a job wired to the group of its dependees. */
  datatype Parts =
    | Alone(job: IndividualJobExecutableFlow)
    | Dependent(flow: MultipleDependencyExecutableFlow)

  class Executable {
    const name: Job
    const children: seq<Executable>
    const parts: Parts

    function Objects(): set<object> {
      match parts
      case Alone(j) => {j}
      case Dependent(m) => {m, m.depender, m.actualFlow, m.dependeesGrouping}
    }

    function View(): Flow
      reads Objects()
    {
      match parts
      case Alone(j) => Single(j.View())
      case Dependent(m) => m.View()
    }

    constructor Individual(name: Job)
      ensures this.name == name && children == [] && parts.Alone? && fresh(Objects())
      ensures View() == Single(FRESH)
    {
      this.name, children := name, [];
      var job := new IndividualJobExecutableFlow();
      parts := Alone(job);
    }

    /** The group keeps the dependees sorted by name. */
    constructor MultipleDependency(name: Job, depender: IndividualJobExecutableFlow, dependees: seq<Executable>)
      ensures this.name == name && children == SortByName(dependees) && parts.Dependent?
      ensures parts.flow.depender == depender && parts.flow.Wired() && fresh(Objects() - {depender})
      ensures parts.flow.dependeesGrouping.flows == NamesOf(dependees)
      ensures View() == Multiple(depender.View(), FRESH, FRESH)
    {
      this.name := name;
      children := SortByName(dependees);
      var flow := new MultipleDependencyExecutableFlow(depender, NamesOf(dependees));
      parts := Dependent(flow);
    }
  }

  function NamesOf(es: seq<Executable>): (names: seq<Job>)
    ensures |names| == |es| && forall i :: 0 <= i < |es| ==> names[i] == es[i].name
  {
    if es == [] then [] else [es[0].name] + NamesOf(es[1..])
  }

  function InsertByName(e: Executable, es: seq<Executable>): seq<Executable> {
    if es == [] || NotAfter(e.name, es[0].name) then [e] + es
    else [es[0]] + InsertByName(e, es[1..])
  }

  function SortByName(es: seq<Executable>): seq<Executable> {
    if es == [] then [] else InsertByName(es[0], SortByName(es[1..]))
  }

  lemma {:induction false} InsertNames(e: Executable, es: seq<Executable>)
    ensures NamesOf(InsertByName(e, es)) == Insert(e.name, NamesOf(es))
    ensures multiset(InsertByName(e, es)) == multiset(es) + multiset{e}
  {
    if es != [] {
      InsertNames(e, es[1..]);
      assert NamesOf(es)[1..] == NamesOf(es[1..]);
      assert es == [es[0]] + es[1..];
      if !NotAfter(e.name, es[0].name) {
        assert InsertByName(e, es)[1..] == InsertByName(e, es[1..]);
      } else {
        assert InsertByName(e, es)[1..] == es;
      }
    }
  }

  lemma {:induction false} SortNames(es: seq<Executable>)
    ensures NamesOf(SortByName(es)) == Sort(NamesOf(es)) && multiset(SortByName(es)) == multiset(es)
  {
    if es != [] {
      SortNames(es[1..]);
      InsertNames(es[0], SortByName(es[1..]));
      assert es == [es[0]] + es[1..];
      assert NamesOf(es)[1..] == NamesOf(es[1..]);
    }
  }

  lemma {:induction false} SortByNameIsIdle(es: seq<Executable>)
    requires Sorted(NamesOf(es))
    ensures SortByName(es) == es
  {
    if es != [] {
      forall i | 0 < i < |es[1..]| ensures NotAfter(NamesOf(es[1..])[i - 1], NamesOf(es[1..])[i]) {
        assert NotAfter(NamesOf(es)[i], NamesOf(es)[i + 1]);
      }
      SortByNameIsIdle(es[1..]);
      assert |es| > 1 ==> NotAfter(NamesOf(es)[0], NamesOf(es)[1]);
      assert es == [es[0]] + es[1..];
    }
  }

  // ---- What the overrides map holds ----

  /** The executable is the one the graph asks for, and its children are the shared ones. */
  ghost predicate Linked(g: Graph, overrides: map<Job, Executable>, e: Executable) {
    && e.name in g.deps && (e.parts.Alone? <==> g.deps[e.name] == []) && (e.parts.Dependent? ==> e.parts.flow.Wired())
    && NamesOf(e.children) == Sort(g.deps[e.name])
    && forall c :: c in e.children ==> c.name in overrides && overrides[c.name] == c
  }

  ghost predicate Wired(g: Graph, overrides: map<Job, Executable>) {
    forall k {:trigger overrides[k]} :: k in overrides ==> overrides[k].name == k && Linked(g, overrides, overrides[k])
  }

  function FreshFlow(e: Executable): Flow {
    if e.parts.Alone? then Single(FRESH) else Multiple(FRESH, FRESH, FRESH)
  }

  ghost predicate AllFresh(overrides: map<Job, Executable>)
    reads set k, o | k in overrides && o in overrides[k].Objects() :: o
  {
    forall k {:trigger overrides[k]} :: k in overrides ==> overrides[k].View() == FreshFlow(overrides[k])
  }

  /** No object works for two names. */
  ghost predicate Apart(overrides: map<Job, Executable>) {
    forall j, k {:trigger overrides[j], overrides[k]} :: j in overrides && k in overrides && j != k ==>
      overrides[j].Objects() !! overrides[k].Objects()
  }

  lemma ApartAdds(overrides: map<Job, Executable>, e: Executable)
    requires Apart(overrides) && forall k :: k in overrides ==> overrides[k].Objects() !! e.Objects()
    ensures Apart(overrides[e.name := e])
  {
  }

  /** Names are wired to the shared objects of other names, in their first state. */
  ghost predicate Consistent(g: Graph, overrides: map<Job, Executable>)
    reads set k, o | k in overrides && o in overrides[k].Objects() :: o
  {
    Wired(g, overrides) && AllFresh(overrides) && Apart(overrides)
  }

  lemma Installs(g: Graph, overrides: map<Job, Executable>, e: Executable)
    requires Consistent(g, overrides) && e.name !in overrides && Linked(g, overrides, e) && e.View() == FreshFlow(e)
    requires forall k :: k in overrides ==> overrides[k].Objects() !! e.Objects()
    ensures Consistent(g, overrides[e.name := e])
  {
    WiredAdds(g, overrides, e);
    hide Wired, AllFresh, Apart, Linked;
    FreshAdds(overrides, e);
    ApartAdds(overrides, e);
  }

  lemma SortedMembers(names: seq<Job>)
    ensures forall n :: n in Sort(names) <==> n in names
  {
    SortSorts(names);
    assert forall n :: n in Sort(names) <==> n in multiset(Sort(names));
  }

  lemma WiredIsClosed(g: Graph, overrides: map<Job, Executable>)
    requires Wired(g, overrides)
    ensures ClosedUnder(g, overrides.Keys)
  {
    forall k, i | k in overrides && k in g.deps && 0 <= i < |g.deps[k]| ensures g.deps[k][i] in overrides {
      var e := overrides[k];
      SortedMembers(g.deps[k]);
      assert g.deps[k][i] in NamesOf(e.children);
      var x :| 0 <= x < |e.children| && NamesOf(e.children)[x] == g.deps[k][i];
      assert e.children[x] in e.children;
    }
  }

  /** Wherever an object is reached from an entry by going from parents to children, it is the one
      entry of its name. */
  lemma {:induction false} SameObject(g: Graph, overrides: map<Job, Executable>, path: seq<Executable>)
    requires Wired(g, overrides) && path != [] && path[0].name in overrides && overrides[path[0].name] == path[0]
    requires forall i, j {:trigger path[i], path[j]} :: 0 <= i < j == i + 1 < |path| ==> path[j] in path[i].children
    ensures var e := path[|path| - 1]; e.name in overrides && overrides[e.name] == e
  {
    if |path| > 1 {
      assert path[1] in path[0].children;
      assert overrides[path[0].name] == path[0];
      forall i | 0 < i < |path[1..]| ensures path[1..][i] in path[1..][i - 1].children {
        assert path[i + 1] in path[i + 1 - 1].children;
      }
      SameObject(g, overrides, path[1..]);
    }
  }

  ghost predicate Extends(overrides: map<Job, Executable>, overrides': map<Job, Executable>) {
    forall k :: k in overrides ==> k in overrides' && overrides'[k] == overrides[k]
  }

  /** es are the entries of the first dependencies of k. */
  ghost predicate HeldFirst(g: Graph, k: Job, overrides: map<Job, Executable>, es: seq<Executable>)
    requires k in g.deps
  {
    && |es| <= |g.deps[k]| && NamesOf(es) == g.deps[k][..|es|]
    && forall e :: e in es ==> e.name in overrides && overrides[e.name] == e
  }

  lemma {:induction false} NamesConcat(es: seq<Executable>, e: Executable)
    ensures NamesOf(es + [e]) == NamesOf(es) + [e.name]
  {
  }

  lemma HeldNext(g: Graph, k: Job, overrides: map<Job, Executable>, overrides': map<Job, Executable>,
                 es: seq<Executable>, e: Executable)
    requires k in g.deps && HeldFirst(g, k, overrides, es) && Extends(overrides, overrides') && |es| < |g.deps[k]|
    requires e.name == g.deps[k][|es|] && e.name in overrides' && overrides'[e.name] == e
    ensures HeldFirst(g, k, overrides', es + [e])
  {
    NamesConcat(es, e);
  }

  lemma ChildrenLinked(g: Graph, overrides: map<Job, Executable>, es: seq<Executable>, e: Executable)
    requires e.name in g.deps && HeldFirst(g, e.name, overrides, es) && |es| == |g.deps[e.name]| > 0
    requires e.children == SortByName(SortByName(es)) && e.parts.Dependent? && e.parts.flow.Wired()
    ensures Linked(g, overrides, e)
  {
    hide SortByName, Sort;
    assert g.deps[e.name][..|es|] == g.deps[e.name];
    SortTwice(es);
  }

  /** The group of the flow sorted its children; the group of the executable flow sorts them again. */
  lemma {:induction false} SortTwice(es: seq<Executable>)
    ensures SortByName(SortByName(es)) == SortByName(es) && NamesOf(SortByName(es)) == Sort(NamesOf(es))
    ensures forall c :: c in SortByName(es) <==> c in es
  {
    hide SortByName, NamesOf, Sort, Sorted;
    SortNames(es);
    SortSorts(NamesOf(es));
    SortByNameIsIdle(SortByName(es));
    var sorted := SortByName(es);
    assert forall c :: c in sorted <==> c in multiset(sorted);
    assert forall c :: c in es <==> c in multiset(es);
  }

  lemma LoneLinked(g: Graph, overrides: map<Job, Executable>, e: Executable)
    requires e.name in g.deps && g.deps[e.name] == [] && e.children == [] && e.parts.Alone?
    ensures Linked(g, overrides, e)
  {
  }

  lemma WiredAdds(g: Graph, overrides: map<Job, Executable>, e: Executable)
    requires Wired(g, overrides) && e.name !in overrides && Linked(g, overrides, e)
    ensures Wired(g, overrides[e.name := e])
  {
    hide NamesOf, Sort;
  }

  lemma AlreadyReached(g: Graph, rank: map<Job, nat>, overrides: map<Job, Executable>, k: Job)
    requires g.RankedBy(rank) && k in g.deps && Consistent(g, overrides) && k in overrides
    ensures overrides.Keys == overrides.Keys + ReachSet(g, rank, k) && overrides[k].name == k
  {
    WiredIsClosed(g, overrides);
    ReachStaysIn(g, rank, overrides.Keys, k);
  }

  datatype Outcome = Created(flow: Executable) | AlreadyHasEntry(name: Job)

  ghost predicate Answers(before: map<Job, Executable>, after: map<Job, Executable>, name: Job, r: Outcome) {
    && (r.AlreadyHasEntry? <==> name in before)
    && (r.Created? ==> name in after && after[name] == r.flow && r.flow.name == name)
  }

  /** Nothing was replaced, and exactly what the job reaches was added. */
  ghost predicate Grown(g: Graph, rank: map<Job, nat>, before: map<Job, Executable>, after: map<Job, Executable>,
                        name: Job)
    requires g.RankedBy(rank) && name in g.deps
  {
    Extends(before, after) && after.Keys == before.Keys + ReachSet(g, rank, name)
  }

  /** The overrides map of one instantiation. */
  class Overrides {
    var entries: map<Job, Executable>

    constructor ()
      ensures entries == map[]
    {
      entries := map[];
    }

    /** IndividualJobFlow.createExecutableFlow. */
    method CreateIndividual(name: Job) returns (r: Outcome)
      modifies this
      ensures if name in old(entries) && old(entries)[name].name in old(entries)
              then r == AlreadyHasEntry(old(entries)[name].name) && entries == old(entries)
              else r.Created? && entries == old(entries)[r.flow.name := r.flow]
      ensures name !in old(entries) ==>
                && r.flow.name == name && r.flow.children == [] && r.flow.parts.Alone?
                && fresh(r.flow) && fresh(r.flow.Objects()) && r.flow.View() == Single(FRESH)
    {
      var flow: Executable;
      if name in entries {
        flow := entries[name];
      } else {
        flow := new Executable.Individual(name);
      }
      if flow.name in entries {
        return AlreadyHasEntry(flow.name);
      }
      entries := entries[flow.name := flow];
      return Created(flow);
    }

    /** The depender is created with a map of its own, so that its name stays free for the whole. */
    static method WireDepender(depender: Job, children: seq<Executable>) returns (flow: Executable)
      ensures flow.name == depender && flow.children == SortByName(children) && flow.parts.Dependent?
      ensures flow.parts.flow.Wired()
      ensures fresh(flow) && fresh(flow.Objects()) && flow.View() == Multiple(FRESH, FRESH, FRESH)
    {
      var own := new Overrides();
      var d := own.CreateIndividual(depender);
      flow := new Executable.MultipleDependency(depender, d.flow.parts.job, children);
    }

    /** createExecutableFlow on a flow without dependencies. */
    method CreateAlone(ghost g: Graph, ghost rank: map<Job, nat>, f: JobFlow) returns (r: Outcome)
      requires g.RankedBy(rank) && Describes(g, f) && f.IndividualJobFlow? && Consistent(g, entries)
      modifies this
      ensures Consistent(g, entries) && Grown(g, rank, old(entries), entries, f.name)
      ensures Answers(old(entries), entries, f.name, r)
      ensures forall k :: k in entries && k !in old(entries) ==> fresh(entries[k]) && fresh(entries[k].Objects())
    {
      hide Consistent, Describes, ReachSet, Linked;
      DescribedParts(g, rank, f);
      MapApart(entries, this);
      if f.name in entries { AlreadyReached(g, rank, entries, f.name); }
      r := CreateIndividual(f.name);
      if r.Created? {
        LoneLinked(g, old(entries), r.flow);
        Installs(g, old(entries), r.flow);
      }
    }

    /** MultipleDependencyFlow.createExecutableFlow. */
    method CreateMultiple(ghost g: Graph, ghost rank: map<Job, nat>, f: JobFlow) returns (r: Outcome)
      requires g.RankedBy(rank) && Describes(g, f) && f.MultipleDependencyFlow? && Consistent(g, entries)
      modifies this
      ensures Consistent(g, entries) && Grown(g, rank, old(entries), entries, f.depender)
      ensures Answers(old(entries), entries, f.depender, r)
      ensures forall k :: k in entries && k !in old(entries) ==> fresh(entries[k]) && fresh(entries[k].Objects())
      decreases f, 1
    {
      hide Consistent, Describes, ReachSet, ReachFirst, HeldFirst, SortByName, Linked;
      DescribedParts(g, rank, f);
      if f.depender in entries { AlreadyReached(g, rank, entries, f.depender); }
      var executables := CreateGrouped(g, rank, f);
      if f.depender in entries {
        // The object built around the existing entry is lost in the exception that follows.
        return AlreadyHasEntry(f.depender);
      }
      var flow := InstallDependent(g, f.depender, executables);
      r := Created(flow);
    }

    /** The objects of a dependent job are made around the group's and put under its name. */
    method InstallDependent(ghost g: Graph, depender: Job, executables: seq<Executable>) returns (flow: Executable)
      requires g.Closed() && depender in g.deps && g.deps[depender] != []
      requires Consistent(g, entries) && depender !in entries
      requires HeldFirst(g, depender, entries, executables) && |executables| == |g.deps[depender]|
      modifies this
      ensures Consistent(g, entries) && entries == old(entries)[depender := flow] && flow.name == depender
      ensures fresh(flow) && fresh(flow.Objects())
    {
      hide Consistent, HeldFirst, SortByName, Linked;
      flow := WireDepender(depender, SortByName(executables));
      MapApart(entries, this);
      ChildrenLinked(g, entries, executables, flow);
      Installs(g, entries, flow);
      entries := entries[flow.name := flow];
    }

    /** The exception is raised exactly when the name was there before the call; every job below
        gets one object, new unless it had one already. */
    method CreateExecutableFlow(ghost g: Graph, ghost rank: map<Job, nat>, f: JobFlow) returns (r: Outcome)
      requires g.RankedBy(rank) && Describes(g, f) && Consistent(g, entries)
      modifies this
      ensures Consistent(g, entries) && Grown(g, rank, old(entries), entries, f.Name())
      ensures Answers(old(entries), entries, f.Name(), r)
      ensures forall k :: k in entries && k !in old(entries) ==> fresh(entries[k]) && fresh(entries[k].Objects())
      decreases f, 2
    {
      hide Consistent, Grown, Answers;
      if f.IndividualJobFlow? {
        r := CreateAlone(g, rank, f);
      } else {
        r := CreateMultiple(g, rank, f);
      }
    }

    /** GroupedFlow.createExecutableFlow: existing entries are shared, missing ones created. */
    method CreateGrouped(ghost g: Graph, ghost rank: map<Job, nat>, f: JobFlow) returns (executables: seq<Executable>)
      requires g.RankedBy(rank) && Describes(g, f) && f.MultipleDependencyFlow? && Consistent(g, entries)
      modifies this
      ensures Consistent(g, entries) && Extends(old(entries), entries)
      ensures HeldFirst(g, f.depender, entries, executables) && |executables| == |g.deps[f.depender]|
      ensures entries.Keys == old(entries.Keys) + ReachFirst(g, rank, f.depender, |g.deps[f.depender]|)
      ensures forall k :: k in entries && k !in old(entries) ==> fresh(entries[k]) && fresh(entries[k].Objects())
      decreases f, 0
    {
      hide Consistent, ReachSet, ReachFirst, HeldFirst;
      executables := [];
      NothingHeld(g, rank, f, entries);
      var i := 0;
      while i < |f.dependees|
        invariant i == |executables| <= |f.dependees| && HeldFirst(g, f.depender, entries, executables)
        invariant Consistent(g, entries) && Extends(old(entries), entries)
        invariant entries.Keys == old(entries.Keys) + ReachFirst(g, rank, f.depender, i)
        invariant forall k :: k in entries && k !in old(entries) ==> fresh(entries[k]) && fresh(entries[k].Objects())
      {
        var name := f.dependees[i].Name();
        ghost var before := entries;
        var executable: Executable;
        if name in entries {
          AlreadyReached(g, rank, entries, name);
          executable := entries[name];
        } else {
          var r := CreateExecutableFlow(g, rank, f.dependees[i]);
          executable := r.flow;
        }
        HeldNext(g, f.depender, before, entries, executables, executable);
        executables := executables + [executable];
        ReachNext(g, rank, f.depender, i);
        i := i + 1;
      }
    }
  }

  lemma NothingHeld(g: Graph, rank: map<Job, nat>, f: JobFlow, entries: map<Job, Executable>)
    requires g.RankedBy(rank) && Describes(g, f) && f.MultipleDependencyFlow?
    ensures ReachFirst(g, rank, f.depender, 0) == {} && HeldFirst(g, f.depender, entries, [])
  {
  }

  /** The map object is none of the objects of its entries, so changing it leaves them alone. */
  lemma MapApart(entries: map<Job, Executable>, o: Overrides)
    ensures forall k :: k in entries ==> o !in entries[k].Objects()
  {
  }

  lemma FreshAdds(entries: map<Job, Executable>, e: Executable)
    requires AllFresh(entries) && e.View() == FreshFlow(e)
    ensures AllFresh(entries[e.name := e])
  {
  }

  lemma DescribedParts(g: Graph, rank: map<Job, nat>, f: JobFlow)
    requires g.RankedBy(rank) && Describes(g, f)
    ensures f.Name() in g.deps
    ensures ReachSet(g, rank, f.Name()) == {f.Name()} + ReachFirst(g, rank, f.Name(), |g.deps[f.Name()]|)
    ensures f.IndividualJobFlow? <==> g.deps[f.Name()] == []
    ensures f.IndividualJobFlow? ==> ReachSet(g, rank, f.Name()) == {f.Name()}
    ensures f.Name() !in ReachFirst(g, rank, f.Name(), |g.deps[f.Name()]|)
  {
    var k := f.Name();
    if k in ReachFirst(g, rank, k, |g.deps[k]|) {
      var i :| 0 <= i < |g.deps[k]| && Reaches(g, rank, g.deps[k][i], k);
      ReachGoesDown(g, rank, g.deps[k][i], k);
    }
  }

  // ---- A new instance is what runs start from ----

  /** The graph of an instance, with the dependencies in the order its groups hold them. */
  function HeldGraph(overrides: map<Job, Executable>, root: Job): Graph {
    Graph(map k | k in overrides :: NamesOf(overrides[k].children), root)
  }

  function FlowsOf(overrides: map<Job, Executable>): map<Job, Flow>
    reads set k, o | k in overrides && o in overrides[k].Objects() :: o
  {
    map k | k in overrides :: overrides[k].View()
  }

  lemma HeldChild(g: Graph, overrides: map<Job, Executable>, k: Job, i: nat)
    requires Wired(g, overrides) && k in overrides && i < |overrides[k].children|
    ensures k in g.deps && NamesOf(overrides[k].children)[i] in g.deps[k]
    ensures NamesOf(overrides[k].children)[i] in overrides
  {
    SortedMembers(g.deps[k]);
    assert overrides[k].children[i] in overrides[k].children;
    assert NamesOf(overrides[k].children)[i] in Sort(g.deps[k]);
  }

  lemma HeldNone(names: seq<Job>)
    ensures Sort(names) == [] <==> names == []
  {
    SortSorts(names);
    assert names != [] ==> names[0] in multiset(Sort(names));
  }

  lemma HeldRanked(g: Graph, rank: map<Job, nat>, overrides: map<Job, Executable>, root: Job)
    requires g.RankedBy(rank) && Consistent(g, overrides) && root in overrides
    ensures HeldGraph(overrides, root).RankedBy(rank)
  {
    var h := HeldGraph(overrides, root);
    forall k, i | k in h.deps && 0 <= i < |h.deps[k]| ensures h.deps[k][i] in h.deps && rank[h.deps[k][i]] < rank[k] {
      HeldChild(g, overrides, k, i);
    }
  }

  lemma HeldFresh(g: Graph, overrides: map<Job, Executable>, root: Job)
    requires Consistent(g, overrides) && root in overrides
    ensures var h, flows := HeldGraph(overrides, root), FlowsOf(overrides);
            && flows.Keys == h.deps.Keys
            && forall k :: k in flows ==> FreshOrMarked(flows[k]) && (flows[k].Single? <==> h.deps[k] == [])
  {
    var h, flows := HeldGraph(overrides, root), FlowsOf(overrides);
    forall k | k in flows ensures FreshOrMarked(flows[k]) && (flows[k].Single? <==> h.deps[k] == []) {
      HeldNone(g.deps[k]);
      assert overrides[k].View() == FreshFlow(overrides[k]);
    }
  }

  /** What createExecutableFlow makes is acyclic and can be executed with any props. */
  lemma {:induction false} InstanceIsStartable(g: Graph, rank: map<Job, nat>, overrides: map<Job, Executable>,
                                               root: Job, p: PropMap)
    requires g.RankedBy(rank) && Consistent(g, overrides) && root in overrides
    ensures HeldGraph(overrides, root).RankedBy(rank)
    ensures Startable(HeldGraph(overrides, root), p, FlowsOf(overrides))
  {
    hide Startable, HeldGraph, FlowsOf, Consistent;
    HeldRanked(g, rank, overrides, root);
    HeldFresh(g, overrides, root);
    FreshIsStartable(HeldGraph(overrides, root), p, FlowsOf(overrides));
  }
}
