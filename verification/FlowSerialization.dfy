/** Serialising an executable flow: the jobs, root and dependencies maps of the serializers. */
module FlowSerialization {
  import opened FlowTypes
  import opened FlowObjects
  import opened FlowRestart
  import opened FlowBuilding
  import opened FlowCreation
  import opened NameOrder
  import opened Sequences
  import opened FlowGraph

  datatype JobInfo = JobInfo(name: Job, status: Status, overrideProps: Option<PropMap>, returnProps: Option<PropMap>)

  datatype Serialized = Serialized(jobs: map<Job, JobInfo>, root: seq<Job>, dependencies: map<Job, set<Job>>)

  type Dependencies = map<Job, set<Job>>

  // ---- What merging means ----

  function At(m: Dependencies, k: Job): set<Job> {
    if k in m then m[k] else {}
  }

  /** Entries of either map, with the sets of common keys united. */
  function Union(a: Dependencies, b: Dependencies): Dependencies {
    map k | k in a.Keys + b.Keys :: At(a, k) + At(b, k)
  }

  /** Every depender root depends on every dependee root. */
  function CrossRoots(keys: seq<Job>, roots: seq<Job>): Dependencies {
    map k | k in keys :: Members(roots)
  }

  /** The first map that has a job decides. */
  function JobsOf(parts: seq<Serialized>): map<Job, JobInfo> {
    if parts == [] then map[] else parts[|parts| - 1].jobs + JobsOf(parts[..|parts| - 1])
  }

  function RootsOf(parts: seq<Serialized>): seq<Job> {
    if parts == [] then [] else RootsOf(parts[..|parts| - 1]) + parts[|parts| - 1].root
  }

  function DependenciesOf(parts: seq<Serialized>): Dependencies {
    if parts == [] then map[] else Union(DependenciesOf(parts[..|parts| - 1]), parts[|parts| - 1].dependencies)
  }

  lemma UnionNone(a: Dependencies)
    ensures Union(a, map[]) == a
  {
    var r := Union(a, map[]);
    forall k | k in a ensures k in r && r[k] == a[k] {
      assert a[k] + {} == a[k];
    }
  }

  lemma NoneUnion(a: Dependencies)
    ensures Union(map[], a) == a
  {
    var r := Union(map[], a);
    forall k | k in a ensures k in r && r[k] == a[k] {
      assert {} + a[k] == a[k];
    }
  }

  lemma UnionEmpty(a: Dependencies)
    ensures Union(a, map[]) == a && Union(map[], a) == a
  {
    hide Union;
    UnionNone(a);
    NoneUnion(a);
  }

  lemma UnionPut(a: Dependencies, b: Dependencies, key: Job, added: set<Job>)
    ensures Union(a, b[key := At(b, key) + added]) == Union(a, b)[key := At(Union(a, b), key) + added]
  {
    var l, r := Union(a, b[key := At(b, key) + added]), Union(a, b)[key := At(Union(a, b), key) + added];
    assert l.Keys == r.Keys;
    forall k | k in l ensures l[k] == r[k] {
      if k != key { assert At(b[key := At(b, key) + added], k) == At(b, k); }
    }
  }

  function Without(m: Dependencies, keys: set<Job>): Dependencies {
    map k | k in m && k !in keys :: m[k]
  }

  lemma CrossNext(keys: seq<Job>, roots: seq<Job>, i: nat)
    requires i < |keys|
    ensures CrossRoots(keys[..i + 1], roots) ==
              CrossRoots(keys[..i], roots)[keys[i] := At(CrossRoots(keys[..i], roots), keys[i]) + Members(roots)]
  {
    var l, m := CrossRoots(keys[..i + 1], roots), CrossRoots(keys[..i], roots);
    var r := m[keys[i] := At(m, keys[i]) + Members(roots)];
    assert keys[..i + 1] == keys[..i] + [keys[i]];
    assert l.Keys == r.Keys;
    assert r[keys[i]] == Members(roots);
  }

  // ---- The loops ----

  /** Adds the entries that are missing. */
  method AddMissing(into: map<Job, JobInfo>, from: map<Job, JobInfo>) returns (m: map<Job, JobInfo>)
    ensures m == from + into
  {
    m := into;
    var keys := from.Keys;
    while keys != {}
      invariant keys <= from.Keys
      invariant m == (map k | k in from && k !in keys :: from[k]) + into
      decreases keys
    {
      var key :| key in keys;
      if key !in m {
        m := m[key := from[key]];
      }
      keys := keys - {key};
    }
  }

  /** Adds the entries, uniting the sets where both maps have a key. */
  method AddDependencies(into: Dependencies, from: Dependencies) returns (m: Dependencies)
    ensures m == Union(into, from)
  {
    m := into;
    var keys := from.Keys;
    hide Union;
    UnionEmpty(into);
    assert Without(from, from.Keys) == map[];
    while keys != {}
      invariant keys <= from.Keys
      invariant m == Union(into, Without(from, keys))
      decreases keys
    {
      var key :| key in keys;
      UnionPut(into, Without(from, keys), key, from[key]);
      assert {} + from[key] == from[key];
      assert Without(from, keys - {key}) == Without(from, keys)[key := At(Without(from, keys), key) + from[key]];
      if key in m {
        m := m[key := m[key] + from[key]];
      } else {
        m := m[key := from[key]];
      }
      keys := keys - {key};
    }
    assert Without(from, {}) == from;
  }

  /** IndividualJobEFSerializer.apply. */
  method SerializeIndividual(name: Job, job: IndividualJobExecutableFlow) returns (s: Serialized)
    ensures s == Serialized(map[name := JobInfo(name, job.jobState, job.parentProps, job.returnProps)], [name], map[])
  {
    s := Serialized(map[name := JobInfo(name, job.jobState, job.parentProps, job.returnProps)], [name], map[]);
  }

  function InfoOf(name: Job, job: IndividualJobExecutableFlow): JobInfo
    reads job
  {
    JobInfo(name, job.jobState, job.parentProps, job.returnProps)
  }

  lemma NothingMerged()
    ensures JobsOf([]) == map[] && RootsOf([]) == [] && DependenciesOf([]) == map[]
  {
  }

  lemma PartsNext(parts: seq<Serialized>, i: nat)
    requires i < |parts|
    ensures JobsOf(parts[..i + 1]) == parts[i].jobs + JobsOf(parts[..i])
    ensures RootsOf(parts[..i + 1]) == RootsOf(parts[..i]) + parts[i].root
    ensures DependenciesOf(parts[..i + 1]) == Union(DependenciesOf(parts[..i]), parts[i].dependencies)
  {
    assert parts[..i + 1][..i] == parts[..i];
    hide Union;
  }

  /** GroupedEFSerializer.apply, after the children have been serialised. */
  method SerializeGrouped(parts: seq<Serialized>) returns (s: Serialized)
    ensures s == Serialized(JobsOf(parts), RootsOf(parts), DependenciesOf(parts))
  {
    assert parts[..0] == [] && parts[..|parts|] == parts;
    NothingMerged();
    hide JobsOf, RootsOf, DependenciesOf, Union;
    var jobs: map<Job, JobInfo> := map[];
    var i := 0;
    while i < |parts|
      invariant i <= |parts| && jobs == JobsOf(parts[..i])
    {
      PartsNext(parts, i);
      jobs := AddMissing(jobs, parts[i].jobs);
      i := i + 1;
    }
    var root: seq<Job> := [];
    i := 0;
    while i < |parts|
      invariant i <= |parts| && root == RootsOf(parts[..i])
    {
      PartsNext(parts, i);
      root := root + parts[i].root;
      i := i + 1;
    }
    var dependencies: Dependencies := map[];
    i := 0;
    while i < |parts|
      invariant i <= |parts| && dependencies == DependenciesOf(parts[..i])
    {
      PartsNext(parts, i);
      dependencies := AddDependencies(dependencies, parts[i].dependencies);
      i := i + 1;
    }
    s := Serialized(jobs, root, dependencies);
  }

  /** Every one of the keys is made to depend on every one of the roots. */
  method CrossAll(before: Dependencies, keys: seq<Job>, roots: seq<Job>) returns (dependencies: Dependencies)
    ensures dependencies == Union(before, CrossRoots(keys, roots))
  {
    hide Union;
    UnionEmpty(before);
    assert CrossRoots(keys[..0], roots) == map[];
    dependencies := before;
    var i := 0;
    while i < |keys|
      invariant i <= |keys|
      invariant dependencies == Union(before, CrossRoots(keys[..i], roots))
    {
      var key := keys[i];
      var names := Members(roots);
      CrossNext(keys, roots, i);
      UnionPut(before, CrossRoots(keys[..i], roots), key, names);
      assert {} + names == names && At(dependencies, key) + names == names + At(dependencies, key);
      if key in dependencies {
        dependencies := dependencies[key := names + dependencies[key]];
      } else {
        dependencies := dependencies[key := names];
      }
      i := i + 1;
    }
    assert keys[..|keys|] == keys;
  }

  /** ComposedEFSerializer.apply, after both halves have been serialised. */
  method SerializeComposed(dependee: Serialized, depender: Serialized) returns (s: Serialized)
    ensures s.jobs == depender.jobs + dependee.jobs && s.root == depender.root
    ensures s.dependencies ==
              Union(Union(dependee.dependencies, depender.dependencies), CrossRoots(depender.root, dependee.root))
  {
    hide Union, CrossRoots, Members;
    var jobs := AddMissing(map[], dependee.jobs);
    jobs := AddMissing(jobs, depender.jobs);
    var dependencies := AddDependencies(map[], dependee.dependencies);
    dependencies := AddDependencies(dependencies, depender.dependencies);
    UnionEmpty(dependee.dependencies);
    dependencies := CrossAll(dependencies, depender.root, dependee.root);
    s := Serialized(jobs, depender.root, dependencies);
  }

  // ---- What a serialised flow says ----

  function JobOf(e: Executable): IndividualJobExecutableFlow {
    match e.parts
    case Alone(j) => j
    case Dependent(m) => m.actualFlow.depender
  }

  type Infos = map<Job, JobInfo>

  /** What the objects show at this moment. */
  ghost predicate Show(objects: map<Job, Executable>, infos: Infos)
    reads set j | j in objects :: JobOf(objects[j])
  {
    && infos.Keys == objects.Keys
    && forall j {:trigger infos[j]} {:trigger objects[j]} :: j in objects ==> infos[j] == InfoOf(j, JobOf(objects[j]))
  }

  /** The entries of the named jobs. */
  function JobsFor(infos: Infos, names: set<Job>): Infos {
    map j | j in names && j in infos :: infos[j]
  }

  /** The dependencies of the named jobs, as the descriptors give them. */
  function DependenciesFor(g: Graph, names: set<Job>): Dependencies {
    map j | j in names && j in g.deps && g.deps[j] != [] :: Members(g.deps[j])
  }

  ghost function ReachOf(g: Graph, rank: map<Job, nat>, names: seq<Job>): set<Job>
    requires g.RankedBy(rank) && forall n :: n in names ==> n in g.deps
  {
    set j | j in g.deps && exists n :: n in names && Reaches(g, rank, n, j)
  }

  lemma JobsJoin(infos: Infos, a: set<Job>, b: set<Job>)
    ensures JobsFor(infos, a + b) == JobsFor(infos, b) + JobsFor(infos, a)
  {
  }

  lemma DependenciesJoin(g: Graph, a: set<Job>, b: set<Job>)
    ensures DependenciesFor(g, a + b) == Union(DependenciesFor(g, a), DependenciesFor(g, b))
  {
    var l, r := DependenciesFor(g, a + b), Union(DependenciesFor(g, a), DependenciesFor(g, b));
    assert l.Keys == r.Keys;
    forall k | k in l ensures l[k] == r[k] {}
  }

  lemma ReachOfNext(g: Graph, rank: map<Job, nat>, names: seq<Job>, n: Job)
    requires g.RankedBy(rank) && n in g.deps && forall x :: x in names ==> x in g.deps
    ensures ReachOf(g, rank, names + [n]) == ReachOf(g, rank, names) + ReachSet(g, rank, n)
  {
  }

  lemma ReachOfChildren(g: Graph, rank: map<Job, nat>, k: Job)
    requires g.RankedBy(rank) && k in g.deps
    ensures forall n :: n in Sort(g.deps[k]) ==> n in g.deps
    ensures ReachSet(g, rank, k) == {k} + ReachOf(g, rank, Sort(g.deps[k]))
  {
    SortedMembers(g.deps[k]);
    forall j | j in g.deps
      ensures j in ReachSet(g, rank, k) <==> j == k || j in ReachOf(g, rank, Sort(g.deps[k]))
    {
      if Reaches(g, rank, k, j) && j != k {
        var i :| 0 <= i < |g.deps[k]| && Reaches(g, rank, g.deps[k][i], j);
        assert g.deps[k][i] in Sort(g.deps[k]);
      }
      if j in ReachOf(g, rank, Sort(g.deps[k])) {
        var n :| n in Sort(g.deps[k]) && Reaches(g, rank, n, j);
        var i :| 0 <= i < |g.deps[k]| && g.deps[k][i] == n;
        assert Reaches(g, rank, g.deps[k][i], j);
      }
    }
  }

  /** What the serializers return for the flow named k. */
  ghost function SerialOf(g: Graph, rank: map<Job, nat>, infos: Infos, k: Job): Serialized
    requires g.RankedBy(rank) && k in g.deps
  {
    Serialized(JobsFor(infos, ReachSet(g, rank, k)), [k], DependenciesFor(g, ReachSet(g, rank, k)))
  }

  lemma SerialParts(g: Graph, rank: map<Job, nat>, infos: Infos, k: Job)
    requires g.RankedBy(rank) && k in g.deps
    ensures var s := SerialOf(g, rank, infos, k);
            && s.jobs == JobsFor(infos, ReachSet(g, rank, k)) && s.root == [k]
            && s.dependencies == DependenciesFor(g, ReachSet(g, rank, k))
  {
  }

  /** The parts are what the serializers return for the names. */
  ghost predicate PartsFor(g: Graph, rank: map<Job, nat>, infos: Infos, names: seq<Job>, parts: seq<Serialized>)
    requires g.RankedBy(rank) && forall n :: n in names ==> n in g.deps
  {
    && |parts| == |names|
    && forall i {:trigger parts[i]} :: 0 <= i < |parts| ==> parts[i] == SerialOf(g, rank, infos, names[i])
  }

  lemma MergeLast(parts: seq<Serialized>)
    ensures parts == [] ==> JobsOf(parts) == map[] && RootsOf(parts) == [] && DependenciesOf(parts) == map[]
    ensures parts != [] ==>
              var n := |parts| - 1;
              && JobsOf(parts) == parts[n].jobs + JobsOf(parts[..n])
              && RootsOf(parts) == RootsOf(parts[..n]) + parts[n].root
              && DependenciesOf(parts) == Union(DependenciesOf(parts[..n]), parts[n].dependencies)
  {
  }

  /** Merging the parts gives what all the names together reach. */
  lemma {:induction false} PartsMerge(g: Graph, rank: map<Job, nat>, infos: Infos,
                                      names: seq<Job>, parts: seq<Serialized>)
    requires g.RankedBy(rank) && (forall n :: n in names ==> n in g.deps) && PartsFor(g, rank, infos, names, parts)
    ensures JobsOf(parts) == JobsFor(infos, ReachOf(g, rank, names))
    ensures RootsOf(parts) == names
    ensures DependenciesOf(parts) == DependenciesFor(g, ReachOf(g, rank, names))
    decreases |names|
  {
    if names != [] {
      hide SerialOf, JobsFor, DependenciesFor, ReachOf, ReachSet, Union, JobsOf, RootsOf, DependenciesOf;
      var n := |names| - 1;
      PartsMerge(g, rank, infos, names[..n], parts[..n]);
      assert parts[n] == SerialOf(g, rank, infos, names[n]);
      MergeLast(parts);
      assert names == names[..n] + [names[n]];
      OneMore(g, rank, infos, names[..n], names[n]);
    }
  }

  /** One name more, and what it reaches. */
  lemma OneMore(g: Graph, rank: map<Job, nat>, infos: Infos, names: seq<Job>, n: Job)
    requires g.RankedBy(rank) && n in g.deps && forall x :: x in names ==> x in g.deps
    ensures var s := SerialOf(g, rank, infos, n);
            && s.root == [n]
            && s.jobs + JobsFor(infos, ReachOf(g, rank, names)) == JobsFor(infos, ReachOf(g, rank, names + [n]))
            && Union(DependenciesFor(g, ReachOf(g, rank, names)), s.dependencies)
                 == DependenciesFor(g, ReachOf(g, rank, names + [n]))
  {
    hide SerialOf, JobsFor, DependenciesFor, ReachOf, ReachSet, Union;
    ReachOfNext(g, rank, names, n);
    JobsJoin(infos, ReachOf(g, rank, names), ReachSet(g, rank, n));
    DependenciesJoin(g, ReachOf(g, rank, names), ReachSet(g, rank, n));
    SerialParts(g, rank, infos, n);
  }

  // ---- The whole serialiser ----

  lemma LoneSerial(g: Graph, rank: map<Job, nat>, infos: Infos, k: Job, s: Serialized)
    requires g.RankedBy(rank) && k in g.deps && g.deps[k] == [] && k in infos
    requires s == Serialized(map[k := infos[k]], [k], map[])
    ensures s == SerialOf(g, rank, infos, k)
  {
    assert ReachSet(g, rank, k) == {k};
    assert s.jobs == JobsFor(infos, {k});
    assert s.dependencies == DependenciesFor(g, {k});
  }

  /** Laying the depender over its group's parts. */
  lemma ComposedSerial(g: Graph, rank: map<Job, nat>, infos: Infos, k: Job,
                       group: Serialized, own: Serialized, s: Serialized)
    requires g.RankedBy(rank) && k in g.deps && g.deps[k] != [] && k in infos
    requires forall n :: n in Sort(g.deps[k]) ==> n in g.deps
    requires own == Serialized(map[k := infos[k]], [k], map[])
    requires group.root == Sort(g.deps[k])
    requires group.jobs == JobsFor(infos, ReachOf(g, rank, Sort(g.deps[k])))
    requires group.dependencies == DependenciesFor(g, ReachOf(g, rank, Sort(g.deps[k])))
    requires s.jobs == own.jobs + group.jobs && s.root == own.root
    requires s.dependencies == Union(Union(group.dependencies, own.dependencies), CrossRoots(own.root, group.root))
    requires k !in ReachOf(g, rank, Sort(g.deps[k]))
    ensures s == SerialOf(g, rank, infos, k)
  {
    var below := ReachOf(g, rank, Sort(g.deps[k]));
    ReachOfChildren(g, rank, k);
    ComposedDependencies(g, k, below);
    hide ReachOf, ReachSet, Sort, DependenciesFor, Union, CrossRoots;
    UnionEmpty(group.dependencies);
    ComposedJobs(infos, k, below);
    hide JobsFor;
    assert {k} + below == below + {k};
  }

  lemma ComposedJobs(infos: Infos, k: Job, below: set<Job>)
    requires k in infos
    ensures map[k := infos[k]] + JobsFor(infos, below) == JobsFor(infos, below + {k})
  {
    JobsJoin(infos, below, {k});
    assert JobsFor(infos, {k}) == map[k := infos[k]];
  }

  lemma ComposedDependencies(g: Graph, k: Job, below: set<Job>)
    requires k in g.deps && g.deps[k] != []
    ensures Union(DependenciesFor(g, below), CrossRoots([k], Sort(g.deps[k]))) == DependenciesFor(g, below + {k})
  {
    SortedMembers(g.deps[k]);
    assert Members(Sort(g.deps[k])) == Members(g.deps[k]);
    assert DependenciesFor(g, {k}) == CrossRoots([k], Sort(g.deps[k]));
    hide DependenciesFor, CrossRoots, Union, Sort;
    DependenciesJoin(g, below, {k});
  }

  lemma NotBelowItself(g: Graph, rank: map<Job, nat>, k: Job)
    requires g.RankedBy(rank) && k in g.deps
    ensures forall n :: n in Sort(g.deps[k]) ==> n in g.deps && rank[n] < rank[k]
    ensures k !in ReachOf(g, rank, Sort(g.deps[k]))
  {
    SortedMembers(g.deps[k]);
    forall n | n in Sort(g.deps[k]) ensures n in g.deps && rank[n] < rank[k] && !Reaches(g, rank, n, k) {
      assert n in g.deps[k];
      if Reaches(g, rank, n, k) { ReachGoesDown(g, rank, n, k); }
    }
  }

  lemma {:induction false} ReachedIn(g: Graph, rank: map<Job, nat>, objects: map<Job, Executable>, k: Job, j: Job)
    requires g.RankedBy(rank) && Wired(g, objects) && k in objects && k in g.deps && Reaches(g, rank, k, j)
    ensures j in objects
    decreases rank[k]
  {
    hide Wired, Sort;
    WiredIsClosed(g, objects);
    if j != k {
      var i :| 0 <= i < |g.deps[k]| && Reaches(g, rank, g.deps[k][i], j);
      ReachedIn(g, rank, objects, g.deps[k][i], j);
    }
  }

  /** The entries that the serializers return are what the reached objects show. */
  lemma SerialShows(g: Graph, rank: map<Job, nat>, objects: map<Job, Executable>, infos: Infos, k: Job)
    requires g.RankedBy(rank) && Wired(g, objects) && Show(objects, infos) && k in objects && k in g.deps
    ensures var s := SerialOf(g, rank, infos, k);
            && s.jobs.Keys == ReachSet(g, rank, k) && s.root == [k]
            && forall j :: j in s.jobs ==>
                 && j in objects
                 && var job := JobOf(objects[j]);
                    s.jobs[j] == JobInfo(j, job.jobState, job.parentProps, job.returnProps)
  {
    forall j | j in ReachSet(g, rank, k) ensures j in objects {
      ReachedIn(g, rank, objects, k, j);
    }
  }

  /** DefaultExecutableFlowSerializer: the dispatch, and the composed flow inside a dependent one. */
  method Serialize(ghost g: Graph, ghost rank: map<Job, nat>, ghost objects: map<Job, Executable>, ghost infos: Infos,
                   e: Executable)
    returns (s: Serialized)
    requires g.RankedBy(rank) && Wired(g, objects) && Show(objects, infos) && e.name in objects && objects[e.name] == e
    requires e.name in g.deps
    ensures s == SerialOf(g, rank, infos, e.name)
    decreases rank[e.name], 1
  {
    hide SerialOf, Sort, ReachOf, PartsFor, DependenciesFor;
    if e.parts.Alone? {
      s := SerializeIndividual(e.name, e.parts.job);
      LoneSerial(g, rank, infos, e.name, s);
    } else {
      NotBelowItself(g, rank, e.name);
      var parts := SerializeChildren(g, rank, objects, infos, e);
      PartsMerge(g, rank, infos, NamesOf(e.children), parts);
      var group := SerializeGrouped(parts);
      var own := SerializeIndividual(e.name, e.parts.flow.actualFlow.depender);
      s := SerializeComposed(group, own);
      ComposedSerial(g, rank, infos, e.name, group, own, s);
    }
  }

  method SerializeChildren(
    ghost g: Graph, ghost rank: map<Job, nat>, ghost objects: map<Job, Executable>, ghost infos: Infos, e: Executable)
    returns (parts: seq<Serialized>)
    requires g.RankedBy(rank) && Wired(g, objects) && Show(objects, infos) && e.name in objects && objects[e.name] == e
    requires e.name in g.deps
    requires forall n :: n in Sort(g.deps[e.name]) ==> n in g.deps && rank[n] < rank[e.name]
    ensures PartsFor(g, rank, infos, NamesOf(e.children), parts)
    decreases rank[e.name], 0
  {
    hide SerialOf, Sort, PartsFor, Show, Wired;
    NamesLinked(g, objects, e);
    parts := [];
    NoParts(g, rank, infos);
    ghost var names := NamesOf(e.children);
    var i := 0;
    while i < |e.children|
      invariant i == |parts| <= |e.children| && PartsFor(g, rank, infos, names[..i], parts)
      invariant Show(objects, infos)
    {
      var child := e.children[i];
      ChildLinked(g, objects, e, i);
      assert forall j :: j in objects ==> allocated(JobOf(objects[j]));
      var part := Serialize(g, rank, objects, infos, child);
      NextPart(g, rank, infos, names, i, parts, part);
      parts := parts + [part];
      i := i + 1;
    }
    assert names[..i] == names;
  }

  lemma NamesLinked(g: Graph, objects: map<Job, Executable>, e: Executable)
    requires Wired(g, objects) && e.name in objects && objects[e.name] == e && e.name in g.deps
    ensures NamesOf(e.children) == Sort(g.deps[e.name])
  {
    assert objects[e.name].name == e.name;
  }

  lemma ChildLinked(g: Graph, objects: map<Job, Executable>, e: Executable, i: nat)
    requires Wired(g, objects) && e.name in objects && objects[e.name] == e && e.name in g.deps && i < |e.children|
    ensures var c := e.children[i];
            && c.name in objects && objects[c.name] == c && NamesOf(e.children)[i] == c.name
            && c.name in Sort(g.deps[e.name])
  {
    assert objects[e.name].name == e.name;
    assert e.children[i] in e.children && NamesOf(e.children)[i] in NamesOf(e.children);
  }

  lemma NoParts(g: Graph, rank: map<Job, nat>, infos: Infos)
    requires g.RankedBy(rank)
    ensures PartsFor(g, rank, infos, [], [])
  {
  }

  lemma NextPart(g: Graph, rank: map<Job, nat>, infos: Infos, names: seq<Job>, i: nat,
                 parts: seq<Serialized>, part: Serialized)
    requires g.RankedBy(rank) && (forall n :: n in names ==> n in g.deps) && i < |names|
    requires PartsFor(g, rank, infos, names[..i], parts) && part == SerialOf(g, rank, infos, names[i])
    ensures PartsFor(g, rank, infos, names[..i + 1], parts + [part])
  {
    hide SerialOf;
  }

  /** Every name among the roots and in the dependencies is also among the jobs, and a job's entry
      in the dependencies is exactly its descriptor's dependencies. */
  lemma {:induction false} SerialIsClosed(g: Graph, rank: map<Job, nat>, infos: Infos, k: Job)
    requires g.RankedBy(rank) && k in g.deps && ReachSet(g, rank, k) <= infos.Keys
    ensures var s := SerialOf(g, rank, infos, k);
            && s.jobs.Keys == ReachSet(g, rank, k) && s.root == [k] && k in s.jobs
            && (forall j :: j in s.jobs ==> j in g.deps && At(s.dependencies, j) == Members(g.deps[j]))
            && (forall j, d :: j in s.dependencies && d in s.dependencies[j] ==> j in s.jobs && d in s.jobs)
  {
    var s := SerialOf(g, rank, infos, k);
    assert Reaches(g, rank, k, k);
    forall j, d | j in s.dependencies && d in s.dependencies[j] ensures j in s.jobs && d in s.jobs {
      var i :| 0 <= i < |g.deps[j]| && g.deps[j][i] == d;
      ReachesChild(g, rank, k, j, i);
    }
  }

  /** Building a flow from descriptors, instantiating it and serialising the instance gives back the
      dependencies of exactly the jobs that the root reaches, every job new. */
  method BuildAndSerialize(g: Graph, ghost rank: map<Job, nat>, root: Job) returns (s: Serialized)
    requires g.RankedBy(rank) && root in g.deps
    ensures s.jobs.Keys == ReachSet(g, rank, root) && s.root == [root]
    ensures forall j :: j in s.jobs ==> s.jobs[j] == JobInfo(j, READY, None, None)
    ensures s.dependencies == DependenciesFor(g, ReachSet(g, rank, root))
  {
    hide ReachSet, DependenciesFor, Wired, AllFresh, Apart, Describes;
    var built := new Flows();
    NothingBuilt(g);
    var flow := built.BuildLegacyFlow(g, rank, root);
    var instance := new Overrides();
    var r := instance.CreateExecutableFlow(g, rank, flow);
    var objects := instance.entries;
    ghost var infos := map j | j in objects :: JobInfo(j, READY, None, None);
    FreshShow(g, objects, infos);
    s := Serialize(g, rank, objects, infos, r.flow);
    assert infos.Keys == ReachSet(g, rank, root);
    SerialIsClosed(g, rank, infos, root);
  }

  lemma NothingBuilt(g: Graph)
    ensures MemoOk(g, map[]) && Consistent(g, map[])
  {
  }

  lemma FreshShow(g: Graph, objects: map<Job, Executable>, infos: Infos)
    requires Consistent(g, objects) && infos == map j | j in objects :: JobInfo(j, READY, None, None)
    ensures Show(objects, infos)
  {
    forall j | j in objects ensures infos[j] == InfoOf(j, JobOf(objects[j])) {
      assert objects[j].View() == FreshFlow(objects[j]);
      assert objects[j].View().job == FRESH;
    }
  }
}
