/** The flow managers: loading all flows, sorting the roots into folders, and handing out ids. */
module FlowManagers {
  import opened FlowTypes
  import opened FlowBuilding
  import opened FlowCreation
  import opened JobDescriptors

  // ---- The folder of a root job ----

  predicate HasSlash(path: string) {
    exists i :: 0 <= i < |path| && path[i] == '/'
  }

  /** The parts between slashes, as many as there are slashes and one. */
  function Parts(path: string): (r: seq<string>)
    ensures |r| > 0
  {
    if path == "" then [""]
    else
      var rest := Parts(path[1..]);
      if path[0] == '/' then [""] + rest else [[path[0]] + rest[0]] + rest[1..]
  }

  function DropTrailing(parts: seq<string>): (r: seq<string>)
    ensures r != [] ==> r[|r| - 1] != ""
    ensures r <= parts
  {
    if parts != [] && parts[|parts| - 1] == "" then DropTrailing(parts[..|parts| - 1]) else parts
  }

  /** String.split leaves out the empty parts at the end. */
  function Split(path: string): seq<string> {
    DropTrailing(Parts(path))
  }

  /** The first directory of the path. A path of slashes only has no parts, and asking for the first
      one raises an exception. */
  function FolderOf(path: string): Option<string> {
    if !HasSlash(path) then Some("default")
    else
      var split := Split(path);
      if split == [] then None
      else if split[0] == "" then Some(split[1])
      else Some(split[0])
  }

  lemma {:induction false} DropAll(parts: seq<string>)
    ensures DropTrailing(parts) == [] <==> forall i :: 0 <= i < |parts| ==> parts[i] == ""
    decreases |parts|
  {
    if parts != [] && parts[|parts| - 1] == "" { DropAll(parts[..|parts| - 1]); }
  }

  lemma {:induction false} EmptyParts(path: string)
    ensures (forall i :: 0 <= i < |Parts(path)| ==>
              Parts(path)[i] == "") <==> forall i :: 0 <= i < |path| ==> path[i] == '/'
  {
    if path != "" {
      EmptyParts(path[1..]);
      var rest := Parts(path[1..]);
      assert path == [path[0]] + path[1..];
      if path[0] == '/' {
        assert Parts(path)[1..] == rest;
      } else {
        assert Parts(path)[0] != "";
      }
    }
  }

  /** Reloading breaks on a job path exactly if it consists of slashes only. */
  lemma {:induction false} NoFolderIff(path: string)
    ensures FolderOf(path).None? <==> path != "" && forall i :: 0 <= i < |path| ==> path[i] == '/'
  {
    DropAll(Parts(path));
    EmptyParts(path);
    if path != "" && forall i :: 0 <= i < |path| ==> path[i] == '/' { assert path[0] == '/'; }
  }

  lemma {:induction false} FirstPart(path: string)
    ensures var f := Parts(path)[0];
            && f <= path && (forall x :: 0 <= x < |f| ==> f[x] != '/') && (|f| < |path| ==> path[|f|] == '/')
            && (|f| == |path| ==> Parts(path) == [f])
            && (|f| < |path| ==> Parts(path)[1..] == Parts(path[|f| + 1..]))
  {
    if path != "" && path[0] != '/' {
      FirstPart(path[1..]);
      var f := Parts(path)[0];
      assert path == [path[0]] + path[1..];
      if |f| < |path| { assert path[1..][|f|..] == path[|f| + 1..]; }
    }
  }

  lemma {:induction false} DropKeeps(parts: seq<string>, i: nat)
    requires i < |DropTrailing(parts)|
    ensures i < |parts| && DropTrailing(parts)[i] == parts[i]
  {
  }

  /** A root job without directory is filed under "default". Any other is filed under its first directory, the text
      before the first slash; one slash at the very beginning does not count. */
  lemma {:induction false} FolderIs(path: string)
    ensures '/' !in path ==> FolderOf(path) == Some("default")
    ensures '/' in path && FolderOf(path).Some? ==>
              var f, from := FolderOf(path).value, if path[0] == '/' then 1 else 0;
              && from + |f| <= |path| && path[from..from + |f|] == f && '/' !in f
              && (from + |f| < |path| ==> path[from + |f|] == '/')
  {
    if '/' in path && FolderOf(path).Some? {
      var parts := Parts(path);
      FirstPart(path);
      DropKeeps(parts, 0);
      if parts[0] == "" {
        DropKeeps(parts, 1);
        FirstPart(path[1..]);
        assert parts[1] == Parts(path[1..])[0];
      }
    }
  }

  // ---- Folder lists ----

  type Folders = map<string, seq<Job>>

  /** Every root is in the list of its folder, once, and in no other. */
  ghost predicate Filed(paths: map<Job, string>, roots: set<Job>, folders: Folders) {
    && (forall r :: r in roots ==> r in paths && FolderOf(paths[r]).Some? && FolderOf(paths[r]).value in folders)
    && (forall f, r {:trigger multiset(folders[f])[r]} :: f in folders ==>
          multiset(folders[f])[r] == if r in roots && FolderOf(paths[r]) == Some(f) then 1 else 0)
  }

  function ListAt(folders: Folders, f: string): seq<Job> {
    if f in folders then folders[f] else []
  }

  lemma FileNext(paths: map<Job, string>, roots: set<Job>, folders: Folders, r: Job)
    requires Filed(paths, roots, folders) && r !in roots && r in paths && FolderOf(paths[r]).Some?
    ensures var f := FolderOf(paths[r]).value; Filed(paths, roots + {r}, folders[f := ListAt(folders, f) + [r]])
  {
    hide FolderOf;
    var f := FolderOf(paths[r]).value;
    var after := folders[f := ListAt(folders, f) + [r]];
    forall h, x | h in after
      ensures multiset(after[h])[x] == if x in roots + {r} && FolderOf(paths[x]) == Some(h) then 1 else 0
    {
      if h == f {
        assert multiset(after[h]) == multiset(ListAt(folders, f)) + multiset{r};
        if f !in folders { assert multiset(ListAt(folders, f))[x] == 0; }
      }
    }
  }

  // ---- Ids over a whole run ----

  /** What the ids depend on: the counter, the names that have flows, and the ids issued so far. */
  datatype Ids = Ids(lastId: int, names: set<Job>, issued: seq<int>)

  datatype IdEvent = NextId | Create(name: Job) | Reload(jobs: Graph, paths: map<Job, string>)

  function IssueOne(s: Ids): Ids {
    s.(lastId := s.lastId + 1, issued := s.issued + [s.lastId + 1])
  }

  /** Every root job has a folder. */
  ghost predicate AllHaveFolders(jobs: Graph, paths: map<Job, string>) {
    forall j :: IsRoot(jobs.deps, j) ==> j in paths && FolderOf(paths[j]).Some?
  }

  /** What each public call of the manager does to the ids. */
  ghost function IdStep(s: Ids, e: IdEvent): Ids {
    match e
    case NextId => IssueOne(s)
    case Create(name) => if name in s.names then IssueOne(s) else s
    case Reload(jobs, paths) => if AllHaveFolders(jobs, paths) then s.(names := jobs.deps.Keys) else s
  }

  ghost function AfterCalls(s: Ids, es: seq<IdEvent>): Ids {
    if es == [] then s else IdStep(AfterCalls(s, es[..|es| - 1]), es[|es| - 1])
  }

  /** A call that asks for an id, while these names have flows. */
  predicate Asks(names: set<Job>, e: IdEvent) {
    e.NextId? || (e.Create? && e.name in names)
  }

  /** How many calls ask for an id. */
  ghost function Requests(s: Ids, es: seq<IdEvent>): nat {
    if es == [] then 0
    else Requests(s, es[..|es| - 1]) + if Asks(AfterCalls(s, es[..|es| - 1]).names, es[|es| - 1]) then 1 else 0
  }

  /** Over every run of calls, one id is issued for each request and each creation of a flow that
      exists, and the ids strictly increase, without gaps, also across reloads. */
  lemma {:induction false} IdsIncrease(s: Ids, es: seq<IdEvent>)
    requires s.issued == []
    ensures var t := AfterCalls(s, es);
            && |t.issued| == Requests(s, es) && t.lastId == s.lastId + |t.issued|
            && (forall i :: 0 <= i < |t.issued| ==> t.issued[i] == s.lastId + 1 + i)
            && (forall i, j :: 0 <= i < j < |t.issued| ==> t.issued[i] < t.issued[j])
    decreases |es|
  {
    hide AllHaveFolders;
    if es != [] { IdsIncrease(s, es[..|es| - 1]); }
  }

  // ---- The managers ----

  /** ImmutableFlowManager; g is the graph of the jobs its flows were built from. */
  class ImmutableFlowManager {
    const flowsMap: map<Job, JobFlow>
    const rootFlowNames: set<Job>
    const folderToRoot: Folders
    var lastId: int
    ghost const g: Graph
    ghost const rank: map<Job, nat>

    /** The flows describe the jobs. */
    ghost predicate Describing() {
      flowsMap != map[] ==> g.RankedBy(rank) && MemoOk(g, flowsMap) && flowsMap.Keys <= g.deps.Keys
    }

    constructor (flows: map<Job, JobFlow>, roots: set<Job>, folders: Folders, lastId: int, ghost g: Graph,
                 ghost rank: map<Job, nat>)
      ensures flowsMap == flows && rootFlowNames == roots && folderToRoot == folders && this.lastId == lastId
      ensures this.g == g && this.rank == rank
    {
      flowsMap, rootFlowNames, folderToRoot, this.lastId := flows, roots, folders, lastId;
      this.g, this.rank := g, rank;
    }

    method GetNextId() returns (id: int)
      modifies this
      ensures id == lastId == old(lastId) + 1
    {
      lastId := lastId + 1;
      id := lastId;
    }

    method GetCurrMaxId() returns (id: int)
      ensures id == lastId
    {
      id := lastId;
    }

    /** A name with a flow takes the next id, and all jobs it reaches get new objects wired to each
        other; a name without one takes none. */
    method CreateNewExecutableFlow(name: Job)
      returns (id: Option<int>, flow: Executable?, ghost objects: map<Job, Executable>)
      requires Describing()
      modifies this
      ensures (id.Some? <==> name in flowsMap) && (flow != null <==> name in flowsMap)
      ensures lastId == old(lastId) + (if id.Some? then 1 else 0) && (id.Some? ==> id.value == lastId)
      ensures flow != null ==>
                && g.RankedBy(rank) && name in g.deps && Consistent(g, objects)
                && objects.Keys == ReachSet(g, rank, name)
                && name in objects && objects[name] == flow
                && forall k :: k in objects ==> fresh(objects[k]) && fresh(objects[k].Objects())
    {
      hide Describes, Consistent, ReachSet;
      if name !in flowsMap {
        return None, null, map[];
      }
      var next := GetNextId();
      var overrides := new Overrides();
      NoObjects(g);
      var r := overrides.CreateExecutableFlow(g, rank, flowsMap[name]);
      assert r.Created?;
      return Some(next), r.flow, overrides.entries;
    }
  }

  lemma NoObjects(g: Graph)
    ensures Consistent(g, map[])
  {
  }

  /** Every job has its flow, the root jobs are the roots, and each is in the list of its folder. */
  ghost predicate Loaded(g: Graph, paths: map<Job, string>, flows: map<Job, JobFlow>, roots: set<Job>,
                         folders: Folders) {
    && flows.Keys == g.deps.Keys && MemoOk(g, flows)
    && (forall j :: j in roots <==> IsRoot(g.deps, j))
    && Filed(paths, roots, folders)
  }

  lemma AllReached(g: Graph, rank: map<Job, nat>, roots: set<Job>, flows: map<Job, JobFlow>)
    requires g.RankedBy(rank) && (forall j :: j in roots <==> IsRoot(g.deps, j))
    requires flows.Keys <= g.deps.Keys && forall r :: r in roots && r in g.deps ==> ReachSet(g, rank, r) <= flows.Keys
    ensures flows.Keys == g.deps.Keys
  {
    forall j | j in g.deps ensures j in flows {
      var root := RootsReachAll(g, rank, j);
      assert j in ReachSet(g, rank, root);
    }
  }

  class RefreshableFlowManager {
    var delegateManager: ImmutableFlowManager
    ghost var issued: seq<int>

    ghost function View(): Ids
      reads this, delegateManager
    {
      Ids(delegateManager.lastId, delegateManager.flowsMap.Keys, issued)
    }

    ghost predicate Valid()
      reads this, delegateManager
    {
      delegateManager.Describing()
    }

    /** A manager without flows; the constructor of the program reloads right after it. */
    constructor (lastId: int, ghost g: Graph)
      ensures Valid() && fresh(delegateManager) && View() == Ids(lastId, {}, [])
    {
      delegateManager := new ImmutableFlowManager(map[], {}, map[], lastId, g, map[]);
      issued := [];
    }

    method GetNextId() returns (id: int)
      requires Valid()
      modifies this, delegateManager
      ensures Valid() && delegateManager == old(delegateManager)
      ensures View() == IdStep(old(View()), NextId) && issued == old(issued) + [id]
    {
      id := delegateManager.GetNextId();
      issued := issued + [id];
    }

    method CreateNewExecutableFlow(name: Job)
      returns (id: Option<int>, flow: Executable?, ghost objects: map<Job, Executable>)
      requires Valid()
      modifies this, delegateManager
      ensures Valid() && delegateManager == old(delegateManager)
      ensures View() == IdStep(old(View()), Create(name))
      ensures issued == old(issued) + (if id.Some? then [id.value] else [])
      ensures id.Some? ==> id.value == old(delegateManager.lastId) + 1
      ensures (id.Some? <==> name in delegateManager.flowsMap) && (flow != null <==> id.Some?)
      ensures flow != null ==>
                var g, rank := delegateManager.g, delegateManager.rank;
                && g.RankedBy(rank) && name in g.deps && Consistent(g, objects)
                && objects.Keys == ReachSet(g, rank, name)
                && name in objects && objects[name] == flow
                && forall k :: k in objects ==> fresh(objects[k]) && fresh(objects[k].Objects())
    {
      hide Consistent, ReachSet;
      id, flow, objects := delegateManager.CreateNewExecutableFlow(name);
      if id.Some? {
        issued := issued + [id.value];
      }
    }

    /** reloadInternal(null): all flows are built again behind one new manager that goes on counting
        from the old one's last id. A path that has no folder stops it with nothing changed. */
    method Reload(g: Graph, ghost rank: map<Job, nat>, paths: map<Job, string>) returns (ok: bool)
      requires Valid() && g.RankedBy(rank) && paths.Keys == g.deps.Keys
      modifies this
      ensures Valid() && View() == IdStep(old(View()), IdEvent.Reload(g, paths))
      ensures ok <==> AllHaveFolders(g, paths)
      ensures !ok ==> delegateManager == old(delegateManager)
      ensures ok ==>
                && Loaded(g, paths, delegateManager.flowsMap, delegateManager.rootFlowNames,
                          delegateManager.folderToRoot)
                && fresh(delegateManager) && delegateManager.lastId == old(delegateManager.lastId)
    {
      var done, flows, roots, folders := LoadFlows(g, rank, paths);
      if !done {
        return false;
      }
      var lastId := delegateManager.GetCurrMaxId();
      delegateManager := new ImmutableFlowManager(flows, roots, folders, lastId, g, rank);
      ok := true;
    }
  }

  /** The loop of reloadInternal over the root jobs. */
  method LoadFlows(g: Graph, ghost rank: map<Job, nat>, paths: map<Job, string>)
    returns (ok: bool, flows: map<Job, JobFlow>, roots: set<Job>, folders: Folders)
    requires g.RankedBy(rank) && paths.Keys == g.deps.Keys
    ensures ok <==> AllHaveFolders(g, paths)
    ensures ok ==> Loaded(g, paths, flows, roots, folders)
  {
    hide FolderOf, MemoOk, ReachSet, Filed;
    var all := GetRoots(g.deps);
    var builder := new Flows();
    roots, folders := {}, map[];
    EmptyLoad(g, paths);
    var todo := all;
    while todo != {}
      invariant todo <= all && roots == all - todo
      invariant MemoOk(g, builder.alreadyBuiltFlows) && builder.alreadyBuiltFlows.Keys <= g.deps.Keys
      invariant forall r :: r in roots ==> r in g.deps && ReachSet(g, rank, r) <= builder.alreadyBuiltFlows.Keys
      invariant Filed(paths, roots, folders) && forall r :: r in roots ==> FolderOf(paths[r]).Some?
      decreases todo
    {
      var root :| root in todo;
      todo := todo - {root};
      assert IsRoot(g.deps, root);
      var _ := builder.BuildLegacyFlow(g, rank, root);
      ReachInside(g, rank, root);
      var folder := FolderOf(paths[root]);
      if folder.None? {
        return false, map[], {}, map[];
      }
      FileNext(paths, roots, folders, root);
      roots := roots + {root};
      folders := folders[folder.value := ListAt(folders, folder.value) + [root]];
    }
    flows := builder.alreadyBuiltFlows;
    AllReached(g, rank, roots, flows);
    ok := true;
  }

  lemma EmptyLoad(g: Graph, paths: map<Job, string>)
    ensures MemoOk(g, map[]) && Filed(paths, {}, map[])
  {
  }

  lemma ReachInside(g: Graph, rank: map<Job, nat>, k: Job)
    requires g.RankedBy(rank) && k in g.deps
    ensures ReachSet(g, rank, k) <= g.deps.Keys
  {
  }
}
