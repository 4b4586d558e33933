/** The job graph of workflow.Flow: building it, looking for cycles and assigning levels. */
module WorkflowFlow {
  import opened FlowTypes
  import opened Sequences

  /** dependencies is what getDependencies returns: absent stands for null. */
  datatype FlowNode = FlowNode(dependencies: Option<set<string>>, dependents: set<string>, level: nat)

  /** A new node starts with an empty set of dependencies, not with null. */
  const NEW_NODE := FlowNode(Some({}), {}, 0)

  datatype Message =
    | MultipleEntries(id: string)
    | SelfDependency(id: string)
    | FoundCycle(id: string)

  type Items = map<string, FlowNode>
  type Links = map<string, set<string>>

  function LinksOf(items: Items): Links {
    map k | k in items :: items[k].dependents
  }

  ghost predicate Closed(links: Links) {
    forall k, d {:trigger d in links[k]} :: k in links && d in links[k] ==> d in links
  }

  // ---- Walks along dependents ----

  predicate Link(links: Links, a: string, b: string) {
    a in links && b in links && b in links[a]
  }

  ghost predicate Walk(links: Links, q: seq<string>) {
    && q != [] && q[0] in links
    && forall i, j {:trigger q[i], q[j]} :: 0 <= i < j == i + 1 < |q| ==> Link(links, q[i], q[j])
  }

  lemma WalkTail(links: Links, q: seq<string>)
    requires Walk(links, q) && |q| > 1
    ensures Walk(links, q[1..]) && Last(q[1..]) == Last(q) && Link(links, q[0], q[1])
  {
    var t := q[1..];
    assert q[1] == q[1];
    forall i | 0 < i < |t| ensures Link(links, t[i - 1], t[i]) {
      assert t[i] == q[i + 1];
    }
  }

  lemma WalkOn(links: Links, q: seq<string>, b: string)
    requires Walk(links, q) && Link(links, Last(q), b)
    ensures Walk(links, q + [b]) && Last(q + [b]) == b
  {
    var t := q + [b];
    forall i | 0 < i < |t| ensures Link(links, t[i - 1], t[i]) {
      if i < |q| { assert t[i] == q[i]; }
    }
  }

  /** A walk that goes from x back to a node that it has passed. */
  ghost predicate ComesBack(links: Links, top: string, q: seq<string>, x: string) {
    && Walk(links, q) && q[0] == top && |q| > 1 && q[|q| - 2] == x && Last(q) in q[..|q| - 1]
    && !Distinct(q)
  }

  lemma SeenAgain(links: Links, path: seq<string>, b: string)
    requires Walk(links, path) && Link(links, Last(path), b) && b in path
    ensures path + [b] != [] && ComesBack(links, path[0], path + [b], Last(path))
  {
    WalkOn(links, path, b);
    assert (path + [b])[..|path|] == path;
    var i :| 0 <= i < |path| && path[i] == b;
    assert (path + [b])[i] == (path + [b])[|path|];
  }

  // ---- Levels ----

  /** A walk from one of the start nodes to n. */
  ghost predicate Reach(links: Links, tops: set<string>, n: string, q: seq<string>) {
    Walk(links, q) && q[0] in tops && Last(q) == n
  }

  /** Every level above zero is the length of some walk. */
  ghost predicate Realized(links: Links, tops: set<string>, items: Items) {
    forall n :: n in items && items[n].level > 0 ==> exists q :: Reach(links, tops, n, q) && |q| == items[n].level + 1
  }

  /** The items differ in their levels at most, which have not gone down. */
  ghost predicate Raised(items: Items, items': Items) {
    && items'.Keys == items.Keys
    && forall k {:trigger items'[k]} :: k in items ==>
         items'[k] == items[k].(level := items'[k].level) && items'[k].level >= items[k].level
  }

  /** Everything below node has been looked at: no walk repeats a node or comes back to the visited
      ones, and the levels are at least as deep as the walks. */
  ghost predicate Explored(links: Links, items: Items, visited: set<string>, node: string, level: nat) {
    forall q {:trigger Walk(links, q)} :: Walk(links, q) && q[0] == node ==>
      && Distinct(q) && (forall i :: 0 < i < |q| ==> q[i] !in visited)
      && Last(q) in items && items[Last(q)].level >= level + |q| - 1
  }

  lemma RaisedTwice(a: Items, b: Items, c: Items)
    requires Raised(a, b) && Raised(b, c)
    ensures Raised(a, c)
  {
    forall k | k in a ensures c[k] == a[k].(level := c[k].level) && c[k].level >= a[k].level {
      assert c[k] == b[k].(level := c[k].level) && b[k] == a[k].(level := b[k].level);
    }
  }

  lemma RaisedLinks(a: Items, b: Items)
    requires Raised(a, b)
    ensures LinksOf(a) == LinksOf(b)
  {
    forall k | k in a ensures a[k].dependents == b[k].dependents { assert b[k] == a[k].(level := b[k].level); }
  }

  lemma ExploredStays(links: Links, items: Items, items': Items, visited: set<string>, node: string, level: nat)
    requires Explored(links, items, visited, node, level) && Raised(items, items')
    ensures Explored(links, items', visited, node, level)
  {
    forall q | Walk(links, q) && q[0] == node
      ensures Last(q) in items' && items'[Last(q)].level >= level + |q| - 1
    {
      assert items'[Last(q)].level >= items[Last(q)].level;
    }
  }

  /** The node is explored once its level is set and all its dependents are. */
  lemma ExploredAll(links: Links, items: Items, visited: set<string>, node: string, level: nat, current: nat)
    requires node in links && node in visited && node in items && items[node].level >= current >= level
    requires forall d :: d in links[node] && d in links ==>
              d !in visited && Explored(links, items, visited + {d}, d, current + 1)
    ensures Explored(links, items, visited, node, level)
  {
    forall q | Walk(links, q) && q[0] == node
      ensures Distinct(q) && (forall i :: 0 < i < |q| ==> q[i] !in visited)
      ensures Last(q) in items && items[Last(q)].level >= level + |q| - 1
    {
      if |q| > 1 {
        WalkTail(links, q);
        var t := q[1..];
        assert Walk(links, t) && t[0] == q[1];
        forall i | 0 < i < |q| ensures q[i] !in visited && q[i] != node {
          assert q[i] == t[i - 1];
        }
        forall i, j | 0 <= i < j < |q| ensures q[i] != q[j] {
          if i > 0 { assert t[i - 1] != t[j - 1]; }
        }
      }
    }
  }

  lemma Deepen(links: Links, tops: set<string>, items: Items, n: string, level: nat, reach: seq<string>)
    returns (deeper: seq<string>)
    requires Realized(links, tops, items) && n in items && Reach(links, tops, n, reach) && |reach| == level + 1
    ensures var current := if level > items[n].level then level else items[n].level;
            && Reach(links, tops, n, deeper) && |deeper| == current + 1
            && Realized(links, tops, items[n := items[n].(level := current)])
            && Raised(items, items[n := items[n].(level := current)])
  {
    deeper := reach;
    if items[n].level > level {
      deeper :| Reach(links, tops, n, deeper) && |deeper| == items[n].level + 1;
    }
  }

  ghost predicate AtLeast(items: Items, node: string, level: nat) {
    node in items && items[node].level >= level
  }

  ghost predicate BelowExplored(links: Links, items: Items, visited: set<string>, done: set<string>, level: nat) {
    forall d :: d in done ==> d !in visited && Explored(links, items, visited + {d}, d, level)
  }

  lemma PathNode(links: Links, tops: set<string>, node: string, path: seq<string>)
    requires Reach(links, tops, node, path)
    ensures node in links && node in path && Last(path) == node
  {
    if |path| > 1 { assert Link(links, path[|path| - 2], path[|path| - 1]); }
  }

  /** Paths to the node go on to its dependents. */
  lemma OnePathOn(links: Links, tops: set<string>, node: string, dep: string, path: seq<string>, deeper: seq<string>)
    requires Closed(links) && node in links && dep in links[node]
    requires Reach(links, tops, node, path) && Reach(links, tops, node, deeper)
    ensures Link(links, Last(path), dep) && Walk(links, path) && path[0] in tops
    ensures Reach(links, tops, dep, path + [dep]) && Reach(links, tops, dep, deeper + [dep])
    ensures Members(path + [dep]) == Members(path) + {dep}
  {
    WalkOn(links, path, dep);
    WalkOn(links, deeper, dep);
  }

  lemma BelowNext(links: Links, before: Items, items: Items, visited: set<string>, done: set<string>, node: string,
                  dep: string, level: nat)
    requires BelowExplored(links, before, visited, done, level + 1) && Raised(before, items)
    requires dep !in visited && Explored(links, items, visited + {dep}, dep, level + 1)
    requires AtLeast(before, node, level)
    ensures BelowExplored(links, items, visited, done + {dep}, level + 1) && AtLeast(items, node, level)
  {
    hide Explored;
    forall d | d in done ensures Explored(links, items, visited + {d}, d, level + 1) {
      ExploredStays(links, before, items, visited + {d}, d, level + 1);
    }
  }

  lemma ExploredBelow(links: Links, items: Items, visited: set<string>, node: string, level: nat, current: nat)
    requires node in links && node in visited && AtLeast(items, node, current) && current >= level
    requires BelowExplored(links, items, visited, links[node], current + 1)
    ensures Explored(links, items, visited, node, level)
  {
    hide Explored;
    ExploredAll(links, items, visited, node, level, current);
  }

  /** No walk from the start nodes meets a node twice. */
  ghost predicate NoCycle(links: Links, tops: set<string>) {
    forall q :: Walk(links, q) && q[0] in tops ==> Distinct(q)
  }

  /** l is the length of the longest walk to n. */
  ghost predicate Longest(links: Links, tops: set<string>, n: string, l: nat) {
    && (exists q :: Reach(links, tops, n, q) && |q| == l + 1)
    && (forall q :: Reach(links, tops, n, q) ==> |q| <= l + 1)
  }

  ghost predicate Layered(links: Links, tops: set<string>, items: Items) {
    forall n :: n in items ==>
      if exists q :: Reach(links, tops, n, q) then Longest(links, tops, n, items[n].level) else items[n].level == 0
  }

  ghost predicate AllExplored(links: Links, items: Items, done: set<string>) {
    forall t :: t in done ==> Explored(links, items, {t}, t, 0)
  }

  lemma AllExploredNext(links: Links, before: Items, items: Items, done: set<string>, t: string)
    requires AllExplored(links, before, done) && Raised(before, items) && Explored(links, items, {t}, t, 0)
    ensures AllExplored(links, items, done + {t})
  {
    hide Explored;
    forall d | d in done ensures Explored(links, items, {d}, d, 0) {
      ExploredStays(links, before, items, {d}, d, 0);
    }
  }

  lemma ExploredMeans(links: Links, tops: set<string>, items: Items)
    requires AllExplored(links, items, tops) && Realized(links, tops, items)
    ensures NoCycle(links, tops) && Layered(links, tops, items)
  {
    forall q | Walk(links, q) && q[0] in tops ensures Distinct(q) {
      assert Explored(links, items, {q[0]}, q[0], 0);
    }
    forall n, q | n in items && Reach(links, tops, n, q) ensures |q| <= items[n].level + 1 {
      assert Explored(links, items, {q[0]}, q[0], 0);
    }
  }

  /** From x a walk from the start nodes goes back to a node that it has passed. */
  ghost predicate CycleAt(links: Links, tops: set<string>, x: string) {
    exists q :: Walk(links, q) && q[0] in tops && |q| > 1 && q[|q| - 2] == x && Last(q) in q[..|q| - 1]
  }

  lemma CycleMeans(links: Links, tops: set<string>, top: string, bad: seq<string>, x: string)
    requires top in tops && ComesBack(links, top, bad, x)
    ensures !NoCycle(links, tops) && CycleAt(links, tops, x)
  {
  }

  lemma StartHere(links: Links, tops: set<string>, node: string)
    requires node in tops && node in links
    ensures Reach(links, tops, node, [node]) && Members([node]) == {node}
  {
  }

  // ---- Adding jobs ----

  function NodeAt(items: Items, k: string): FlowNode {
    if k in items then items[k] else NEW_NODE
  }

  /** The node of id gets the listed dependencies, and each of them but id itself gets id as a dependent. */
  function Added(items: Items, id: string, deps: set<string>, listed: set<string>): Items {
    map k | k in items.Keys + {id} + listed ::
      var n := NodeAt(items, k);
      FlowNode(if k == id then Some(deps) else n.dependencies,
               if k in listed && k != id then n.dependents + {id} else n.dependents, n.level)
  }

  /** One message for each time id is listed under itself. */
  function SelfMessages(id: string, dependency: seq<string>): seq<Message> {
    if dependency == [] then []
    else SelfMessages(id, dependency[..|dependency| - 1])
         + (if dependency[|dependency| - 1] == id then [SelfDependency(id)] else [])
  }

  /** Entry by entry: only the node of id gets dependencies, exactly the listed ones; only listed nodes other than
      id get a dependent, id; nodes that are named for the first time are put in, and no other changes. */
  lemma {:induction false} AddedIs(items: Items, id: string, dependency: seq<string>, k: string)
    ensures var after := Added(items, id, Members(dependency), Members(dependency));
            && (k in after <==> k in items || k == id || k in dependency)
            && (k in after ==>
                  var n, m := if k in items then items[k] else FlowNode(Some({}), {}, 0), after[k];
                  && m.level == n.level
                  && m.dependencies == (if k == id then Some(set d | d in dependency) else n.dependencies)
                  && m.dependents == if k != id && k in dependency then n.dependents + {id} else n.dependents)
  {
    assert k in Members(dependency) <==> k in dependency;
    assert Members(dependency) == set d | d in dependency;
  }

  /** The messages of a call: one, unless the node was there without dependencies, and one more for each time the
      job lists itself. */
  lemma {:induction false} MessagesAre(items: Items, id: string, dependency: seq<string>)
    ensures var had, messages := id !in items || items[id].dependencies.Some?, AddMessages(items, id, dependency);
            && |messages| == (if had then 1 else 0) + multiset(dependency)[id]
            && (had ==> messages[0] == MultipleEntries(id))
            && forall i :: (if had then 1 else 0) <= i < |messages| ==> messages[i] == SelfDependency(id)
    decreases |dependency|
  {
    if dependency != [] {
      var n := |dependency| - 1;
      MessagesAre(items, id, dependency[..n]);
      assert dependency == dependency[..n] + [dependency[n]];
      assert AddMessages(items, id, dependency)
          == AddMessages(items, id, dependency[..n]) + (if dependency[n] == id then [SelfDependency(id)] else []);
    }
  }

  lemma AddedNone(items: Items, id: string, deps: set<string>)
    ensures Added(items, id, deps, {}) == items[id := NodeAt(items, id).(dependencies := Some(deps))]
  {
  }

  lemma AddedNext(items: Items, id: string, deps: set<string>, listed: set<string>, dep: string)
    ensures var before := Added(items, id, deps, listed);
            Added(items, id, deps, listed + {dep}) ==
              if dep == id then before
              else before[dep := NodeAt(before, dep).(dependents := NodeAt(before, dep).dependents + {id})]
  {
    var l, before := Added(items, id, deps, listed + {dep}), Added(items, id, deps, listed);
    var r := if dep == id then before
             else before[dep := NodeAt(before, dep).(dependents := NodeAt(before, dep).dependents + {id})];
    assert l.Keys == r.Keys;
    forall k | k in l ensures l[k] == r[k] {
      if k == dep && k != id {
        assert NodeAt(before, k).dependents + {id} == NodeAt(items, k).dependents + {id};
      }
    }
  }

  lemma ListedNext(items: Items, id: string, deps: set<string>, dependency: seq<string>, i: nat)
    requires i < |dependency|
    ensures var before, dep := Added(items, id, deps, Members(dependency[..i])), dependency[i];
            Added(items, id, deps, Members(dependency[..i + 1])) ==
              if dep == id then before
              else before[dep := NodeAt(before, dep).(dependents := NodeAt(before, dep).dependents + {id})]
    ensures SelfMessages(id, dependency[..i + 1]) ==
              SelfMessages(id, dependency[..i]) + (if dependency[i] == id then [SelfDependency(id)] else [])
  {
    assert dependency[..i + 1][..i] == dependency[..i];
    assert Members(dependency[..i + 1]) == Members(dependency[..i]) + {dependency[i]};
    hide Added;
    AddedNext(items, id, deps, Members(dependency[..i]), dependency[i]);
  }

  /** The messages of one addDependencies call. */
  function AddMessages(items: Items, id: string, dependency: seq<string>): seq<Message> {
    (if NodeAt(items, id).dependencies.Some? then [MultipleEntries(id)] else []) + SelfMessages(id, dependency)
  }

  lemma AddedKeeps(items: Items, id: string, deps: set<string>)
    requires Closed(LinksOf(items))
    ensures Closed(LinksOf(Added(items, id, deps, deps)))
    ensures (forall n :: n in items ==> items[n].level == 0) ==>
              forall n :: n in Added(items, id, deps, deps) ==> Added(items, id, deps, deps)[n].level == 0
  {
    var l, l' := LinksOf(items), LinksOf(Added(items, id, deps, deps));
    forall k, d | k in l' && d in l'[k] ensures d in l' {
      if d != id { assert d in l[k]; }
    }
  }

  class Flow {
    var flowItems: Items
    var errorMessages: seq<Message>
    var hasValidated: bool

    constructor ()
      ensures Valid() && flowItems == map[] && errorMessages == [] && !hasValidated
    {
      flowItems, errorMessages, hasValidated := map[], [], false;
    }

    /** Every dependent has a node, and levels are zero until validateFlow has been called. */
    ghost predicate Valid()
      reads this
    {
      Closed(LinksOf(flowItems)) && (!hasValidated ==> forall n :: n in flowItems ==> flowItems[n].level == 0)
    }

    /** parentNode.addDependent(id), on a new node if there was none. */
    method AddDependent(dep: string, id: string)
      modifies this`flowItems
      ensures flowItems == old(flowItems)[dep :=
                NodeAt(old(flowItems), dep).(dependents := NodeAt(old(flowItems), dep).dependents + {id})]
    {
      if dep !in flowItems {
        flowItems := flowItems[dep := NEW_NODE];
      }
      flowItems := flowItems[dep := flowItems[dep].(dependents := flowItems[dep].dependents + {id})];
    }

    /** One turn of that loop: a job that lists itself gives a message instead. */
    method AddOne(dep: string, id: string)
      modifies this`flowItems, this`errorMessages
      ensures flowItems == if dep == id then old(flowItems) else old(flowItems)[dep :=
                NodeAt(old(flowItems), dep).(dependents := NodeAt(old(flowItems), dep).dependents + {id})]
      ensures errorMessages == old(errorMessages) + (if dep == id then [SelfDependency(id)] else [])
    {
      if dep == id {
        errorMessages := errorMessages + [SelfDependency(id)];
      } else {
        AddDependent(dep, id);
      }
    }

    /** The loop of addDependencies that makes id a dependent of what it depends on. */
    method AddToEach(id: string, dependency: seq<string>, ghost items: Items, ghost deps: set<string>)
      requires flowItems == Added(items, id, deps, {})
      modifies this`flowItems, this`errorMessages
      ensures flowItems == Added(items, id, deps, Members(dependency))
      ensures errorMessages == old(errorMessages) + SelfMessages(id, dependency)
    {
      assert dependency[..0] == [] && Members(dependency[..0]) == {} && SelfMessages(id, dependency[..0]) == [];
      hide Added, SelfMessages, Members, NodeAt;
      var i := 0;
      while i < |dependency|
        invariant i <= |dependency|
        invariant flowItems == Added(items, id, deps, Members(dependency[..i]))
        invariant errorMessages == old(errorMessages) + SelfMessages(id, dependency[..i])
      {
        var dep := dependency[i];
        ListedNext(items, id, deps, dependency, i);
        AddOne(dep, id);
        i := i + 1;
      }
      assert dependency[..i] == dependency;
    }

    method AddDependencies(id: string, dependency: seq<string>)
      requires Valid()
      modifies this
      ensures Valid() && hasValidated == old(hasValidated)
      ensures flowItems == Added(old(flowItems), id, Members(dependency), Members(dependency))
      ensures errorMessages == old(errorMessages) + AddMessages(old(flowItems), id, dependency)
    {
      AddedKeeps(flowItems, id, Members(dependency));
      if id !in flowItems {
        flowItems := flowItems[id := NEW_NODE];
      }
      if flowItems[id].dependencies.Some? {
        errorMessages := errorMessages + [MultipleEntries(id)];
      }
      var deps := Members(dependency);
      flowItems := flowItems[id := flowItems[id].(dependencies := Some(deps))];
      AddedNone(old(flowItems), id, deps);
      AddToEach(id, dependency, old(flowItems), deps);
    }

    /** The depth first search from one node. It stops at the first dependent that is on the current
        path, and else deepens the levels below the node. */
    method GraphLayer(ghost links: Links, ghost tops: set<string>, visited: set<string>, node: string, level: nat,
                      ghost path: seq<string>, ghost reach: seq<string>) 
      returns (ok: bool, ghost bad: seq<string>, ghost at: string)
      requires LinksOf(flowItems) == links && Closed(links) && Realized(links, tops, flowItems)
      requires Reach(links, tops, node, path) && Members(path) == visited <= links.Keys
      requires Reach(links, tops, node, reach) && |reach| == level + 1
      modifies this
      ensures Raised(old(flowItems), flowItems) && Realized(links, tops, flowItems)
      ensures hasValidated == old(hasValidated)
      ensures ok ==> errorMessages == old(errorMessages) && Explored(links, flowItems, visited, node, level)
      ensures path != []
      ensures !ok ==> errorMessages == old(errorMessages) + [FoundCycle(at)] && ComesBack(links, path[0], bad, at)
      decreases links.Keys - visited
    {
      hide Reach, Realized, Explored, Raised, Walk, ComesBack, Distinct, Closed;
      PathNode(links, tops, node, path);
      bad, at := [], "";
      var currentLevel := if level > flowItems[node].level then level else flowItems[node].level;
      ghost var deeper := Deepen(links, tops, flowItems, node, level, reach);
      flowItems := flowItems[node := flowItems[node].(level := currentLevel)];
      RaisedLinks(old(flowItems), flowItems);
      var todo := flowItems[node].dependents;
      while todo != {}
        invariant todo <= links[node] && LinksOf(flowItems) == links && Realized(links, tops, flowItems)
        invariant Raised(old(flowItems), flowItems) && AtLeast(flowItems, node, currentLevel)
        invariant errorMessages == old(errorMessages) && hasValidated == old(hasValidated)
        invariant BelowExplored(links, flowItems, visited, links[node] - todo, currentLevel + 1)
        decreases todo
      {
        var dep :| dep in todo;
        todo := todo - {dep};
        OnePathOn(links, tops, node, dep, path, deeper);
        if dep in visited {
          errorMessages := errorMessages + [FoundCycle(node)];
          SeenAgain(links, path, dep);
          return false, path + [dep], node;
        }
        ghost var before := flowItems;
        var below: bool;
        below, bad, at := GraphLayer(links, tops, visited + {dep}, dep, currentLevel + 1, path + [dep], deeper + [dep]);
        RaisedTwice(old(flowItems), before, flowItems);
        RaisedLinks(before, flowItems);
        if !below {
          return false, bad, at;
        }
        BelowNext(links, before, flowItems, visited, links[node] - (todo + {dep}), node, dep, currentLevel);
      }
      ok := true;
      ExploredBelow(links, flowItems, visited, node, level, currentLevel);
    }

    /** setNodeProps as far as the graph goes: a missing node is put in. */
    method EnsureNode(id: string)
      requires Valid()
      modifies this`flowItems
      ensures Valid() && flowItems == if id in old(flowItems) then old(flowItems) else old(flowItems)[id := NEW_NODE]
    {
      if id !in flowItems {
        ghost var links := LinksOf(flowItems);
        flowItems := flowItems[id := NEW_NODE];
        forall k, d | k in LinksOf(flowItems) && d in LinksOf(flowItems)[k] ensures d in LinksOf(flowItems) {
          assert d in links[k];
        }
      }
    }

    /** The nodes without dependencies. */
    function TopNodes(): set<string>
      reads this
    {
      set k | k in flowItems && (flowItems[k].dependencies.None? || flowItems[k].dependencies.value == {})
    }

    /** The first call searches from every node without dependencies. One message is added if some
        walk from there comes back to itself, and else none; then the levels are the lengths of the
        longest walks. */
    method ValidateFlow() returns (valid: bool)
      requires Valid()
      modifies this
      ensures Valid() && valid == (errorMessages == []) && hasValidated && Raised(old(flowItems), flowItems)
      ensures old(hasValidated) ==> flowItems == old(flowItems) && errorMessages == old(errorMessages)
      ensures !old(hasValidated) ==>
                (valid <==> old(errorMessages) == [] && NoCycle(LinksOf(old(flowItems)), old(TopNodes())))
      ensures !old(hasValidated) && NoCycle(LinksOf(old(flowItems)), old(TopNodes())) ==>
                errorMessages == old(errorMessages) && Layered(LinksOf(old(flowItems)), old(TopNodes()), flowItems)
      ensures !old(hasValidated) && !NoCycle(LinksOf(old(flowItems)), old(TopNodes())) ==>
                exists x ::
                  && CycleAt(LinksOf(old(flowItems)), old(TopNodes()), x)
                  && errorMessages == old(errorMessages) + [FoundCycle(x)]
    {
      if hasValidated {
        return errorMessages == [];
      }
      hasValidated := true;
      var topNodes := TopNodes();
      ghost var links := LinksOf(flowItems);
      hide NoCycle, CycleAt, ComesBack, Layered, Realized, AllExplored, Explored, Walk, Reach, Distinct, Closed;
      NoLevels(links, topNodes, flowItems);
      var todo := topNodes;
      while todo != {}
        invariant todo <= topNodes && LinksOf(flowItems) == links && Raised(old(flowItems), flowItems) && hasValidated
        invariant Realized(links, topNodes, flowItems) && AllExplored(links, flowItems, topNodes - todo)
        invariant errorMessages == old(errorMessages)
        decreases todo
      {
        var node :| node in todo;
        todo := todo - {node};
        ghost var before := flowItems;
        StartHere(links, topNodes, node);
        var ok, bad, at := GraphLayer(links, topNodes, {node}, node, 0, [node], [node]);
        RaisedTwice(old(flowItems), before, flowItems);
        RaisedLinks(before, flowItems);
        if !ok {
          CycleMeans(links, topNodes, node, bad, at);
          return errorMessages == [];
        }
        AllExploredNext(links, before, flowItems, topNodes - (todo + {node}), node);
        assert topNodes - todo == topNodes - (todo + {node}) + {node};
      }
      assert topNodes - todo == topNodes;
      ExploredMeans(links, topNodes, flowItems);
      return errorMessages == [];
    }
  }

  lemma NoLevels(links: Links, tops: set<string>, items: Items)
    requires forall n :: n in items ==> items[n].level == 0
    ensures Realized(links, tops, items) && AllExplored(links, items, {})
  {
  }

  // ---- What a flow built by calls can say ----

  datatype Call = AddDependencies(id: string, dependency: seq<string>) | EnsureNode(id: string)

  /** Nodes and messages after the calls. */
  function Build(calls: seq<Call>): (Items, seq<Message>) {
    if calls == [] then (map[], [])
    else
      var (items, messages) := Build(calls[..|calls| - 1]);
      match calls[|calls| - 1]
      case AddDependencies(id, dependency) =>
        (Added(items, id, Members(dependency), Members(dependency)), messages + AddMessages(items, id, dependency))
      case EnsureNode(id) => (if id in items then items else items[id := NEW_NODE], messages)
  }

  predicate OnlyNodes(calls: seq<Call>) {
    forall i :: 0 <= i < |calls| ==> calls[i].EnsureNode?
  }

  /** Since a new node has an empty set of dependencies and not null, each addDependencies call
      reports multiple entries: only flows without any such call have no messages. */
  lemma {:induction false} EveryEntryIsReported(calls: seq<Call>)
    ensures Build(calls).1 == [] <==> OnlyNodes(calls)
    ensures forall n :: n in Build(calls).0 ==> Build(calls).0[n].dependencies.Some?
    ensures OnlyNodes(calls) ==> forall n :: n in Build(calls).0 ==> Build(calls).0[n].dependents == {}
    decreases |calls|
  {
    if calls != [] {
      EveryEntryIsReported(calls[..|calls| - 1]);
      hide SelfMessages;
    }
  }

  /** So what validateFlow finds wrong with a built flow never depends on its cycles. */
  lemma {:induction false} BuiltFlowIsValidIff(calls: seq<Call>, tops: set<string>)
    ensures Build(calls).1 == [] && NoCycle(LinksOf(Build(calls).0), tops) <==> OnlyNodes(calls)
  {
    EveryEntryIsReported(calls);
    if OnlyNodes(calls) {
      var links := LinksOf(Build(calls).0);
      forall q | Walk(links, q) && q[0] in tops ensures Distinct(q) {
        if |q| > 1 { WalkTail(links, q); }
      }
    }
  }
}
