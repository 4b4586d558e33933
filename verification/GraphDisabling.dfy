/** Switching off the selected jobs and everything they depend on: disableAllAncestors. */
module GraphDisabling {
  import opened Sequences

  datatype GraphNode = GraphNode(enabled: bool, recurseID: int)

  datatype Edge = Edge(fromNode: string, toNode: string)

  type Nodes = map<string, GraphNode>

  /** q leads from a node to one it depends on, and so on. */
  ghost predicate Chain(edges: seq<Edge>, q: seq<string>) {
    q != [] && forall i, j {:trigger q[i], q[j]} :: 0 <= i < j == i + 1 < |q| ==> Edge(q[j], q[i]) in edges
  }

  /** target can be reached from node along the edges. */
  ghost predicate Above(edges: seq<Edge>, target: string, node: string) {
    exists q :: Chain(edges, q) && q[0] == target && Last(q) == node
  }

  lemma AboveItself(edges: seq<Edge>, x: string)
    ensures Above(edges, x, x)
  {
    assert Chain(edges, [x]) && [x][0] == x && Last([x]) == x;
  }

  lemma AboveEdge(edges: seq<Edge>, target: string, x: string, y: string)
    requires Edge(x, target) in edges && Above(edges, x, y)
    ensures Above(edges, target, y)
  {
    var q :| Chain(edges, q) && q[0] == x && Last(q) == y;
    var p := [target] + q;
    forall i | 0 < i < |p| ensures Edge(p[i], p[i - 1]) in edges {
      if i > 1 { assert p[i] == q[i - 1] && p[i - 1] == q[i - 2]; }
    }
    assert Chain(edges, p) && p[0] == target && Last(p) == y;
  }

  /** The nodes marked by the call with this number. */
  function Marked(nodes: Nodes, mark: int): set<string> {
    set x | x in nodes && nodes[x].recurseID == mark
  }

  /** A set that holds whatever its members depend on. */
  ghost predicate Upward(edges: seq<Edge>, xs: set<string>, ys: set<string>) {
    forall e {:trigger e in edges} :: e in edges && e.toNode in xs ==> e.fromNode in ys
  }

  lemma {:induction false} ChainStaysIn(edges: seq<Edge>, xs: set<string>, q: seq<string>)
    requires Upward(edges, xs, xs) && Chain(edges, q) && q[0] in xs
    ensures Last(q) in xs
  {
    if |q| > 1 {
      assert Edge(q[1], q[0]) in edges by { assert q[1] == q[1]; }
      assert Edge(q[1], q[0]).toNode in xs;
      forall i | 0 < i < |q[1..]| ensures Edge(q[1..][i], q[1..][i - 1]) in edges { assert q[i + 1] == q[i + 1]; }
      ChainStaysIn(edges, xs, q[1..]);
    }
  }

  /** What one call of disableRecursively did: exactly the newly marked nodes were switched off, they
      are all above the node, and whatever they depend on is marked. */
  ghost predicate Disabled(edges: seq<Edge>, before: Nodes, after: Nodes, node: string, mark: int) {
    && after.Keys == before.Keys && Marked(before, mark) + {node} <= Marked(after, mark)
    && (forall x {:trigger after[x]} :: x in before ==>
          after[x] == if x in Marked(after, mark) - Marked(before, mark) then GraphNode(false, mark) else before[x])
    && (forall x :: x in Marked(after, mark) - Marked(before, mark) ==> Above(edges, node, x))
    && Upward(edges, Marked(after, mark) - Marked(before, mark), Marked(after, mark))
  }

  /** The same while node is being worked on: it is marked, not yet switched off, and the first i
      edges have been followed. */
  ghost predicate Working(edges: seq<Edge>, before: Nodes, now: Nodes, node: string, mark: int, i: nat)
    requires i <= |edges|
  {
    && now.Keys == before.Keys && node in before && node !in Marked(before, mark)
    && Marked(before, mark) + {node} <= Marked(now, mark)
    && (forall x {:trigger now[x]} :: x in before ==>
          now[x] == if x == node then before[x].(recurseID := mark)
                    else if x in Marked(now, mark) - Marked(before, mark) then GraphNode(false, mark) else before[x])
    && (forall x :: x in Marked(now, mark) - Marked(before, mark) ==> Above(edges, node, x))
    && Upward(edges, Marked(now, mark) - Marked(before, mark) - {node}, Marked(now, mark))
    && Upward(edges[..i], {node}, Marked(now, mark))
  }

  lemma WorkStarts(edges: seq<Edge>, before: Nodes, node: string, mark: int)
    requires node in before && before[node].recurseID != mark
    ensures Working(edges, before, before[node := before[node].(recurseID := mark)], node, mark, 0)
  {
    var now := before[node := before[node].(recurseID := mark)];
    assert Marked(now, mark) == Marked(before, mark) + {node};
    AboveItself(edges, node);
  }

  lemma WorkSkips(edges: seq<Edge>, before: Nodes, now: Nodes, node: string, mark: int, i: nat)
    requires i < |edges| && Working(edges, before, now, node, mark, i) && edges[i].toNode != node
    ensures Working(edges, before, now, node, mark, i + 1)
  {
    assert edges[..i + 1] == edges[..i] + [edges[i]];
  }

  lemma WorkFollows(edges: seq<Edge>, before: Nodes, mid: Nodes, now: Nodes, node: string, mark: int, i: nat)
    requires i < |edges| && Working(edges, before, mid, node, mark, i) && edges[i].toNode == node
    requires Disabled(edges, mid, now, edges[i].fromNode, mark)
    ensures Working(edges, before, now, node, mark, i + 1)
  {
    assert edges[..i + 1] == edges[..i] + [edges[i]];
    assert edges[i] == Edge(edges[i].fromNode, node);
    forall x | x in Marked(now, mark) - Marked(before, mark) ensures Above(edges, node, x) {
      if x !in Marked(mid, mark) { AboveEdge(edges, node, edges[i].fromNode, x); }
    }
  }

  lemma WorkEnds(edges: seq<Edge>, before: Nodes, now: Nodes, node: string, mark: int)
    requires Working(edges, before, now, node, mark, |edges|)
    ensures Disabled(edges, before, now[node := now[node].(enabled := false)], node, mark)
  {
    var after := now[node := now[node].(enabled := false)];
    assert Marked(after, mark) == Marked(now, mark);
    assert edges[..|edges|] == edges;
  }

  lemma WorkMarks(edges: seq<Edge>, before: Nodes, now: Nodes, node: string, mark: int, i: nat)
    requires i <= |edges| && Working(edges, before, now, node, mark, i)
    ensures now.Keys == before.Keys && node in now && node !in Marked(before, mark)
    ensures Marked(before, mark) + {node} <= Marked(now, mark)
  {
  }

  lemma NothingToDo(edges: seq<Edge>, nodes: Nodes, node: string, mark: int)
    requires node in nodes && nodes[node].recurseID == mark
    ensures Disabled(edges, nodes, nodes, node, mark)
  {
  }

  ghost predicate AboveOne(edges: seq<Edge>, selection: seq<string>, x: string) {
    exists s :: s in selection && Above(edges, s, x)
  }

  /** After the first selected nodes: the marked nodes are switched off, above one of these and
      closed under what they depend on. */
  ghost predicate Swept(edges: seq<Edge>, before: Nodes, now: Nodes, selection: seq<string>, mark: int) {
    && now.Keys == before.Keys
    && (forall x {:trigger now[x]} :: x in before ==>
         now[x] == if x in Marked(now, mark) then GraphNode(false, mark) else before[x])
    && (forall x :: x in Marked(now, mark) ==> AboveOne(edges, selection, x))
    && (forall s :: s in selection ==> s in Marked(now, mark))
    && Upward(edges, Marked(now, mark), Marked(now, mark))
  }

  lemma SweepStarts(edges: seq<Edge>, before: Nodes, mark: int)
    requires forall x :: x in before ==> before[x].recurseID < mark
    ensures Swept(edges, before, before, [], mark)
  {
    assert Marked(before, mark) == {};
  }

  lemma SweepNext(edges: seq<Edge>, before: Nodes, mid: Nodes, now: Nodes, selection: seq<string>, s: string, mark: int)
    requires Swept(edges, before, mid, selection, mark) && Disabled(edges, mid, now, s, mark)
    ensures Swept(edges, before, now, selection + [s], mark)
  {
    hide Above, AboveOne, Upward;
    SweptAbove(edges, mid, now, selection, s, mark);
    SweptUpward(edges, Marked(mid, mark), Marked(now, mark));
  }

  lemma SweptUpward(edges: seq<Edge>, marked: set<string>, more: set<string>)
    requires Upward(edges, marked, marked) && Upward(edges, more - marked, more) && marked <= more
    ensures Upward(edges, more, more)
  {
  }

  lemma SweptAbove(edges: seq<Edge>, mid: Nodes, now: Nodes, selection: seq<string>, s: string, mark: int)
    requires forall x :: x in Marked(mid, mark) ==> AboveOne(edges, selection, x)
    requires forall x :: x in Marked(now, mark) - Marked(mid, mark) ==> Above(edges, s, x)
    ensures forall x :: x in Marked(now, mark) ==> AboveOne(edges, selection + [s], x)
  {
    hide Above, Marked;
    forall x | x in Marked(now, mark) ensures AboveOne(edges, selection + [s], x) {
      if x in Marked(mid, mark) {
        var t :| t in selection && Above(edges, t, x);
        assert t in selection + [s];
      } else {
        assert s in selection + [s] && Above(edges, s, x);
      }
    }
  }

  lemma SweepKeys(edges: seq<Edge>, before: Nodes, now: Nodes, selection: seq<string>, mark: int)
    requires Swept(edges, before, now, selection, mark)
    ensures now.Keys == before.Keys
  {
  }

  /** Marks are exactly the nodes above the selection. */
  lemma SweepEnds(edges: seq<Edge>, before: Nodes, now: Nodes, selection: seq<string>, mark: int, x: string)
    requires Swept(edges, before, now, selection, mark) && x in now
    ensures now[x].enabled <==> before[x].enabled && !AboveOne(edges, selection, x)
    ensures before[x].recurseID <= mark ==> now[x].recurseID <= mark
  {
    if AboveOne(edges, selection, x) {
      var s :| s in selection && Above(edges, s, x);
      var q :| Chain(edges, q) && q[0] == s && Last(q) == x;
      ChainStaysIn(edges, Marked(now, mark), q);
    }
    assert now[x] == if x in Marked(now, mark) then GraphNode(false, mark) else before[x];
  }

  class Graph {
    var nodeMap: Nodes
    var edgeList: seq<Edge>
    var nodeSelection: seq<string>
    var recurseId: int

    /** Edges and the selection are between known nodes, and no mark is ahead of the counter. */
    ghost predicate Valid()
      reads this
    {
      && (forall e :: e in edgeList ==> e.fromNode in nodeMap && e.toNode in nodeMap)
      && (forall s :: s in nodeSelection ==> s in nodeMap)
      && (forall x :: x in nodeMap ==> nodeMap[x].recurseID <= recurseId) && recurseId >= 0
    }

    constructor ()
      ensures Valid() && nodeMap == map[]
    {
      nodeMap, edgeList, nodeSelection, recurseId := map[], [], [], 0;
    }

    /** createNode: the mark starts below every number a call uses. */
    method CreateNode(id: string)
      requires Valid()
      modifies this`nodeMap
      ensures Valid() && nodeMap == old(nodeMap)[id := GraphNode(true, -1)]
    {
      nodeMap := nodeMap[id := GraphNode(true, -1)];
    }

    /** drawEdge, between nodes that exist. */
    method DrawEdge(fromNode: string, toNode: string)
      requires Valid() && fromNode in nodeMap && toNode in nodeMap
      modifies this`edgeList
      ensures Valid() && edgeList == old(edgeList) + [Edge(fromNode, toNode)]
    {
      edgeList := edgeList + [Edge(fromNode, toNode)];
    }

    /** selectNode: the selection is this node alone. */
    method SelectNode(node: string)
      requires Valid() && node in nodeMap
      modifies this`nodeSelection
      ensures Valid() && nodeSelection == [node]
    {
      nodeSelection := [node];
    }

    method DisableRecursively(node: string, mark: int)
      requires node in nodeMap && forall e :: e in edgeList ==> e.fromNode in nodeMap && e.toNode in nodeMap
      modifies this`nodeMap
      ensures Disabled(edgeList, old(nodeMap), nodeMap, node, mark)
      decreases nodeMap.Keys - Marked(nodeMap, mark)
    {
      hide Working, Disabled;
      if nodeMap[node].recurseID == mark {
        NothingToDo(edgeList, nodeMap, node, mark);
        return;
      }
      WorkStarts(edgeList, nodeMap, node, mark);
      nodeMap := nodeMap[node := nodeMap[node].(recurseID := mark)];
      var i := 0;
      while i < |edgeList|
        invariant i <= |edgeList| && nodeMap.Keys == old(nodeMap.Keys)
        invariant Working(edgeList, old(nodeMap), nodeMap, node, mark, i)
      {
        var edge := edgeList[i];
        if node == edge.toNode {
          ghost var mid := nodeMap;
          WorkMarks(edgeList, old(nodeMap), nodeMap, node, mark, i);
          DisableRecursively(edge.fromNode, mark);
          WorkFollows(edgeList, old(nodeMap), mid, nodeMap, node, mark, i);
          assert nodeMap.Keys == old(nodeMap.Keys) by { WorkMarks(edgeList, old(nodeMap), nodeMap, node, mark, i + 1); }
        } else {
          WorkSkips(edgeList, old(nodeMap), nodeMap, node, mark, i);
        }
        i := i + 1;
      }
      WorkEnds(edgeList, old(nodeMap), nodeMap, node, mark);
      nodeMap := nodeMap[node := nodeMap[node].(enabled := false)];
    }

    /** A node is enabled afterwards exactly if it was before and no selected node depends on it,
        whatever marks earlier calls have left. */
    method DisableAllAncestors()
      requires Valid()
      modifies this`nodeMap, this`recurseId
      ensures Valid() && nodeMap.Keys == old(nodeMap.Keys)
      ensures forall x :: x in nodeMap ==>
                (nodeMap[x].enabled <==> old(nodeMap)[x].enabled && !AboveOne(edgeList, nodeSelection, x))
    {
      hide Swept, Disabled, AboveOne, Marked;
      recurseId := recurseId + 1;
      SweepStarts(edgeList, nodeMap, recurseId);
      assert nodeSelection[..0] == [];
      var i := 0;
      while i < |nodeSelection|
        invariant i <= |nodeSelection| && nodeMap.Keys == old(nodeMap.Keys) && recurseId == old(recurseId) + 1
        invariant Swept(edgeList, old(nodeMap), nodeMap, nodeSelection[..i], recurseId)
      {
        ghost var mid := nodeMap;
        assert nodeSelection[i] in nodeSelection;
        DisableRecursively(nodeSelection[i], recurseId);
        SweepNext(edgeList, old(nodeMap), mid, nodeMap, nodeSelection[..i], nodeSelection[i], recurseId);
        SweepKeys(edgeList, old(nodeMap), nodeMap, nodeSelection[..i] + [nodeSelection[i]], recurseId);
        assert nodeSelection[..i + 1] == nodeSelection[..i] + [nodeSelection[i]];
        i := i + 1;
      }
      assert nodeSelection[..i] == nodeSelection;
      forall x | x in nodeMap
        ensures nodeMap[x].enabled <==> old(nodeMap)[x].enabled && !AboveOne(edgeList, nodeSelection, x)
        ensures nodeMap[x].recurseID <= recurseId
      {
        SweepEnds(edgeList, old(nodeMap), nodeMap, nodeSelection, recurseId, x);
      }
    }
  }
}
