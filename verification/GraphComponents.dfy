// connected_components: breadth-first search over an undirected reading of the edges.
module GraphComponents {
  import opened Sequences
  import opened Sorting
  import opened CodeGraph

  predicate Joins(e: Edge, a: string, b: string) {
    (e.source == a && e.target == b) || (e.source == b && e.target == a)
  }

  ghost predicate Joined(edges: seq<Edge>, a: string, b: string) {
    exists e :: e in edges && Joins(e, a, b)
  }

  // p lists the nodes of a path from a to b, all but b.
  ghost predicate IsPath(edges: seq<Edge>, a: string, p: seq<string>, b: string) {
    if |p| == 0 then a == b
    else Joined(edges, p[|p| - 1], b) && IsPath(edges, a, p[..|p| - 1], p[|p| - 1])
  }

  ghost predicate Connected(edges: seq<Edge>, a: string, b: string) {
    exists p :: IsPath(edges, a, p, b)
  }

  // ---- Connectedness is an equivalence ------------------------------------------

  lemma {:induction false} JoinedSymmetric(edges: seq<Edge>, a: string, b: string)
    requires Joined(edges, a, b)
    ensures Joined(edges, b, a)
  {
    var e :| e in edges && Joins(e, a, b);
    assert Joins(e, b, a);
  }

  lemma {:induction false} ConnectedToSelf(edges: seq<Edge>, a: string)
    ensures Connected(edges, a, a)
  {
    assert IsPath(edges, a, [], a);
  }

  lemma {:induction false} ConnectedStep(edges: seq<Edge>, a: string, b: string, c: string)
    requires Connected(edges, a, b) && Joined(edges, b, c)
    ensures Connected(edges, a, c)
  {
    var p :| IsPath(edges, a, p, b);
    assert (p + [b])[..|p|] == p;
    assert IsPath(edges, a, p + [b], c);
  }

  lemma {:induction false} PathsCompose(edges: seq<Edge>, a: string, b: string, q: seq<string>, c: string)
    requires Connected(edges, a, b) && IsPath(edges, b, q, c)
    ensures Connected(edges, a, c)
  {
    if |q| > 0 {
      PathsCompose(edges, a, b, q[..|q| - 1], q[|q| - 1]);
      ConnectedStep(edges, a, q[|q| - 1], c);
    }
  }

  lemma {:induction false} ConnectedTransitive(edges: seq<Edge>, a: string, b: string, c: string)
    requires Connected(edges, a, b) && Connected(edges, b, c)
    ensures Connected(edges, a, c)
  {
    var q :| IsPath(edges, b, q, c);
    PathsCompose(edges, a, b, q, c);
  }

  lemma {:induction false} PathReverses(edges: seq<Edge>, a: string, p: seq<string>, b: string)
    requires IsPath(edges, a, p, b)
    ensures Connected(edges, b, a)
  {
    ConnectedToSelf(edges, b);
    if |p| > 0 {
      var m := p[|p| - 1];
      PathReverses(edges, a, p[..|p| - 1], m);
      JoinedSymmetric(edges, m, b);
      ConnectedStep(edges, b, b, m);
      ConnectedTransitive(edges, b, m, a);
    }
  }

  lemma {:induction false} ConnectedSymmetric(edges: seq<Edge>, a: string, b: string)
    requires Connected(edges, a, b)
    ensures Connected(edges, b, a)
  {
    var p :| IsPath(edges, a, p, b);
    PathReverses(edges, a, p, b);
  }

  // No edge leaves s.
  ghost predicate Closed(edges: seq<Edge>, s: set<string>) {
    forall a, b :: a in s && Joined(edges, a, b) ==> b in s
  }

  lemma {:induction false} PathStaysInside(edges: seq<Edge>, s: set<string>, a: string, p: seq<string>, b: string)
    requires Closed(edges, s) && a in s && IsPath(edges, a, p, b)
    ensures b in s
  {
    if |p| > 0 {
      PathStaysInside(edges, s, a, p[..|p| - 1], p[|p| - 1]);
    }
  }

  lemma {:induction false} ConnectedStaysInside(edges: seq<Edge>, s: set<string>, a: string, b: string)
    requires Closed(edges, s) && a in s && Connected(edges, a, b)
    ensures b in s
  {
    var p :| IsPath(edges, a, p, b);
    PathStaysInside(edges, s, a, p, b);
  }

  // ---- The neighbour map ----------------------------------------------------------

  type Graph = map<string, set<string>>

  function Neighbours(graph: Graph, a: string): set<string> {
    if a in graph then graph[a] else {}
  }

  ghost predicate Represents(graph: Graph, edges: seq<Edge>) {
    forall a, b :: b in Neighbours(graph, a) <==> Joined(edges, a, b)
  }

  function WithNeighbour(graph: Graph, a: string, b: string): Graph {
    graph[a := Neighbours(graph, a) + {b}]
  }

  lemma {:induction false} JoinedOneMore(edges: seq<Edge>, e: Edge)
    ensures forall a, b :: Joined(edges + [e], a, b) <==> Joined(edges, a, b) || Joins(e, a, b)
  {
    forall a, b
      ensures Joined(edges + [e], a, b) <==> Joined(edges, a, b) || Joins(e, a, b)
    {
      assert e in edges + [e];
      if Joined(edges, a, b) {
        var d :| d in edges && Joins(d, a, b);
        assert d in edges + [e];
      }
    }
  }

  method BuildNeighbours(nodes: set<string>, edges: seq<Edge>) returns (graph: Graph)
    ensures Represents(graph, edges)
  {
    graph := map n | n in nodes :: {};
    for i := 0 to |edges|
      invariant Represents(graph, edges[..i])
    {
      var edge := edges[i];
      JoinedOneMore(edges[..i], edge);
      assert edges[..i + 1] == edges[..i] + [edge];
      graph := WithNeighbour(graph, edge.source, edge.target);
      graph := WithNeighbour(graph, edge.target, edge.source);
    }
    assert edges[..|edges|] == edges;
  }

  // ---- One search -------------------------------------------------------------------

  function Members(s: seq<string>): set<string> {
    set x | x in s
  }

  function Endpoints(edges: seq<Edge>): set<string> {
    (set e | e in edges :: e.source) + (set e | e in edges :: e.target)
  }

  lemma {:induction false} JoinedAreEndpoints(edges: seq<Edge>, a: string, b: string)
    requires Joined(edges, a, b)
    ensures b in Endpoints(edges)
  {
  }

  // All neighbours of the nodes in done are in seen.
  ghost predicate Expanded(edges: seq<Edge>, done: set<string>, seen: set<string>) {
    forall a, b :: a in done && Joined(edges, a, b) ==> b in seen
  }

  // found lists, without repetition, nodes connected to root that were not in before; those
  // in done have all their neighbours among the nodes seen.
  ghost predicate Searching(edges: seq<Edge>, root: string, before: set<string>, found: seq<string>, done: set<string>) {
    && root in found && NoDuplicates(found)
    && (forall x :: x in found ==> x !in before && Connected(edges, root, x))
    && Expanded(edges, done, before + Members(found))
  }

  // The queue loop for one root: what it collects is exactly what root is connected to.
  method Search(graph: Graph, edges: seq<Edge>, root: string, before: set<string>)
    returns (component: seq<string>, seen: set<string>)
    requires Represents(graph, edges) && Closed(edges, before) && root !in before
    ensures NoDuplicates(component)
    ensures forall x :: x in component <==> Connected(edges, root, x)
    ensures seen == before + Members(component) && Closed(edges, seen)
  {
    var queue := [root];
    seen := before + {root};
    component := [];
    ghost var found := [root];
    ConnectedToSelf(edges, root);
    assert NoDuplicates([root]) by {
      DistinctOneMore([], root);
      assert [] + [root] == [root];
    }
    while queue != []
      invariant found == component + queue && seen == before + Members(found)
      invariant Searching(edges, root, before, found, Members(component))
      decreases before + {root} + Endpoints(edges) - seen, |queue|
    {
      component, queue, seen, found := Advance(graph, edges, root, before, component, queue, seen, found);
    }
    assert found == component;
    SearchIsComplete(edges, root, before, component);
  }

  // One turn of the queue loop.
  method Advance(graph: Graph, edges: seq<Edge>, root: string, before: set<string>, component: seq<string>,
                 queue: seq<string>, seen: set<string>, ghost found: seq<string>)
    returns (component': seq<string>, queue': seq<string>, seen': set<string>, ghost found': seq<string>)
    requires Represents(graph, edges) && queue != []
    requires found == component + queue && seen == before + Members(found)
    requires Searching(edges, root, before, found, Members(component))
    ensures found' == component' + queue' && seen' == before + Members(found')
    ensures Searching(edges, root, before, found', Members(component'))
    ensures seen <= seen' <= seen + Endpoints(edges)
    ensures seen' == seen ==> |queue'| < |queue|
  {
    var current := queue[0];
    component' := component + [current];
    assert found == component' + queue[1..] && current in found by {
      assert queue == [current] + queue[1..];
      Regroup(component, [current], queue[1..]);
    }
    var added: seq<string>;
    added, seen' := Unseen(graph, edges, root, before, current, found, Members(component), seen);
    MembersOneMore(component, current);
    Regroup(component', queue[1..], added);
    queue' := queue[1..] + added;
    found' := found + added;
  }

  lemma {:induction false} Regroup<T>(a: seq<T>, b: seq<T>, c: seq<T>)
    ensures (a + b) + c == a + (b + c)
  {
  }

  // The neighbours of current that were not seen yet, in ascending order; they become seen.
  method Unseen(graph: Graph, edges: seq<Edge>, root: string, before: set<string>, current: string,
                ghost found: seq<string>, ghost done: set<string>, seen: set<string>)
    returns (added: seq<string>, seen': set<string>)
    requires Represents(graph, edges) && current in found
    requires seen == before + Members(found)
    requires Searching(edges, root, before, found, done)
    ensures seen' == before + Members(found + added)
    ensures Searching(edges, root, before, found + added, done + {current})
    ensures seen <= seen' <= seen + Endpoints(edges)
    ensures seen' == seen ==> added == []
  {
    added, seen' := [], seen;
    var nexts := SortedSet(Neighbours(graph, current));
    assert found + [] == found;
    ghost var handled: seq<string> := [];
    for k := 0 to |nexts|
      invariant handled == nexts[..k] && Members(handled) <= seen'
      invariant Growing(edges, root, before, found, done, added, seen, seen')
    {
      var nxt := nexts[k];
      assert Joined(edges, current, nxt) by {
        assert nxt in nexts;
      }
      if nxt !in seen' {
        GrowingOneMore(edges, root, before, found, done, added, seen, seen', current, nxt);
        seen' := seen' + {nxt};
        added := added + [nxt];
      }
      MembersOneMore(handled, nxt);
      handled := handled + [nxt];
    }
    assert handled == nexts;
    Finish(edges, root, before, found, done, added, seen, seen', current);
  }

  lemma {:induction false} Finish(edges: seq<Edge>, root: string, before: set<string>, found: seq<string>,
                                  done: set<string>, added: seq<string>, seen: set<string>, seen': set<string>,
                                  current: string)
    requires Growing(edges, root, before, found, done, added, seen, seen')
    requires forall b :: Joined(edges, current, b) ==> b in seen'
    ensures Searching(edges, root, before, found + added, done + {current})
  {
  }

  // The search after added was found besides found: nodes seen grew from seen to seen'.
  ghost predicate Growing(edges: seq<Edge>, root: string, before: set<string>, found: seq<string>, done: set<string>,
                          added: seq<string>, seen: set<string>, seen': set<string>) {
    && Searching(edges, root, before, found + added, done)
    && seen' == before + Members(found + added)
    && seen <= seen' <= seen + Endpoints(edges)
    && (seen' == seen ==> added == [])
  }

  lemma {:induction false} GrowingOneMore(edges: seq<Edge>, root: string, before: set<string>, found: seq<string>,
                                          done: set<string>, added: seq<string>, seen: set<string>, seen': set<string>,
                                          current: string, nxt: string)
    requires Growing(edges, root, before, found, done, added, seen, seen')
    requires current in found && Joined(edges, current, nxt) && nxt !in seen'
    ensures Growing(edges, root, before, found, done, added + [nxt], seen, seen' + {nxt})
  {
    JoinedAreEndpoints(edges, current, nxt);
    assert current in found + added;
    ConnectedStep(edges, root, current, nxt);
    DistinctOneMore(found + added, nxt);
    MembersOneMore(found + added, nxt);
    Regroup(found, added, [nxt]);
  }

  lemma {:induction false} MembersOneMore(s: seq<string>, x: string)
    ensures Members(s + [x]) == Members(s) + {x}
  {
    assert forall y :: y in s + [x] <==> y in s || y == x;
  }

  lemma {:induction false} SearchIsComplete(edges: seq<Edge>, root: string, before: set<string>, found: seq<string>)
    requires Closed(edges, before)
    requires Searching(edges, root, before, found, Members(found))
    ensures Closed(edges, before + Members(found))
    ensures forall x :: x in found <==> Connected(edges, root, x)
  {
    var c := Members(found);
    forall a, b | a in c && Joined(edges, a, b)
      ensures b in c
    {
      assert b in before + c;
      JoinedSymmetric(edges, a, b);
    }
    assert Closed(edges, c);
    forall x | Connected(edges, root, x)
      ensures x in found
    {
      ConnectedStaysInside(edges, c, root, x);
    }
  }

  // ---- All components ----------------------------------------------------------------

  ghost predicate Reached(edges: seq<Edge>, nodes: set<string>, x: string) {
    exists n :: n in nodes && Connected(edges, n, x)
  }

  // c is the ascending list of everything connected to any of its members.
  ghost predicate IsComponent(edges: seq<Edge>, c: seq<string>) {
    && c != [] && Ascending(c)
    && (forall x, y :: x in c ==> (y in c <==> Connected(edges, x, y)))
  }

  // r lists every component that meets nodes, once each.
  ghost predicate Lists(edges: seq<Edge>, nodes: set<string>, r: seq<seq<string>>) {
    && NoDuplicates(r)
    && (forall c :: c in r ==> IsComponent(edges, c))
    && (forall x :: (exists c :: c in r && x in c) <==> Reached(edges, nodes, x))
  }

  method ConnectedComponents(nodes: set<string>, edges: seq<Edge>) returns (r: seq<seq<string>>)
    ensures Lists(edges, nodes, r)
    ensures SortedBy(r, BySizeThenContent)
  {
    var graph := BuildNeighbours(nodes, edges);
    var seen: set<string> := {};
    var components: seq<seq<string>> := [];
    var order := SortedSet(nodes);
    ghost var visited: set<string> := {};
    assert Closed(edges, {});
    NothingListed(edges);
    for i := 0 to |order|
      invariant visited == Members(order[..i]) && Closed(edges, seen)
      invariant Lists(edges, visited, components)
      invariant forall x :: x in seen <==> Reached(edges, visited, x)
    {
      var node := order[i];
      assert order[..i + 1] == order[..i] + [node];
      if node in seen {
        VisitSeen(edges, visited, seen, components, node);
      } else {
        var component;
        ghost var before := seen;
        component, seen := Search(graph, edges, node, seen);
        var sorted := SortedSet(set x | x in component);
        VisitNew(edges, visited, before, components, node, component, sorted);
        components := components + [sorted];
      }
      visited := visited + {node};
      assert Members(order[..i + 1]) == visited;
    }
    assert Members(order) == nodes;
    assert order[..|order|] == order;
    r := Sort(components, BySizeThenContent);
    SizeThenContentOrder();
    SortSorts(components, BySizeThenContent);
    SortPermutes(components, BySizeThenContent);
    ListsPermutes(edges, nodes, components, r);
  }

  lemma {:induction false} NothingListed(edges: seq<Edge>)
    ensures Lists(edges, {}, [])
  {
  }

  lemma {:induction false} ReachedOneMore(edges: seq<Edge>, nodes: set<string>, n: string)
    ensures forall x :: Reached(edges, nodes + {n}, x) <==> Reached(edges, nodes, x) || Connected(edges, n, x)
  {
    forall x
      ensures Reached(edges, nodes + {n}, x) <==> Reached(edges, nodes, x) || Connected(edges, n, x)
    {
      if Connected(edges, n, x) {
        assert n in nodes + {n};
      } else if Reached(edges, nodes, x) {
        var m :| m in nodes && Connected(edges, m, x);
        assert m in nodes + {n};
      }
    }
  }

  lemma {:induction false} VisitSeen(edges: seq<Edge>, visited: set<string>, seen: set<string>,
                                     components: seq<seq<string>>, node: string)
    requires Lists(edges, visited, components) && node in seen && Closed(edges, seen)
    requires forall x :: x in seen <==> Reached(edges, visited, x)
    ensures Lists(edges, visited + {node}, components)
    ensures forall x :: x in seen <==> Reached(edges, visited + {node}, x)
  {
    ReachedOneMore(edges, visited, node);
    forall x | Connected(edges, node, x)
      ensures Reached(edges, visited, x)
    {
      ConnectedStaysInside(edges, seen, node, x);
    }
  }

  lemma {:induction false} VisitNew(edges: seq<Edge>, visited: set<string>, seen: set<string>,
                                    components: seq<seq<string>>, node: string,
                                    component: seq<string>, sorted: seq<string>)
    requires Lists(edges, visited, components) && node !in seen
    requires forall x :: x in seen <==> Reached(edges, visited, x)
    requires forall x :: x in component <==> Connected(edges, node, x)
    requires Ascending(sorted) && forall x :: x in sorted <==> x in component
    ensures Lists(edges, visited + {node}, components + [sorted])
    ensures forall x :: x in seen + Members(component) <==> Reached(edges, visited + {node}, x)
  {
    ReachedOneMore(edges, visited, node);
    ConnectedToSelf(edges, node);
    assert node in sorted;
    assert IsComponent(edges, sorted) by {
      forall x, y | x in sorted
        ensures y in sorted <==> Connected(edges, x, y)
      {
        ConnectedSymmetric(edges, node, x);
        if Connected(edges, x, y) {
          ConnectedTransitive(edges, node, x, y);
        } else if y in sorted {
          ConnectedTransitive(edges, x, node, y);
        }
      }
    }
    assert sorted !in components by {
      assert sorted in components ==> Reached(edges, visited, node);
    }
    DistinctOneMore(components, sorted);
    var all := components + [sorted];
    assert forall c :: c in all <==> c in components || c == sorted;
    forall x
      ensures (exists c :: c in all && x in c) <==> Reached(edges, visited + {node}, x)
    {
      if Reached(edges, visited, x) {
        var c :| c in components && x in c;
        assert c in all;
      }
      if x in sorted {
        assert sorted in all;
      }
    }
  }

  lemma {:induction false} ListsPermutes(edges: seq<Edge>, nodes: set<string>, a: seq<seq<string>>, b: seq<seq<string>>)
    requires Lists(edges, nodes, a) && multiset(a) == multiset(b)
    ensures Lists(edges, nodes, b)
  {
    MultisetMembers(a, b);
  }

  // ---- Exactness -----------------------------------------------------------------------

  // The contract of ConnectedComponents admits one result only.
  lemma {:induction false} ComponentsAreUnique(edges: seq<Edge>, nodes: set<string>,
                                               r: seq<seq<string>>, s: seq<seq<string>>)
    requires Lists(edges, nodes, r) && SortedBy(r, BySizeThenContent)
    requires Lists(edges, nodes, s) && SortedBy(s, BySizeThenContent)
    ensures r == s
  {
    ListedInBoth(edges, nodes, r, s);
    ListedInBoth(edges, nodes, s, r);
    DistinctSameMembers(r, s);
    SizeThenContentOrder();
    SortedIsUnique(r, s, BySizeThenContent);
  }

  lemma {:induction false} ListedInBoth(edges: seq<Edge>, nodes: set<string>, r: seq<seq<string>>, s: seq<seq<string>>)
    requires Lists(edges, nodes, r) && Lists(edges, nodes, s)
    ensures forall c :: c in r ==> c in s
  {
    forall c | c in r
      ensures c in s
    {
      var x := c[0];
      assert x in c;
      assert Reached(edges, nodes, x);
      var d :| d in s && x in d;
      AscendingIsUnique(c, d);
    }
  }

  // When every edge ends in nodes, the lists partition nodes and two nodes share a list
  // if and only if a path joins them.
  lemma {:induction false} ComponentsPartition(edges: seq<Edge>, nodes: set<string>, r: seq<seq<string>>)
    requires Lists(edges, nodes, r)
    requires forall e :: e in edges ==> e.source in nodes && e.target in nodes
    ensures forall x :: x in nodes <==> exists c :: c in r && x in c
    ensures forall c, d, x :: c in r && d in r && x in c && x in d ==> c == d
    ensures forall c, d, x, y :: c in r && d in r && x in c && y in d ==> (c == d <==> Connected(edges, x, y))
  {
    assert Closed(edges, nodes);
    forall x
      ensures Reached(edges, nodes, x) <==> x in nodes
    {
      ConnectedToSelf(edges, x);
      if Reached(edges, nodes, x) {
        var n :| n in nodes && Connected(edges, n, x);
        ConnectedStaysInside(edges, nodes, n, x);
      }
    }
    forall c, d, x | c in r && d in r && x in c && x in d
      ensures c == d
    {
      AscendingIsUnique(c, d);
    }
  }

  // The largest list comes first, and among lists of one size the one that begins with the
  // smaller name.
  lemma {:induction false} LargestFirst(edges: seq<Edge>, nodes: set<string>, r: seq<seq<string>>, i: nat, j: nat)
    requires Lists(edges, nodes, r) && SortedBy(r, BySizeThenContent) && i < j < |r|
    ensures r[i] != [] && r[j] != []
    ensures |r[i]| > |r[j]| ||
            (|r[i]| == |r[j]| && r[i][0] != r[j][0] && exists k: nat :: PartAt(r[i][0], r[j][0], k))
  {
    assert IsComponent(edges, r[i]) && IsComponent(edges, r[j]);
    DistinctIndices(r);
    assert r[i] != r[j];
    assert BySizeThenContent(r[i], r[j]);
    if r[i][0] == r[j][0] {
      assert r[i][0] in r[i] && r[i][0] in r[j];
      AscendingIsUnique(r[i], r[j]);
    }
    StringLeMeans(r[i][0], r[j][0]);
  }

  // Neither the order of the edges nor their direction matters.
  lemma {:induction false} DirectionDoesNotMatter(edges: seq<Edge>, edges': seq<Edge>, nodes: set<string>,
                                                  r: seq<seq<string>>, s: seq<seq<string>>)
    requires forall a, b :: Joined(edges, a, b) <==> Joined(edges', a, b)
    requires Lists(edges, nodes, r) && SortedBy(r, BySizeThenContent)
    requires Lists(edges', nodes, s) && SortedBy(s, BySizeThenContent)
    ensures r == s
  {
    forall a, b
      ensures Connected(edges, a, b) <==> Connected(edges', a, b)
    {
      SamePaths(edges, edges', a, b);
      SamePaths(edges', edges, a, b);
    }
    forall x
      ensures Reached(edges, nodes, x) <==> Reached(edges', nodes, x)
    {
    }
    assert Lists(edges, nodes, s);
    ComponentsAreUnique(edges, nodes, r, s);
  }

  lemma {:induction false} SamePath(edges: seq<Edge>, edges': seq<Edge>, a: string, p: seq<string>, b: string)
    requires forall x, y :: Joined(edges, x, y) ==> Joined(edges', x, y)
    requires IsPath(edges, a, p, b)
    ensures IsPath(edges', a, p, b)
  {
    if |p| > 0 {
      SamePath(edges, edges', a, p[..|p| - 1], p[|p| - 1]);
    }
  }

  lemma {:induction false} SamePaths(edges: seq<Edge>, edges': seq<Edge>, a: string, b: string)
    requires forall x, y :: Joined(edges, x, y) ==> Joined(edges', x, y)
    ensures Connected(edges, a, b) ==> Connected(edges', a, b)
  {
    if Connected(edges, a, b) {
      var p :| IsPath(edges, a, p, b);
      SamePath(edges, edges', a, p, b);
    }
  }
}
