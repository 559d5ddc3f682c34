/** ingressScopedSnapshot (snapshot.go): a breadth-first search from the traffic
    roots that follows only some edge kinds, in some directions. */
module Scoping {
  import opened Collections
  import opened NodeIDs
  import opened Topology
  import Text

  /** A node as published; its row is its place in its kind's column. */
  datatype Node = Node(id: NodeID, kind: NodeKind, info: NodeInfo, row: nat)
  datatype LabelledEdge = LabelledEdge(edge: Edge, text: string)
  datatype Snapshot = Snapshot(nodes: seq<Node>, edges: seq<LabelledEdge>)

  function NodeKey(n: Node): Option<NodeID> { Some(n.id) }

  function NodesByID(s: Snapshot): map<NodeID, Node> { IndexBy(s.nodes, NodeKey) }

  /** topologyRoot */
  predicate Root(n: Node) {
    match n.kind
    case IngressKind => true
    case GatewayKind => true
    case RouteKind => true
    case LoadBalancerKind => Text.EqualFold(n.info.Provider(), "F5")
    case _ => false
  }

  /** The edge kinds scopedTopologyNeighbors follows from a node, forwards. */
  function FollowsOut(kind: NodeKind): set<EdgeKind> {
    match kind
    case IngressKind => {Defines, Routes}
    case GatewayKind => {Attaches}
    case RouteKind => {Routes, CanaryEdge}
    case ServiceKind => {Selects, SliceEdge, EndpointEdge, ExternalNameEdge}
    case ControllerKind => {Controls}
    case NodePortKind => {Forwards}
    case LoadBalancerKind => {Balances, Exposes, Fronts}
    case DNSKind => {Resolves}
    case _ => {}
  }

  /** The edge kinds it follows backwards. */
  function FollowsIn(kind: NodeKind): set<EdgeKind> {
    match kind
    case IngressKind => {Controls, Fronts, Resolves}
    case GatewayKind => {Controls, Fronts, Resolves}
    case RouteKind => {Attaches, Defines, Resolves}
    case PodKind => {Hosts}
    case ControllerKind => {Forwards, Balances}
    case NodePortKind => {Exposes}
    case LoadBalancerKind => {Resolves}
    case _ => {}
  }

  function LeavingBy(kind: NodeKind): LabelledEdge -> seq<NodeID> {
    (e: LabelledEdge) => if e.edge.kind in FollowsOut(kind) then [e.edge.target] else []
  }

  function EnteringBy(kind: NodeKind): LabelledEdge -> seq<NodeID> {
    (e: LabelledEdge) => if e.edge.kind in FollowsIn(kind) then [e.edge.source] else []
  }

  /** scopedTopologyNeighbors */
  function Neighbors(kind: NodeKind, outgoing: seq<LabelledEdge>, incoming: seq<LabelledEdge>): seq<NodeID> {
    FlatMap(outgoing, LeavingBy(kind)) + FlatMap(incoming, EnteringBy(kind))
  }

  function Leaves(id: NodeID): LabelledEdge -> bool { (e: LabelledEdge) => e.edge.source == id }
  function Enters(id: NodeID): LabelledEdge -> bool { (e: LabelledEdge) => e.edge.target == id }

  // ---- what the search should find ----

  predicate Follows(e: Edge, kind: NodeKind, a: NodeID, b: NodeID) {
    || (e.source == a && e.target == b && e.kind in FollowsOut(kind))
    || (e.target == a && e.source == b && e.kind in FollowsIn(kind))
  }

  /** One step of the search between existing nodes. */
  ghost predicate Step(s: Snapshot, a: NodeID, b: NodeID) {
    && a in NodesByID(s) && b in NodesByID(s)
    && exists e :: e in s.edges && Follows(e.edge, NodesByID(s)[a].kind, a, b)
  }

  ghost predicate Closed(s: Snapshot, c: set<NodeID>) {
    && (forall n :: n in s.nodes && Root(n) ==> n.id in c)
    && (forall a, b :: a in c && Step(s, a, b) ==> b in c)
  }

  /** The nodes in every set that holds the roots and is closed under steps. */
  ghost function Visible(s: Snapshot): set<NodeID> {
    set n | n in s.nodes && (forall c :: Closed(s, c) ==> n.id in c) :: n.id
  }

  function ShowsNode(visible: set<NodeID>): Node -> bool {
    (n: Node) => n.id in visible
  }

  function ShowsEdge(visible: set<NodeID>): LabelledEdge -> bool {
    (e: LabelledEdge) => e.edge.source in visible && e.edge.target in visible
  }

  /** The visible nodes and the edges between them, in order. */
  ghost function Scope(s: Snapshot): Snapshot {
    Snapshot(Filter(s.nodes, ShowsNode(Visible(s))), Filter(s.edges, ShowsEdge(Visible(s))))
  }

  /** Visible is itself closed, so it is the least closed set. */
  lemma VisibleIsLeastClosed(s: Snapshot)
    ensures Closed(s, Visible(s))
    ensures forall c :: Closed(s, c) ==> Visible(s) <= c
  {
    var v := Visible(s);
    forall a, b | a in v && Step(s, a, b) ensures b in v {
      IndexMember(s.nodes, NodeKey);
      var n := NodesByID(s)[b];
      forall c | Closed(s, c) ensures n.id in c {
        assert a in c;
      }
    }
  }

  // ---- the search ----

  method IndexEdges(s: Snapshot)
    returns (outgoing: map<NodeID, seq<LabelledEdge>>, incoming: map<NodeID, seq<LabelledEdge>>)
    ensures forall id :: EdgesAt(outgoing, id) == Filter(s.edges, Leaves(id))
    ensures forall id :: EdgesAt(incoming, id) == Filter(s.edges, Enters(id))
  {
    outgoing, incoming := map[], map[];
    for i := 0 to |s.edges|
      invariant forall id :: EdgesAt(outgoing, id) == Filter(s.edges[..i], Leaves(id))
      invariant forall id :: EdgesAt(incoming, id) == Filter(s.edges[..i], Enters(id))
    {
      var e := s.edges[i];
      Extend(s.edges, i);
      outgoing := outgoing[e.edge.source := EdgesAt(outgoing, e.edge.source) + [e]];
      incoming := incoming[e.edge.target := EdgesAt(incoming, e.edge.target) + [e]];
    }
    assert s.edges[..|s.edges|] == s.edges;
  }

  function EdgesAt(index: map<NodeID, seq<LabelledEdge>>, id: NodeID): seq<LabelledEdge> {
    if id in index then index[id] else []
  }

  lemma NeighborMeansStep(s: Snapshot, a: NodeID, b: NodeID)
    requires a in NodesByID(s) && b in NodesByID(s)
    ensures b in Neighbors(NodesByID(s)[a].kind, Filter(s.edges, Leaves(a)), Filter(s.edges, Enters(a)))
       <==> Step(s, a, b)
  {
    var kind := NodesByID(s)[a].kind;
    FilterMember(s.edges, Leaves(a));
    FilterMember(s.edges, Enters(a));
    FlatMapMember(Filter(s.edges, Leaves(a)), LeavingBy(kind));
    FlatMapMember(Filter(s.edges, Enters(a)), EnteringBy(kind));
    forall e | e in s.edges && Follows(e.edge, kind, a, b)
      ensures b in Neighbors(kind, Filter(s.edges, Leaves(a)), Filter(s.edges, Enters(a)))
    {
      assert b in LeavingBy(kind)(e) || b in EnteringBy(kind)(e);
    }
  }

  /** The search is done with every visited node that is no longer queued. */
  ghost predicate Explored(s: Snapshot, visited: set<NodeID>, queue: seq<NodeID>) {
    forall a, b :: a in visited && a !in queue && Step(s, a, b) ==> b in visited
  }

  ghost predicate OnlyVisible(s: Snapshot, ids: set<NodeID>) {
    forall c :: Closed(s, c) ==> ids <= c
  }

  method Roots(s: Snapshot) returns (visited: set<NodeID>, queue: seq<NodeID>)
    ensures forall id :: id in visited <==> id in queue
    ensures forall id :: id in visited <==> exists n :: n in s.nodes && Root(n) && n.id == id
  {
    visited, queue := {}, [];
    for i := 0 to |s.nodes|
      invariant forall id :: id in visited <==> id in queue
      invariant forall id :: id in visited <==> exists n :: n in s.nodes[..i] && Root(n) && n.id == id
    {
      Extend(s.nodes, i);
      if Root(s.nodes[i]) {
        visited := visited + {s.nodes[i].id};
        queue := queue + [s.nodes[i].id];
      }
    }
    assert s.nodes[..|s.nodes|] == s.nodes;
  }

  /** Marks and queues the unvisited existing neighbors. */
  method Enqueue(neighbors: seq<NodeID>, known: set<NodeID>, visited: set<NodeID>, queue: seq<NodeID>)
    returns (visited': set<NodeID>, queue': seq<NodeID>)
    ensures visited' == visited + (set b | b in neighbors && b in known)
    ensures forall id :: id in queue' <==> id in queue || id in visited' - visited
    ensures |queue'| == |queue| + |visited' - visited|
  {
    visited', queue' := visited, queue;
    for i := 0 to |neighbors|
      invariant visited' == visited + (set b | b in neighbors[..i] && b in known)
      invariant forall id :: id in queue' <==> id in queue || id in visited' - visited
      invariant |queue'| == |queue| + |visited' - visited|
    {
      var b := neighbors[i];
      Extend(neighbors, i);
      if b !in visited' && b in known {
        assert visited' + {b} - visited == (visited' - visited) + {b};
        visited' := visited' + {b};
        queue' := queue' + [b];
      }
    }
    assert neighbors[..|neighbors|] == neighbors;
  }

  lemma OneBigger(a: set<NodeID>, b: set<NodeID>)
    requires a <= b
    ensures |b - a| == |b| - |a|
  {
    assert b == a + (b - a);
  }

  lemma NeighborsAreSteps(s: Snapshot, a: NodeID, neighbors: seq<NodeID>)
    requires a in NodesByID(s)
    requires neighbors == Neighbors(NodesByID(s)[a].kind, Filter(s.edges, Leaves(a)), Filter(s.edges, Enters(a)))
    ensures forall b :: b in neighbors && b in NodesByID(s) <==> Step(s, a, b)
  {
    forall b | b in NodesByID(s) ensures b in neighbors <==> Step(s, a, b) {
      NeighborMeansStep(s, a, b);
    }
  }

  lemma VisibleStep(s: Snapshot, before: set<NodeID>, after: set<NodeID>, current: NodeID)
    requires OnlyVisible(s, before) && current in before
    requires forall b :: b in after ==> b in before || Step(s, current, b)
    ensures OnlyVisible(s, after)
  {
    forall c | Closed(s, c) ensures after <= c {
      assert before <= c;
    }
  }

  /** ingressScopedSnapshot: terminates, and keeps exactly the visible part. */
  method IngressScopedSnapshot(s: Snapshot) returns (r: Snapshot)
    ensures r == Scope(s)
  {
    var nodes := IndexNodes(s);
    var outgoing, incoming := IndexEdges(s);
    var visited, queue := Roots(s);
    ghost var pending := nodes.Keys - visited;
    RootsAreKnown(s, visited);
    while |queue| > 0
      invariant visited <= nodes.Keys
      invariant forall id :: id in queue ==> id in visited
      invariant forall n :: n in s.nodes && Root(n) ==> n.id in visited
      invariant Explored(s, visited, queue)
      invariant OnlyVisible(s, visited)
      decreases |nodes.Keys - visited|, |queue|
    {
      var current := queue[0];
      var rest := queue[1..];
      assert queue == [current] + rest;
      var neighbors := Neighbors(nodes[current].kind, EdgesAt(outgoing, current), EdgesAt(incoming, current));
      ghost var before := visited;
      NeighborsAreSteps(s, current, neighbors);
      visited, queue := Enqueue(neighbors, nodes.Keys, visited, rest);
      OneBigger(before, visited);
      Fewer(nodes.Keys, before, visited);
      VisibleStep(s, before, visited, current);
      ExploredStep(s, before, visited, current, rest, queue);
    }
    SearchIsExact(s, visited);
    var keptNodes := KeepNodes(s.nodes, visited);
    var keptEdges := KeepEdges(s.edges, visited);
    r := Snapshot(keptNodes, keptEdges);
  }

  lemma RootsAreKnown(s: Snapshot, roots: set<NodeID>)
    requires forall id :: id in roots ==> exists n :: n in s.nodes && Root(n) && n.id == id
    ensures roots <= NodesByID(s).Keys
    ensures OnlyVisible(s, roots)
  {
    IndexMember(s.nodes, NodeKey);
  }

  lemma Fewer(all: set<NodeID>, before: set<NodeID>, after: set<NodeID>)
    requires before <= after <= all
    ensures |all - after| == |all - before| - |after - before|
  {
    assert all - before == (all - after) + (after - before);
  }

  lemma ExploredStep(s: Snapshot, before: set<NodeID>, after: set<NodeID>, current: NodeID,
                     rest: seq<NodeID>, queue: seq<NodeID>)
    requires Explored(s, before, [current] + rest)
    requires before <= after && (forall b :: Step(s, current, b) ==> b in after)
    requires forall id :: id in queue <==> id in rest || id in after - before
    ensures Explored(s, after, queue)
  {
    forall a, b | a in after && a !in queue && Step(s, a, b) ensures b in after {
      if a != current {
        assert a in before && a !in [current] + rest;
      }
    }
  }

  lemma SearchIsExact(s: Snapshot, visited: set<NodeID>)
    requires visited <= NodesByID(s).Keys
    requires forall n :: n in s.nodes && Root(n) ==> n.id in visited
    requires Explored(s, visited, []) && OnlyVisible(s, visited)
    ensures visited == Visible(s)
  {
    assert Closed(s, visited);
    VisibleIsLeastClosed(s);
  }

  method IndexNodes(s: Snapshot) returns (nodes: map<NodeID, Node>)
    ensures nodes == NodesByID(s)
  {
    nodes := map[];
    for i := 0 to |s.nodes|
      invariant nodes == IndexBy(s.nodes[..i], NodeKey)
    {
      Extend(s.nodes, i);
      nodes := nodes[s.nodes[i].id := s.nodes[i]];
    }
    assert s.nodes[..|s.nodes|] == s.nodes;
  }

  method KeepNodes(nodes: seq<Node>, visited: set<NodeID>) returns (kept: seq<Node>)
    ensures kept == Filter(nodes, ShowsNode(visited))
  {
    kept := [];
    for i := 0 to |nodes|
      invariant kept == Filter(nodes[..i], ShowsNode(visited))
    {
      Extend(nodes, i);
      if nodes[i].id in visited {
        kept := kept + [nodes[i]];
      }
    }
    assert nodes[..|nodes|] == nodes;
  }

  method KeepEdges(edges: seq<LabelledEdge>, visited: set<NodeID>) returns (kept: seq<LabelledEdge>)
    ensures kept == Filter(edges, ShowsEdge(visited))
  {
    kept := [];
    for i := 0 to |edges|
      invariant kept == Filter(edges[..i], ShowsEdge(visited))
    {
      Extend(edges, i);
      if edges[i].edge.source in visited && edges[i].edge.target in visited {
        kept := kept + [edges[i]];
      }
    }
    assert edges[..|edges|] == edges;
  }

  // ---- properties of the published snapshot ----

  /** Published edges never dangle, whatever the builder drew. */
  lemma ScopedEdgesJoinNodes(s: Snapshot)
    ensures forall e :: e in Scope(s).edges ==>
              && (exists n :: n in Scope(s).nodes && n.id == e.edge.source)
              && (exists n :: n in Scope(s).nodes && n.id == e.edge.target)
  {
    FilterMember(s.nodes, ShowsNode(Visible(s)));
    FilterMember(s.edges, ShowsEdge(Visible(s)));
  }

  lemma SameScopedNode(s: Snapshot, id: NodeID)
    requires id in Visible(s)
    ensures Lookup(NodesByID(Scope(s)), id) == Lookup(NodesByID(s), id)
  {
    LookupKept(s.nodes, NodeKey, ShowsNode(Visible(s)), id);
  }

  lemma ScopedStep(s: Snapshot, a: NodeID, b: NodeID)
    requires a in Visible(s) && Step(s, a, b)
    ensures b in Visible(s) && Step(Scope(s), a, b)
  {
    VisibleIsLeastClosed(s);
    SameScopedNode(s, a);
    SameScopedNode(s, b);
    FilterMember(s.edges, ShowsEdge(Visible(s)));
    var e :| e in s.edges && Follows(e.edge, NodesByID(s)[a].kind, a, b);
    assert e in Scope(s).edges;
  }

  /** Scoping twice changes nothing. */
  lemma ScopeIsIdempotent(s: Snapshot)
    ensures Scope(Scope(s)) == Scope(s)
  {
    var v, t := Visible(s), Scope(s);
    FilterMember(s.nodes, ShowsNode(v));
    forall c | Closed(t, c) ensures v <= c {
      forall a, b | a in c * v && Step(s, a, b) ensures b in c * v {
        ScopedStep(s, a, b);
      }
      assert Closed(s, c * v) by {
        VisibleIsLeastClosed(s);
      }
    }
    assert Visible(t) == v;
    FilterSame(t.nodes, ShowsNode(v), ShowsNode(Visible(t)));
    FilterFilter(s.nodes, ShowsNode(v), ShowsNode(v), ShowsNode(v));
    FilterFilter(s.edges, ShowsEdge(v), ShowsEdge(v), ShowsEdge(v));
  }
}
