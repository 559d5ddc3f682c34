/** The main theorem: scoping the graph built from the pruned inputs gives the
    same nodes, node data, edges and labels as scoping the graph of the whole
    cluster. Only the rows, which are numbered before scoping, may differ. */
module ScopedPruning {
  import opened Collections
  import opened NodeIDs
  import opened Topology
  import opened Builder
  import opened Pruning
  import opened PrunedBackends
  import opened EdgeShapes
  import opened Scoping
  import opened Sorting

  // ---- the builder's maps as sorted lists ----

  function OfKind(kind: NodeKind): Node -> bool { (n: Node) => n.kind == kind }

  /** assignPositions: one row per node of a kind, in order. */
  function Rows(ids: seq<NodeID>, nodes: map<NodeID, NodeInfo>): (rows: seq<Node>)
    requires forall id :: id in ids ==> id in nodes
    ensures |rows| == |ids|
  {
    if ids == [] then []
    else
      var above, id := Rows(ids[..|ids| - 1], nodes), ids[|ids| - 1];
      above + [Node(id, id.Kind(), nodes[id], |Filter(above, OfKind(id.Kind()))|)]
  }

  function Labelled(edges: seq<Edge>, labels: map<Edge, string>): seq<LabelledEdge>
    requires forall e :: e in edges ==> e in labels
  {
    if edges == [] then []
    else Labelled(edges[..|edges| - 1], labels) + [LabelledEdge(edges[|edges| - 1], labels[edges[|edges| - 1]])]
  }

  datatype IDOrder = IDOrder(nodes: (NodeID, NodeID) -> bool, edges: (Edge, Edge) -> bool)

  /** Comparing ID texts is a strict total order on IDs. */
  ghost predicate IsIDOrder(order: IDOrder) {
    StrictOrder(order.nodes) && StrictOrder(order.edges)
  }

  ghost function Render(g: Graph, order: IDOrder): Snapshot {
    OrderedMembers(g.nodes.Keys, order.nodes);
    OrderedMembers(g.edges.Keys, order.edges);
    Snapshot(Rows(Ordered(g.nodes.Keys, order.nodes), g.nodes), Labelled(Ordered(g.edges.Keys, order.edges), g.edges))
  }

  /** The snapshot apart from rows. */
  function WithoutRow(n: Node): Node { n.(row := 0) }

  function WithoutRows(nodes: seq<Node>): seq<Node> {
    seq(|nodes|, i requires 0 <= i < |nodes| => WithoutRow(nodes[i]))
  }

  lemma {:induction false} RowsMembers(ids: seq<NodeID>, nodes: map<NodeID, NodeInfo>)
    requires forall id :: id in ids ==> id in nodes
    ensures forall n :: n in Rows(ids, nodes) ==> n.id in ids && n.kind == n.id.Kind() && n.info == nodes[n.id]
    ensures forall id :: id in ids ==> exists n :: n in Rows(ids, nodes) && n.id == id
  {
    if ids != [] {
      var front, id := ids[..|ids| - 1], ids[|ids| - 1];
      RowsMembers(front, nodes);
      assert ids == front + [id];
      forall x | x in ids ensures exists n :: n in Rows(ids, nodes) && n.id == x {
        if x == id {
          assert Rows(ids, nodes)[|Rows(front, nodes)|].id == id;
        } else {
          var n :| n in Rows(front, nodes) && n.id == x;
          assert n in Rows(ids, nodes);
        }
      }
    }
  }

  lemma {:induction false} LabelledMembers(edges: seq<Edge>, labels: map<Edge, string>)
    requires forall e :: e in edges ==> e in labels
    ensures forall e :: e in Labelled(edges, labels) ==> e.edge in edges && e.text == labels[e.edge]
    ensures forall e :: e in edges ==> LabelledEdge(e, labels[e]) in Labelled(edges, labels)
  {
    if edges != [] {
      LabelledMembers(edges[..|edges| - 1], labels);
      assert edges == edges[..|edges| - 1] + [edges[|edges| - 1]];
    }
  }

  /** What a rendered graph lists. */
  lemma RenderMembers(g: Graph, order: IDOrder)
    ensures
      var s := Render(g, order);
      && (forall n :: n in s.nodes ==> n.id in g.nodes && n.kind == n.id.Kind() && n.info == g.nodes[n.id])
      && (forall id :: id in g.nodes ==> id in NodesByID(s) && NodesByID(s)[id].kind == id.Kind() && NodesByID(s)[id].info == g.nodes[id])
      && (forall id :: id in NodesByID(s) ==> id in g.nodes)
      && (forall e :: (exists l :: l in s.edges && l.edge == e) <==> e in g.edges)
  {
    var s := Render(g, order);
    OrderedMembers(g.nodes.Keys, order.nodes);
    OrderedMembers(g.edges.Keys, order.edges);
    RowsMembers(Ordered(g.nodes.Keys, order.nodes), g.nodes);
    LabelledMembers(Ordered(g.edges.Keys, order.edges), g.edges);
    IndexMember(s.nodes, NodeKey);
    forall id | id in g.nodes ensures id in NodesByID(s) {
      var n :| n in s.nodes && n.id == id;
      assert NodeKey(n) == Some(id);
    }
    forall e | e in g.edges ensures exists l :: l in s.edges && l.edge == e {
      assert LabelledEdge(e, g.edges[e]) in s.edges;
    }
  }

  // ---- the visible part ----

  /** The edge relation of the search, read off the graph. */
  ghost predicate GraphStep(g: Graph, a: NodeID, b: NodeID) {
    && a in g.nodes && b in g.nodes
    && exists e :: e in g.edges && Follows(e, a.Kind(), a, b)
  }

  lemma StepIsGraphStep(g: Graph, order: IDOrder, a: NodeID, b: NodeID)
    ensures Step(Render(g, order), a, b) <==> GraphStep(g, a, b)
  {
    RenderMembers(g, order);
    var s := Render(g, order);
    if GraphStep(g, a, b) {
      var e :| e in g.edges && Follows(e, a.Kind(), a, b);
      var l :| l in s.edges && l.edge == e;
    }
  }

  /** The search never leaves the kept nodes. */
  lemma SearchStaysKept(kept: Kept, e: Edge, a: NodeID, b: NodeID)
    requires Guarded(kept, e) && Follows(e, a.Kind(), a, b) && kept.Keeps(a)
    ensures kept.Keeps(b)
  {
  }

  lemma GuardedStep(kept: Kept, g: Graph, a: NodeID, b: NodeID)
    requires AllGuarded(kept, g) && GraphStep(g, a, b) && kept.Keeps(a)
    ensures kept.Keeps(b)
  {
    var e :| e in g.edges && Follows(e, a.Kind(), a, b);
    SearchStaysKept(kept, e, a, b);
  }

  lemma RootsAreKept(kept: Kept, n: Node)
    requires Root(n) && n.kind == n.id.Kind()
    ensures kept.Keeps(n.id)
  {
  }

  lemma KeptStep(kept: Kept, g: Graph, a: NodeID, b: NodeID)
    requires kept.Keeps(a) && kept.Keeps(b) && GraphStep(g, a, b)
    ensures GraphStep(kept.Restrict(g), a, b)
  {
    var e :| e in g.edges && Follows(e, a.Kind(), a, b);
    assert e in kept.Restrict(g).edges;
  }

  lemma RestrictedStep(kept: Kept, g: Graph, a: NodeID, b: NodeID)
    requires GraphStep(kept.Restrict(g), a, b)
    ensures GraphStep(g, a, b)
  {
    var e :| e in kept.Restrict(g).edges && Follows(e, a.Kind(), a, b);
    assert e in g.edges;
  }

  /** A set closed in the restricted graph is, on the kept nodes, closed in the
      whole one. */
  lemma ClosedInWhole(kept: Kept, g: Graph, order: IDOrder, s: set<NodeID>)
    requires AllGuarded(kept, g) && Closed(Render(kept.Restrict(g), order), s)
    ensures Closed(Render(g, order), set id | id in s && kept.Keeps(id))
  {
    var part, both := kept.Restrict(g), set id | id in s && kept.Keeps(id);
    RenderMembers(g, order);
    RenderMembers(part, order);
    forall n | n in Render(g, order).nodes && Root(n) ensures n.id in both {
      RootsAreKept(kept, n);
      assert n.id in part.nodes;
      var m := NodesByID(Render(part, order))[n.id];
      IndexMember(Render(part, order).nodes, NodeKey);
      assert Root(m) && m in Render(part, order).nodes;
    }
    forall a, b | a in both && Step(Render(g, order), a, b) ensures b in both {
      StepIsGraphStep(g, order, a, b);
      GuardedStep(kept, g, a, b);
      KeptStep(kept, g, a, b);
      StepIsGraphStep(part, order, a, b);
    }
  }

  lemma ClosedInPart(kept: Kept, g: Graph, order: IDOrder, s: set<NodeID>)
    requires Closed(Render(g, order), s)
    ensures Closed(Render(kept.Restrict(g), order), s)
  {
    var part := kept.Restrict(g);
    RenderMembers(g, order);
    RenderMembers(part, order);
    forall n | n in Render(part, order).nodes && Root(n) ensures n.id in s {
      var m := NodesByID(Render(g, order))[n.id];
      IndexMember(Render(g, order).nodes, NodeKey);
      assert Root(m) && m in Render(g, order).nodes;
    }
    forall a, b | a in s && Step(Render(part, order), a, b) ensures b in s {
      StepIsGraphStep(part, order, a, b);
      RestrictedStep(kept, g, a, b);
      StepIsGraphStep(g, order, a, b);
    }
  }

  lemma VisibleExists(g: Graph, order: IDOrder)
    ensures forall id :: id in Visible(Render(g, order)) ==> id in g.nodes
  {
    RenderMembers(g, order);
  }

  lemma SameVisible(kept: Kept, g: Graph, order: IDOrder)
    requires AllGuarded(kept, g)
    ensures Visible(Render(kept.Restrict(g), order)) == Visible(Render(g, order))
    ensures forall id :: id in Visible(Render(g, order)) ==> kept.Keeps(id)
  {
    var whole, part := Visible(Render(g, order)), Visible(Render(kept.Restrict(g), order));
    VisibleIsLeastClosed(Render(g, order));
    VisibleIsLeastClosed(Render(kept.Restrict(g), order));
    assert part <= whole by {
      ClosedInPart(kept, g, order, whole);
    }
    assert whole <= set id | id in part && kept.Keeps(id) by {
      ClosedInWhole(kept, g, order, part);
    }
  }

  // ---- the same lists ----

  lemma {:induction false} ShownRows(ids: seq<NodeID>, a: map<NodeID, NodeInfo>, b: map<NodeID, NodeInfo>, shown: set<NodeID>)
    requires forall id :: id in ids ==> id in a
    requires forall id :: id in shown && id in a ==> id in b && a[id] == b[id]
    ensures forall id :: id in Filter(ids, Among(shown)) ==> id in b
    ensures WithoutRows(Filter(Rows(ids, a), ShowsNode(shown))) == WithoutRows(Rows(Filter(ids, Among(shown)), b))
  {
    FilterMember(ids, Among(shown));
    if ids != [] {
      ShownRows(ids[..|ids| - 1], a, b, shown);
      var front := ids[..|ids| - 1];
      var kept := Filter(front, Among(shown));
      assert Rows(ids, a)[..|Rows(front, a)|] == Rows(front, a);
      if ids[|front|] in shown {
        assert (kept + [ids[|front|]])[..|kept|] == kept;
        WithoutRowsStep(Filter(Rows(front, a), ShowsNode(shown)), Rows(ids, a)[|front|]);
        WithoutRowsStep(Rows(kept, b), Rows(kept + [ids[|front|]], b)[|kept|]);
      }
    }
  }

  lemma WithoutRowsStep(nodes: seq<Node>, n: Node)
    ensures WithoutRows(nodes + [n]) == WithoutRows(nodes) + [WithoutRow(n)]
  {
  }

  lemma {:induction false} ShownEdges(edges: seq<Edge>, a: map<Edge, string>, b: map<Edge, string>, shown: set<NodeID>, some: set<Edge>)
    requires forall e :: e in edges ==> e in a
    requires forall e :: e in a ==> (e in some <==> e.source in shown && e.target in shown)
    requires forall e :: e in some ==> e in a && e in b && a[e] == b[e]
    ensures forall e :: e in Filter(edges, Among(some)) ==> e in b
    ensures Filter(Labelled(edges, a), ShowsEdge(shown)) == Labelled(Filter(edges, Among(some)), b)
  {
    FilterMember(edges, Among(some));
    if edges != [] {
      var front := edges[..|edges| - 1];
      ShownEdges(front, a, b, shown, some);
      var kept := Filter(front, Among(some));
      assert Labelled(edges, a)[..|Labelled(front, a)|] == Labelled(front, a);
      if edges[|front|] in some {
        assert (kept + [edges[|front|]])[..|kept|] == kept;
      }
    }
  }

  /** Renderings that agree on a set of shown nodes list it alike. */
  lemma SameShownNodes(g: Graph, part: Graph, order: IDOrder, shown: set<NodeID>)
    requires IsIDOrder(order) && shown <= g.nodes.Keys && shown <= part.nodes.Keys
    requires forall id :: id in shown ==> g.nodes[id] == part.nodes[id]
    ensures WithoutRows(Filter(Render(g, order).nodes, ShowsNode(shown)))
         == WithoutRows(Filter(Render(part, order).nodes, ShowsNode(shown)))
  {
    OrderedMembers(g.nodes.Keys, order.nodes);
    OrderedMembers(part.nodes.Keys, order.nodes);
    OrderedSubset(g.nodes.Keys, shown, order.nodes);
    OrderedSubset(part.nodes.Keys, shown, order.nodes);
    ShownRows(Ordered(g.nodes.Keys, order.nodes), g.nodes, part.nodes, shown);
    ShownRows(Ordered(part.nodes.Keys, order.nodes), part.nodes, part.nodes, shown);
  }

  lemma SameShownEdges(g: Graph, part: Graph, order: IDOrder, shown: set<NodeID>, some: set<Edge>)
    requires IsIDOrder(order)
    requires forall e :: e in g.edges ==> (e in some <==> e.source in shown && e.target in shown)
    requires forall e :: e in part.edges ==> (e in some <==> e.source in shown && e.target in shown)
    requires forall e :: e in some ==> e in g.edges && e in part.edges && g.edges[e] == part.edges[e]
    ensures Filter(Render(g, order).edges, ShowsEdge(shown)) == Filter(Render(part, order).edges, ShowsEdge(shown))
  {
    OrderedMembers(g.edges.Keys, order.edges);
    OrderedMembers(part.edges.Keys, order.edges);
    OrderedSubset(g.edges.Keys, some, order.edges);
    OrderedSubset(part.edges.Keys, some, order.edges);
    ShownEdges(Ordered(g.edges.Keys, order.edges), g.edges, part.edges, shown, some);
    ShownEdges(Ordered(part.edges.Keys, order.edges), part.edges, part.edges, shown, some);
  }

  lemma RestrictedAgrees(kept: Kept, g: Graph, order: IDOrder, shown: set<NodeID>)
    requires IsIDOrder(order)
    requires forall id :: id in shown ==> kept.Keeps(id) && id in g.nodes
    ensures WithoutRows(Filter(Render(g, order).nodes, ShowsNode(shown)))
         == WithoutRows(Filter(Render(kept.Restrict(g), order).nodes, ShowsNode(shown)))
    ensures Filter(Render(g, order).edges, ShowsEdge(shown)) == Filter(Render(kept.Restrict(g), order).edges, ShowsEdge(shown))
  {
    var part := kept.Restrict(g);
    SameShownNodes(g, part, order, shown);
    var some := set e | e in g.edges && e.source in shown && e.target in shown;
    SameShownEdges(g, part, order, shown, some);
  }

  /** Pruning the inputs never changes the published topology, rows aside. */
  lemma PruningPreservesTopology(c: Cluster, order: IDOrder)
    requires WellFormed(c) && IsIDOrder(order)
    ensures
      var full, pruned := Scope(Render(Build(c), order)), Scope(Render(Build(Prune(c)), order));
      && WithoutRows(pruned.nodes) == WithoutRows(full.nodes)
      && pruned.edges == full.edges
  {
    PrunedBuildIsRestriction(c);
    BuildGuarded(c);
    SameVisible(KeptBy(c), Build(c), order);
    VisibleExists(Build(c), order);
    RestrictedAgrees(KeptBy(c), Build(c), order, Visible(Render(Build(c), order)));
  }
}
