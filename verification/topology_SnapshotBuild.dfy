/** The watcher's buildSnapshot: prune the inputs, build, sort and place, scope. */
module SnapshotBuild {
  import opened Collections
  import opened Kube
  import opened NodeIDs
  import opened Topology
  import opened Builder
  import opened GraphBuilding
  import opened ControllerInference
  import opened IngressBuild
  import opened Pruning
  import opened Scoping
  import opened ScopedPruning
  import opened Sorting
  import TopologyBuild
  import TopologyInputs

  function RowAt(rows: map<NodeKind, nat>, kind: NodeKind): nat {
    if kind in rows then rows[kind] else 0
  }

  lemma RowsStep(ids: seq<NodeID>, nodes: map<NodeID, NodeInfo>, n: nat)
    requires n < |ids| && forall id :: id in ids ==> id in nodes
    ensures
      var above, id := Rows(ids[..n], nodes), ids[n];
      Rows(ids[..n + 1], nodes) == above + [Node(id, id.Kind(), nodes[id], |Filter(above, OfKind(id.Kind()))|)]
  {
    Extend(ids, n);
  }

  lemma CountKind(above: seq<Node>, n: Node, kind: NodeKind)
    ensures |Filter(above + [n], OfKind(kind))| == |Filter(above, OfKind(kind))| + if n.kind == kind then 1 else 0
  {
    assert (above + [n])[..|above|] == above;
  }

  /** assignPositions over the sorted nodes, counting rows by kind. */
  method AssignPositions(ids: seq<NodeID>, nodesByID: map<NodeID, NodeInfo>) returns (nodes: seq<Node>)
    requires forall id :: id in ids ==> id in nodesByID
    ensures nodes == Rows(ids, nodesByID)
  {
    nodes := [];
    var rows: map<NodeKind, nat> := map[];
    for n := 0 to |ids|
      invariant nodes == Rows(ids[..n], nodesByID)
      invariant forall kind :: RowAt(rows, kind) == |Filter(nodes, OfKind(kind))|
    {
      RowsStep(ids, nodesByID, n);
      var id := ids[n];
      var kind := id.Kind();
      var node := Node(id, kind, nodesByID[id], RowAt(rows, kind));
      forall k ensures |Filter(nodes + [node], OfKind(k))| == |Filter(nodes, OfKind(k))| + if kind == k then 1 else 0 {
        CountKind(nodes, node, k);
      }
      nodes := nodes + [node];
      rows := rows[kind := RowAt(rows, kind) + 1];
    }
    WholePrefix(ids);
  }

  method LabelEdges(edges: seq<Edge>, edgesByID: map<Edge, string>) returns (labelled: seq<LabelledEdge>)
    requires forall e :: e in edges ==> e in edgesByID
    ensures labelled == Labelled(edges, edgesByID)
  {
    labelled := [];
    for n := 0 to |edges|
      invariant labelled == Labelled(edges[..n], edgesByID)
    {
      Extend(edges, n);
      labelled := labelled + [LabelledEdge(edges[n], edgesByID[edges[n]])];
    }
    WholePrefix(edges);
  }

  /** The builder's nodes() and edges(). */
  method SnapshotOf(b: TopologyBuilder, order: IDOrder) returns (s: Snapshot)
    requires IsIDOrder(order)
    ensures s == Render(b.Contents(), order)
  {
    OrderedMembers(b.nodesByID.Keys, order.nodes);
    OrderedMembers(b.edgesByID.Keys, order.edges);
    var ids := SortedMembers(b.nodesByID.Keys, order.nodes);
    var edges := SortedMembers(b.edgesByID.Keys, order.edges);
    var nodes := AssignPositions(ids, b.nodesByID);
    var labelled := LabelEdges(edges, b.edgesByID);
    s := Snapshot(nodes, labelled);
  }

  lemma PrunedInputsUnique(c: Cluster)
    requires UniqueInputs(c)
    ensures UniqueInputs(Prune(c))
  {
    FilterMember(c.services, KeepService(ServiceKeys(c)));
  }

  /** The published topology is that of the whole cluster, although the build only
      sees what pruning left of it. */
  method BuildSnapshot(c: Cluster, order: IDOrder) returns (s: Snapshot)
    requires WellFormed(c) && UniqueInputs(c) && IsIDOrder(order)
    ensures
      var full := Scope(Render(Build(c), order));
      WithoutRows(s.nodes) == WithoutRows(full.nodes) && s.edges == full.edges
  {
    var scoped := TopologyInputs.ScopeTrafficInputs(c);
    PrunedInputsUnique(c);
    var b := TopologyBuild.BuildTopology(scoped);
    var snapshot := SnapshotOf(b, order);
    s := IngressScopedSnapshot(snapshot);
    PruningPreservesTopology(c, order);
  }
}
