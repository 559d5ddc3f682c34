/** The traffic graph: node data by ID and labels by edge, as the builder's two
    maps hold them. Graphs combine like successive map updates. */
module Topology {
  import opened Collections
  import opened Kube
  import opened NodeIDs
  import opened Diagnosis
  import Overlaps

  datatype EdgeKind =
    | Hosts | ExternalNameEdge | Exposes | Forwards | Balances | Resolves | Fronts | Controls
    | CanaryEdge | Defines | Routes | Attaches | Rejected | Selects | SliceEdge | EndpointEdge
    | NoData  // an edge without data, which the builder never adds

  /** What decides an edge's ID. */
  datatype Edge = Edge(source: NodeID, target: NodeID, kind: EdgeKind)

  /** Why a Gateway API reference does or does not become an edge. */
  datatype Reference =
    | Unsupported(kind: string, name: string)
    | Missing(key: Key)
    | OutsideWatch(key: Key)
    | NeedsGrant(key: Key)
    | Resolved(key: Key)

  /** Everything a node's rendered data is computed from. */
  datatype NodeInfo =
    | ControllerInfo(className: string, controller: string, source: string, status: string)
    | StatusControllerInfo(service: Key)
    | MachineInfo(machine: Machine)
    | PodInfo(pod: Pod)
    | ServiceInfo(svc: Service)
    | ExternalNameInfo(named: Service)
    | ServiceLBInfo(balanced: Service)
    | NodePortInfo(exposed: Service, port: ServicePort)
    | IngressInfo(ingress: Ingress)
    | IngressRouteInfo(route: Route, finding: Finding, overlap: map<Overlaps.PropertyName, string>)
    | DNSInfo(host: string)
    | AddressInfo(owner: Key, address: string, provider: string)
    | ExternalLBInfo(balancer: ExternalResource)
    | GatewayInfo(gateway: ExternalResource)
    | GatewayRouteInfo(resource: ExternalResource, parents: seq<Reference>, backends: seq<Reference>)
    | SliceEndpointInfo(slice: EndpointSlice, endpoint: SliceEndpoint, sliceAddress: string)
    | LegacyEndpointInfo(endpoints: Key, legacyAddress: EndpointAddress, ready: bool)
  {
    /** The "provider" property; a resource's own property of that name wins. */
    function Provider(): string {
      match this
      case AddressInfo(_, _, provider) => provider
      case ExternalLBInfo(r) => if "provider" in r.properties then r.properties["provider"] else "F5"
      case GatewayInfo(r) => if "provider" in r.properties then r.properties["provider"] else "Gateway API"
      case GatewayRouteInfo(r, _, _) => if "provider" in r.properties then r.properties["provider"] else "Gateway API"
      case _ => ""
    }
  }

  datatype Graph = Graph(nodes: map<NodeID, NodeInfo>, edges: map<Edge, string>)
  {
    /** This graph, then the other one added on top. */
    function Plus(other: Graph): Graph {
      Graph(nodes + other.nodes, edges + other.edges)
    }
  }

  const EMPTY_GRAPH := Graph(map[], map[])

  function OneNode(id: NodeID, info: NodeInfo): Graph { Graph(map[id := info], map[]) }

  function OneEdge(source: NodeID, target: NodeID, kind: EdgeKind, text: string): Graph {
    Graph(map[], map[Edge(source, target, kind) := text])
  }

  /** Equally labelled edges from one node, added in any order. */
  function Fan(source: NodeID, targets: set<NodeID>, kind: EdgeKind, text: string): Graph {
    var edges := set t | t in targets :: Edge(source, t, kind);
    Graph(map[], map e | e in edges :: text)
  }

  ghost function Sum<T>(xs: seq<T>, piece: T -> Graph): Graph {
    if xs == [] then EMPTY_GRAPH else Sum(xs[..|xs| - 1], piece).Plus(piece(xs[|xs| - 1]))
  }

  lemma PlusAssociative(a: Graph, b: Graph, c: Graph)
    ensures a.Plus(b).Plus(c) == a.Plus(b.Plus(c))
  {
    assert (a.nodes + b.nodes) + c.nodes == a.nodes + (b.nodes + c.nodes);
    assert (a.edges + b.edges) + c.edges == a.edges + (b.edges + c.edges);
  }

  lemma PlusEmpty(a: Graph)
    ensures a.Plus(EMPTY_GRAPH) == a == EMPTY_GRAPH.Plus(a)
  {
    assert a.nodes + map[] == a.nodes == map[] + a.nodes;
    assert a.edges + map[] == a.edges == map[] + a.edges;
  }

  /** How a builder loop that has added `base` and the pieces of `xs[..i]`
      continues with the next piece. */
  lemma SumStep<T>(base: Graph, xs: seq<T>, piece: T -> Graph, i: nat)
    requires i < |xs|
    ensures base.Plus(Sum(xs[..i], piece)).Plus(piece(xs[i])) == base.Plus(Sum(xs[..i + 1], piece))
  {
    Extend(xs, i);
    PlusAssociative(base, Sum(xs[..i], piece), piece(xs[i]));
  }

  // ---- properties of every part carry over to the whole ----

  lemma {:induction false} SumNode<T>(xs: seq<T>, piece: T -> Graph, id: NodeID) returns (x: T)
    requires id in Sum(xs, piece).nodes
    ensures x in xs && id in piece(x).nodes && Sum(xs, piece).nodes[id] == piece(x).nodes[id]
  {
    x := xs[|xs| - 1];
    if id !in piece(x).nodes {
      x := SumNode(xs[..|xs| - 1], piece, id);
    }
  }

  lemma {:induction false} SumEdge<T>(xs: seq<T>, piece: T -> Graph, e: Edge) returns (x: T)
    requires e in Sum(xs, piece).edges
    ensures x in xs && e in piece(x).edges
  {
    x := xs[|xs| - 1];
    if e !in piece(x).edges {
      x := SumEdge(xs[..|xs| - 1], piece, e);
    }
  }

  lemma {:induction false} SumHasNode<T>(xs: seq<T>, piece: T -> Graph, x: T, id: NodeID)
    requires x in xs && id in piece(x).nodes
    ensures id in Sum(xs, piece).nodes
  {
    var front, last := xs[..|xs| - 1], xs[|xs| - 1];
    assert xs == front + [last];
    if x in front {
      SumHasNode(front, piece, x, id);
    }
  }

  lemma {:induction false} SumHasEdge<T>(xs: seq<T>, piece: T -> Graph, x: T, e: Edge)
    requires x in xs && e in piece(x).edges
    ensures e in Sum(xs, piece).edges
  {
    var front, last := xs[..|xs| - 1], xs[|xs| - 1];
    assert xs == front + [last];
    if x in front {
      SumHasEdge(front, piece, x, e);
    }
  }
}
