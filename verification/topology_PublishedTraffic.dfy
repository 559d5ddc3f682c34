/** What the published graph shows: exactly what is behind the traffic. */
module PublishedTraffic {
  import opened Collections
  import opened Kube
  import opened NodeIDs
  import opened Topology
  import opened Builder
  import opened DrawnEdges
  import opened GraphShapes
  import opened Scoping
  import opened ScopedPruning

  /** The published nodes of a graph. */
  ghost function PublishedNodes(g: Graph, order: IDOrder): set<NodeID> {
    Visible(Render(g, order))
  }

  predicate RootID(g: Graph, id: NodeID) {
    id in g.nodes && Root(Node(id, id.Kind(), g.nodes[id], 0))
  }

  lemma RootsOf(g: Graph, order: IDOrder, id: NodeID)
    ensures RootID(g, id) <==> exists n :: n in Render(g, order).nodes && Root(n) && n.id == id
  {
    RenderMembers(g, order);
    if RootID(g, id) {
      IndexMember(Render(g, order).nodes, NodeKey);
      var n := NodesByID(Render(g, order))[id];
      assert n in Render(g, order).nodes && n.id == id && Root(n);
    }
  }

  lemma ShownNodes(g: Graph, order: IDOrder)
    ensures forall id :: id in PublishedNodes(g, order) ==> id in g.nodes
  {
    RenderMembers(g, order);
  }

  /** The node is in the set exactly when it is a root or one step from the set. */
  ghost predicate Reached(g: Graph, shown: set<NodeID>, id: NodeID) {
    id in shown <==> RootID(g, id) || exists a :: a in shown && GraphStep(g, a, id)
  }

  /** A node is shown exactly when it is a root or one step from a shown node. */
  lemma ShownExactly(g: Graph, order: IDOrder, id: NodeID)
    ensures Reached(g, PublishedNodes(g, order), id)
  {
    var s, shown := Render(g, order), PublishedNodes(g, order);
    VisibleIsLeastClosed(s);
    RootsOf(g, order, id);
    if a :| a in shown && GraphStep(g, a, id) {
      StepIsGraphStep(g, order, a, id);
    }
    if !RootID(g, id) && !exists a :: a in shown && GraphStep(g, a, id) {
      WithoutIsClosed(g, order, id);
    }
  }

  lemma WithoutIsClosed(g: Graph, order: IDOrder, id: NodeID)
    requires !RootID(g, id) && forall a :: a in PublishedNodes(g, order) ==> !GraphStep(g, a, id)
    ensures Closed(Render(g, order), PublishedNodes(g, order) - {id})
  {
    var s := Render(g, order);
    VisibleIsLeastClosed(s);
    RootsOf(g, order, id);
    forall a ensures Step(s, a, id) <==> GraphStep(g, a, id) {
      StepIsGraphStep(g, order, a, id);
    }
    ClosedWithout(s, Visible(s), id);
  }

  lemma ClosedWithout(s: Snapshot, closed: set<NodeID>, id: NodeID)
    requires Closed(s, closed) && forall a :: a in closed ==> !Step(s, a, id)
    requires forall n :: n in s.nodes && Root(n) ==> n.id != id
    ensures Closed(s, closed - {id})
  {
  }

  /** A published set of nodes, by its two properties. */
  ghost predicate IsShown(g: Graph, shown: set<NodeID>) {
    && (forall id :: id in shown ==> id in g.nodes)
    && (forall id :: Reached(g, shown, id))
  }

  lemma ShownIs(g: Graph, order: IDOrder)
    ensures IsShown(g, PublishedNodes(g, order))
  {
    ShownNodes(g, order);
    forall id ensures Reached(g, PublishedNodes(g, order), id) {
      ShownExactly(g, order, id);
    }
  }

  // ---- one kind of node at a time ----

  ghost predicate LeadsTo(g: Graph, shown: set<NodeID>, a: NodeID, b: NodeID, kind: EdgeKind) {
    a in shown && Edge(a, b, kind) in g.edges
  }

  /** A shown node has an edge of one of the kinds to `b`. */
  ghost predicate LedTo(g: Graph, shown: set<NodeID>, b: NodeID, kinds: set<EdgeKind>) {
    exists a, kind :: LeadsTo(g, shown, a, b, kind) && kind in kinds
  }

  lemma StepFrom(g: Graph, shown: set<NodeID>, a: NodeID, b: NodeID, kind: EdgeKind)
    requires IsShown(g, shown) && LeadsTo(g, shown, a, b, kind) && b in g.nodes && kind in FollowsOut(a.Kind())
    ensures b in shown
  {
    assert Follows(Edge(a, b, kind), a.Kind(), a, b);
    assert GraphStep(g, a, b) && Reached(g, shown, b);
  }

  lemma StepBack(g: Graph, shown: set<NodeID>, a: NodeID, b: NodeID, kind: EdgeKind)
    requires IsShown(g, shown) && b in shown && Edge(a, b, kind) in g.edges && a in g.nodes && kind in FollowsIn(b.Kind())
    ensures a in shown
  {
    assert Follows(Edge(a, b, kind), b.Kind(), b, a);
    assert GraphStep(g, b, a) && Reached(g, shown, a);
  }

  /** How a shown node that is no root was reached. */
  lemma ReachedBy(g: Graph, shown: set<NodeID>, id: NodeID) returns (a: NodeID, e: Edge)
    requires IsShown(g, shown) && id in shown && !RootID(g, id)
    ensures a in shown && e in g.edges && Follows(e, a.Kind(), a, id)
  {
    assert Reached(g, shown, id);
    a :| a in shown && GraphStep(g, a, id);
    e :| e in g.edges && Follows(e, a.Kind(), a, id);
  }

  /** Every Ingress, Gateway and route is shown. */
  lemma TrafficShown(g: Graph, shown: set<NodeID>, id: NodeID)
    requires IsShown(g, shown) && id in g.nodes && (id.IngressID? || id.GatewayID? || IsRoute(id))
    ensures id in shown
  {
    assert Reached(g, shown, id);
  }

  /** The kinds of edges that lead to a Pod, forwards. */
  lemma IntoPod(e: Edge, a: NodeID, id: NodeID)
    requires Typed(e) && Follows(e, a.Kind(), a, id) && id.PodID?
    ensures e == Edge(a, id, e.kind) && e.kind in {Selects, SliceEdge, EndpointEdge}
  {
  }

  lemma OutToPod(e: Edge)
    requires Typed(e) && e.kind in {Selects, SliceEdge, EndpointEdge}
    ensures e.kind in FollowsOut(e.source.Kind())
  {
  }

  /** A Pod is shown exactly when a shown Service selects it or lists it as an
      endpoint; sharing a machine with a shown Pod is not enough. */
  lemma PodShown(g: Graph, shown: set<NodeID>, pod: Key)
    requires Shaped(g) && IsShown(g, shown) && PodID(pod) in g.nodes
    ensures PodID(pod) in shown <==> LedTo(g, shown, PodID(pod), {Selects, SliceEdge, EndpointEdge})
  {
    var id := PodID(pod);
    if id in shown {
      var a, e := ReachedBy(g, shown, id);
      IntoPod(e, a, id);
      assert LeadsTo(g, shown, a, id, e.kind);
    }
    if LedTo(g, shown, id, {Selects, SliceEdge, EndpointEdge}) {
      var a, kind :| LeadsTo(g, shown, a, id, kind) && kind in {Selects, SliceEdge, EndpointEdge};
      OutToPod(Edge(a, id, kind));
      StepFrom(g, shown, a, id, kind);
    }
  }

  lemma IntoService(e: Edge, a: NodeID, id: NodeID)
    requires Typed(e) && Follows(e, a.Kind(), a, id) && id.ServiceID?
    ensures e == Edge(a, id, e.kind) && e.kind in {Routes, CanaryEdge, Forwards, Balances}
  {
  }

  lemma OutToService(e: Edge)
    requires Typed(e) && e.kind in {Routes, CanaryEdge, Forwards, Balances}
    ensures e.kind in FollowsOut(e.source.Kind())
  {
  }

  /** A Service is shown exactly when a shown route, node port or load balancer
      leads to it. */
  lemma ServiceShown(g: Graph, shown: set<NodeID>, service: Key)
    requires Shaped(g) && IsShown(g, shown) && ServiceID(service) in g.nodes
    ensures ServiceID(service) in shown <==> LedTo(g, shown, ServiceID(service), {Routes, CanaryEdge, Forwards, Balances})
  {
    var id := ServiceID(service);
    if id in shown {
      var a, e := ReachedBy(g, shown, id);
      IntoService(e, a, id);
      assert LeadsTo(g, shown, a, id, e.kind);
    }
    if LedTo(g, shown, id, {Routes, CanaryEdge, Forwards, Balances}) {
      var a, kind :| LeadsTo(g, shown, a, id, kind) && kind in {Routes, CanaryEdge, Forwards, Balances};
      OutToService(Edge(a, id, kind));
      StepFrom(g, shown, a, id, kind);
    }
  }

  lemma IntoMachine(e: Edge, a: NodeID, id: NodeID)
    requires Typed(e) && Follows(e, a.Kind(), a, id) && id.MachineID?
    ensures a.PodID? && e == Edge(id, a, Hosts)
  {
  }

  /** A machine is shown exactly when it hosts a shown Pod. */
  lemma MachineShown(g: Graph, shown: set<NodeID>, machine: string)
    requires Shaped(g) && IsShown(g, shown) && MachineID(machine) in g.nodes
    ensures MachineID(machine) in shown <==>
              exists pod :: PodID(pod) in shown && Edge(MachineID(machine), PodID(pod), Hosts) in g.edges
  {
    var id := MachineID(machine);
    if id in shown {
      var a, e := ReachedBy(g, shown, id);
      IntoMachine(e, a, id);
      assert PodID(a.pod) in shown && Edge(id, PodID(a.pod), Hosts) in g.edges;
    }
    if pod :| PodID(pod) in shown && Edge(id, PodID(pod), Hosts) in g.edges {
      StepBack(g, shown, id, PodID(pod), Hosts);
    }
  }

  lemma IntoController(e: Edge, a: NodeID, id: NodeID)
    requires Typed(e) && Follows(e, a.Kind(), a, id) && id.Kind() == ControllerKind
    ensures e == Edge(id, a, Controls) || (e == Edge(a, id, e.kind) && e.kind in {Forwards, Balances})
  {
  }

  lemma ControlsBack(e: Edge)
    requires Typed(e) && e.kind == Controls
    ensures Controls in FollowsIn(e.target.Kind())
  {
  }

  /** A controller is shown exactly when it controls a shown Ingress or Gateway, or
      a shown node port or load balancer leads to it. */
  lemma ControllerShown(g: Graph, shown: set<NodeID>, id: NodeID)
    requires Shaped(g) && IsShown(g, shown) && id in g.nodes && id.Kind() == ControllerKind
    ensures id in shown <==>
              || LedTo(g, shown, id, {Forwards, Balances})
              || exists b :: b in shown && Edge(id, b, Controls) in g.edges
  {
    if id in shown {
      var a, e := ReachedBy(g, shown, id);
      IntoController(e, a, id);
      assert e.target == id ==> LeadsTo(g, shown, a, id, e.kind);
    }
    if LedTo(g, shown, id, {Forwards, Balances}) {
      var a, kind :| LeadsTo(g, shown, a, id, kind) && kind in {Forwards, Balances};
      OutToService(Edge(a, id, kind));
      StepFrom(g, shown, a, id, kind);
    }
    if b :| b in shown && Edge(id, b, Controls) in g.edges {
      ControlsBack(Edge(id, b, Controls));
      StepBack(g, shown, id, b, Controls);
    }
  }

  // ---- what the build draws behind an Ingress ----

  /** The build leads from every Service to the Pods it selects. */
  lemma PodOfService(c: Cluster, service: Key, pod: Pod)
    requires pod in ServicePods(c, service)
    ensures pod in c.pods && Edge(ServiceID(service), PodID(pod.key), Selects) in Build(c).edges
  {
    var e := Edge(ServiceID(service), PodID(pod.key), Selects);
    IndexMember(c.services, ServiceKey);
    var s := Services(c)[service];
    FilterMember(c.pods, SelectedBy(s));
    assert Selected(c, s, pod, e);
    assert BackendsDrawn(c, e);
    EdgesExactly(c, e);
  }

  /** The build leads from every route to its Service, when that exists. */
  lemma BackendBuilt(c: Cluster, i: Ingress, route: Route)
    requires i in c.ingresses && route in IngressRoutes(i) && RouteService(i, route) in Services(c)
    ensures Edge(IngressRouteID(i.key, route.id), ServiceID(RouteService(i, route)), Routes) in Build(c).edges
  {
    var e := Edge(IngressRouteID(i.key, route.id), ServiceID(RouteService(i, route)), Routes);
    RouteEdgeDrawn(c, i, route, e);
    EdgesExactly(c, e);
  }

  lemma RouteEdgeDrawn(c: Cluster, i: Ingress, route: Route, e: Edge)
    requires i in c.ingresses && route in IngressRoutes(i) && RouteRouted(c, i, route, e)
    ensures Drawn(c, e)
  {
    assert RouteDrawn(c, i, route, e);
    assert SomeRouteDrawn(c, i, e);
    assert IngressDrawn(c, i, e);
    assert TrafficDrawn(c, e);
  }
}
