/** Which Services of a cluster are published, and the published graph of a build
    told as a whole. */
module PublishedServices {
  import opened Collections
  import opened Kube
  import opened NodeIDs
  import opened Overlaps
  import opened OverlapMembers
  import opened Topology
  import opened Builder
  import opened DrawnEdges
  import opened DrawnNodes
  import opened GraphShapes
  import opened Scoping
  import opened ScopedPruning
  import opened PublishedTraffic
  import opened PublishedCluster
  import opened PublishedExposure

  /** An Ingress route names the Service as its backend. */
  ghost predicate NamedByIngress(c: Cluster, service: Key) {
    exists i, route :: i in c.ingresses && NamesService(i, route, service)
  }

  predicate NamesService(i: Ingress, route: Route, service: Key) {
    route in IngressRoutes(i) && RouteService(i, route) == service
  }

  /** A backend reference of a Gateway API route resolves to the Service. */
  ghost predicate NamedByGateway(c: Cluster, service: Key) {
    exists r, b :: r in c.external && ResolvesTo(c, r, b, service)
  }

  predicate ResolvesTo(c: Cluster, r: ExternalResource, b: BackendRef, service: Key) {
    r.kind.IsRoute() && b in r.backends && BackendReference(c, r)(b) == Resolved(service)
  }

  /** A published F5 resource balances to the Service. */
  ghost predicate BalancedByF5(c: Cluster, shown: set<NodeID>, service: Key) {
    exists r :: r in c.external && r.kind.IsF5() && ExternalLBID(r.kind, r.key) in shown && BalancesTo(c, r, service)
  }

  // ---- who leads to a Service ----

  lemma RoutedByIngress(c: Cluster, i: Ingress, e: Edge, service: Key)
    requires i in c.ingresses && IngressDrawn(c, i, e) && e.kind == Routes && e.target == ServiceID(service)
    ensures NamedByIngress(c, service)
  {
    IngressRouteKinds(c, i, e);
    var route :| route in IngressRoutes(i) && RouteDrawn(c, i, route, e);
    RoutedRoute(c, i, route, e);
    assert NamesService(i, route, service);
  }

  lemma RoutedRoute(c: Cluster, i: Ingress, route: Route, e: Edge)
    requires RouteDrawn(c, i, route, e)
    ensures e.kind == Routes ==> RouteRouted(c, i, route, e)
    ensures e.kind == CanaryEdge ==> exists l :: l in ShownCanaries(c, i, route) && LinksService(c, l, e.target)
  {
  }

  lemma RoutedByGateway(c: Cluster, r: ExternalResource, e: Edge, service: Key)
    requires r in c.external && ExternalDrawn(c, r, e) && e.kind == Routes && e.target == ServiceID(service)
    ensures NamedByGateway(c, service)
  {
    ExternalKinds(c, r, e);
    var b :| b in r.backends && BackendRouted(c, r, b, e);
    assert ResolvesTo(c, r, b, service);
  }

  lemma NoExternalCanary(c: Cluster, r: ExternalResource, e: Edge)
    requires ExternalDrawn(c, r, e)
    ensures e.kind != CanaryEdge
  {
    ExternalKinds(c, r, e);
  }

  lemma LinkNames(c: Cluster, i: Ingress, route: Route, l: CanaryLink, service: Key)
    requires l in ShownCanaries(c, i, route) && LinksService(c, l, ServiceID(service))
    ensures NamedByIngress(c, service)
  {
    OverlapLinks(Members(c.ingresses, IngressControllers(c)), IngressRouteID(i.key, route.id), l);
    MembersFrom(c.ingresses, IngressControllers(c));
    assert NamesService(l.canary.ingress, l.canary.route, service);
  }

  /** A canary split leads to a Service that the canary's own route names. */
  lemma SplitByIngress(c: Cluster, i: Ingress, e: Edge, service: Key)
    requires i in c.ingresses && IngressDrawn(c, i, e) && e.kind == CanaryEdge && e.target == ServiceID(service)
    ensures NamedByIngress(c, service)
  {
    IngressRouteKinds(c, i, e);
    var route :| route in IngressRoutes(i) && RouteDrawn(c, i, route, e);
    RoutedRoute(c, i, route, e);
    var l :| l in ShownCanaries(c, i, route) && LinksService(c, l, e.target);
    LinkNames(c, i, route, l, service);
  }

  lemma RoutedNames(c: Cluster, e: Edge, service: Key)
    requires Drawn(c, e) && e.kind in {Routes, CanaryEdge} && e.target == ServiceID(service)
    ensures NamedByIngress(c, service) || NamedByGateway(c, service)
  {
    OnlyTraffic(c, e);
    if i :| i in c.ingresses && IngressDrawn(c, i, e) {
      if e.kind == Routes {
        RoutedByIngress(c, i, e, service);
      } else {
        SplitByIngress(c, i, e, service);
      }
    } else {
      var r :| r in c.external && ExternalDrawn(c, r, e);
      NoExternalCanary(c, r, e);
      RoutedByGateway(c, r, e, service);
    }
  }

  lemma BalancedOnly(c: Cluster, e: Edge, service: Key)
    requires Drawn(c, e) && e.kind == Balances && e.source.ExternalLBID? && e.target == ServiceID(service)
    ensures exists r ::
              r in c.external && r.kind.IsF5() && e.source == ExternalLBID(r.kind, r.key) && BalancesTo(c, r, service)
  {
    OnlyTraffic(c, e);
    if i :| i in c.ingresses && IngressDrawn(c, i, e) {
      IngressKinds(c, i, e);
    } else {
      var r :| r in c.external && ExternalDrawn(c, r, e);
      ExternalKinds(c, r, e);
    }
  }

  /** The exposures that lead straight to a Service are its own, and those are
      hidden. */
  lemma NotByExposure(c: Cluster, g: Graph, shown: set<NodeID>, e: Edge, service: Key)
    requires IsBuild(c, g) && PlainBalancers(g) && IsShown(g, shown) && IsLeast(g, shown) && UniqueServices(c.services)
    requires e in g.edges && e.kind in {Forwards, Balances} && !e.source.ExternalLBID? && e.target == ServiceID(service)
    ensures e.source !in shown
  {
    EdgeIsDrawn(c, g, e);
    OnlyExposure(c, e);
    var s :| s in c.services && ServiceExposed(c, s, e);
    ServiceExposureEnds(c, s, ExposureTarget(c, s), e);
    ExposureHidden(c, g, shown, s, ExposureTarget(c, s));
  }

  lemma LedNames(c: Cluster, g: Graph, shown: set<NodeID>, a: NodeID, kind: EdgeKind, service: Key)
    requires IsBuild(c, g) && PlainBalancers(g) && IsShown(g, shown) && IsLeast(g, shown) && UniqueServices(c.services)
    requires LeadsTo(g, shown, a, ServiceID(service), kind) && kind in {Routes, CanaryEdge, Forwards, Balances}
    ensures NamedByIngress(c, service) || NamedByGateway(c, service) || BalancedByF5(c, shown, service)
  {
    var e := Edge(a, ServiceID(service), kind);
    EdgeIsDrawn(c, g, e);
    if kind in {Routes, CanaryEdge} {
      RoutedNames(c, e, service);
    } else if a.ExternalLBID? {
      DrawnTyped(c, e);
      BalancedOnly(c, e, service);
    } else {
      NotByExposure(c, g, shown, e, service);
    }
  }

  // ---- a named Service is shown ----

  lemma RouteInBuild(c: Cluster, g: Graph, i: Ingress, route: Route)
    requires IsBuild(c, g) && i in c.ingresses && route in IngressRoutes(i)
    ensures IngressRouteID(i.key, route.id) in g.nodes
  {
    var id := IngressRouteID(i.key, route.id);
    assert RouteNodeOf(i, id);
    assert IngressNode(i, id);
    assert TrafficNode(c, id);
  }

  lemma IngressLeads(c: Cluster, g: Graph, shown: set<NodeID>, service: Key)
    requires IsBuild(c, g) && IsShown(g, shown) && service in Services(c) && NamedByIngress(c, service)
    ensures LedTo(g, shown, ServiceID(service), {Routes, CanaryEdge, Forwards, Balances})
  {
    var i, route :| i in c.ingresses && NamesService(i, route, service);
    var id := IngressRouteID(i.key, route.id);
    RouteInBuild(c, g, i, route);
    TrafficShown(g, shown, id);
    RouteEdgeDrawn(c, i, route, Edge(id, ServiceID(service), Routes));
    EdgeIsDrawn(c, g, Edge(id, ServiceID(service), Routes));
    assert LeadsTo(g, shown, id, ServiceID(service), Routes);
  }

  lemma GatewayRouteInBuild(c: Cluster, g: Graph, r: ExternalResource)
    requires IsBuild(c, g) && r in c.external && r.kind.IsRoute()
    ensures GatewayRouteID(r.kind, r.key) in g.nodes
  {
    assert ExternalNode(r, GatewayRouteID(r.kind, r.key));
    assert TrafficNode(c, GatewayRouteID(r.kind, r.key));
  }

  lemma BackendEdgeIn(c: Cluster, g: Graph, r: ExternalResource, b: BackendRef, service: Key)
    requires IsBuild(c, g) && r in c.external && ResolvesTo(c, r, b, service)
    ensures Edge(GatewayRouteID(r.kind, r.key), ServiceID(service), Routes) in g.edges
  {
    var e := Edge(GatewayRouteID(r.kind, r.key), ServiceID(service), Routes);
    assert BackendRouted(c, r, b, e);
    assert GatewayRouteDrawn(c, r, e);
    assert ExternalDrawn(c, r, e);
    assert TrafficDrawn(c, e);
  }

  lemma GatewayLeads(c: Cluster, g: Graph, shown: set<NodeID>, service: Key)
    requires IsBuild(c, g) && IsShown(g, shown) && NamedByGateway(c, service)
    ensures LedTo(g, shown, ServiceID(service), {Routes, CanaryEdge, Forwards, Balances})
  {
    var r, b :| r in c.external && ResolvesTo(c, r, b, service);
    var id := GatewayRouteID(r.kind, r.key);
    GatewayRouteInBuild(c, g, r);
    TrafficShown(g, shown, id);
    BackendEdgeIn(c, g, r, b, service);
    assert LeadsTo(g, shown, id, ServiceID(service), Routes);
  }

  lemma F5EdgeIn(c: Cluster, g: Graph, r: ExternalResource, service: Key)
    requires IsBuild(c, g) && r in c.external && r.kind.IsF5() && BalancesTo(c, r, service)
    ensures Edge(ExternalLBID(r.kind, r.key), ServiceID(service), Balances) in g.edges
  {
    var e := Edge(ExternalLBID(r.kind, r.key), ServiceID(service), Balances);
    assert F5Drawn(c, r, e);
    assert ExternalDrawn(c, r, e);
    assert TrafficDrawn(c, e);
  }

  lemma F5Leads(c: Cluster, g: Graph, shown: set<NodeID>, service: Key)
    requires IsBuild(c, g) && BalancedByF5(c, shown, service)
    ensures LedTo(g, shown, ServiceID(service), {Routes, CanaryEdge, Forwards, Balances})
  {
    var r :| r in c.external && r.kind.IsF5() && ExternalLBID(r.kind, r.key) in shown && BalancesTo(c, r, service);
    F5EdgeIn(c, g, r, service);
    assert LeadsTo(g, shown, ExternalLBID(r.kind, r.key), ServiceID(service), Balances);
  }

  lemma ServiceInBuild(c: Cluster, g: Graph, service: Key)
    requires IsBuild(c, g) && service in Services(c)
    ensures ServiceID(service) in g.nodes
  {
    assert WorkloadNode(c, ServiceID(service));
  }

  ghost predicate Named(c: Cluster, shown: set<NodeID>, service: Key) {
    NamedByIngress(c, service) || NamedByGateway(c, service) || BalancedByF5(c, shown, service)
  }

  lemma NamedLeads(c: Cluster, g: Graph, shown: set<NodeID>, service: Key)
    requires IsBuild(c, g) && IsShown(g, shown) && service in Services(c) && Named(c, shown, service)
    ensures LedTo(g, shown, ServiceID(service), {Routes, CanaryEdge, Forwards, Balances})
  {
    if NamedByIngress(c, service) {
      IngressLeads(c, g, shown, service);
    } else if NamedByGateway(c, service) {
      GatewayLeads(c, g, shown, service);
    } else {
      F5Leads(c, g, shown, service);
    }
  }

  lemma LedBy(g: Graph, shown: set<NodeID>, service: Key) returns (a: NodeID, kind: EdgeKind)
    requires LedTo(g, shown, ServiceID(service), {Routes, CanaryEdge, Forwards, Balances})
    ensures LeadsTo(g, shown, a, ServiceID(service), kind) && kind in {Routes, CanaryEdge, Forwards, Balances}
  {
    a, kind :| LeadsTo(g, shown, a, ServiceID(service), kind) && kind in {Routes, CanaryEdge, Forwards, Balances};
  }

  lemma LeadsNamed(c: Cluster, g: Graph, shown: set<NodeID>, service: Key)
    requires IsBuild(c, g) && PlainBalancers(g) && IsShown(g, shown) && IsLeast(g, shown) && UniqueServices(c.services)
    requires LedTo(g, shown, ServiceID(service), {Routes, CanaryEdge, Forwards, Balances})
    ensures Named(c, shown, service)
  {
    var a, kind := LedBy(g, shown, service);
    LedNames(c, g, shown, a, kind, service);
  }

  /** A Service is published exactly when an Ingress route names it, a Gateway API
      route's reference to it resolves, or a published F5 resource balances to
      it; its own load balancer and node ports do not count. */
  lemma ServicePublished(c: Cluster, g: Graph, shown: set<NodeID>, service: Key)
    requires IsBuild(c, g) && Shaped(g) && PlainBalancers(g) && IsShown(g, shown) && IsLeast(g, shown)
    requires UniqueServices(c.services) && service in Services(c)
    ensures ServiceID(service) in shown <==> Named(c, shown, service)
  {
    ServiceInBuild(c, g, service);
    ServiceShown(g, shown, service);
    if LedTo(g, shown, ServiceID(service), {Routes, CanaryEdge, Forwards, Balances}) {
      LeadsNamed(c, g, shown, service);
    }
    if Named(c, shown, service) {
      NamedLeads(c, g, shown, service);
    }
  }

  // ---- a whole build ----

  /** The published nodes of a build, by what the lemmas above ask. */
  ghost predicate Publishes(c: Cluster, g: Graph, shown: set<NodeID>) {
    IsBuild(c, g) && Shaped(g) && PlainBalancers(g) && IsShown(g, shown) && IsLeast(g, shown)
  }

  lemma BuildPublishes(c: Cluster, g: Graph, order: IDOrder)
    requires g == Build(c)
    ensures Publishes(c, g, PublishedNodes(g, order))
  {
    BuildIs(c, g);
    BuildShaped(c);
    BuildPlainBalancers(c, g);
    ShownIs(g, order);
    ShownLeast(g, order);
  }

  ghost predicate TrafficRight(c: Cluster, shown: set<NodeID>) {
    && (forall i :: i in c.ingresses ==> IngressID(i.key) in shown)
    && (forall i, route :: i in c.ingresses && route in IngressRoutes(i) ==> IngressRouteID(i.key, route.id) in shown)
    && (forall r :: r in c.external && r.kind == Gateway ==> GatewayID(r.key) in shown)
    && (forall r :: r in c.external && r.kind.IsRoute() ==> GatewayRouteID(r.kind, r.key) in shown)
  }

  ghost predicate ServicesRight(c: Cluster, shown: set<NodeID>) {
    forall k :: k in Services(c) ==> (ServiceID(k) in shown <==> Named(c, shown, k))
  }

  ghost predicate PodsRight(c: Cluster, shown: set<NodeID>) {
    forall k :: k in PodKeys(c.pods) ==> (PodID(k) in shown <==> exists service :: ServedBy(c, shown, service, k))
  }

  ghost predicate MachinesRight(c: Cluster, shown: set<NodeID>) {
    forall m :: m in MachineNames(c) ==> (MachineID(m) in shown <==> HostsPublished(c, shown, m))
  }

  ghost predicate HostsPublished(c: Cluster, shown: set<NodeID>, machine: string) {
    machine != "" && exists pod :: pod in c.pods && pod.nodeName == machine && PodID(pod.key) in shown
  }

  ghost predicate ControllersRight(c: Cluster, shown: set<NodeID>) {
    forall id :: IsController(id) ==> (id in shown <==> ControlsIngress(c, id))
  }

  ghost predicate ExposuresRight(c: Cluster, shown: set<NodeID>) {
    forall s, id :: s in c.services && ServiceExposureNode(s, id) ==>
      (id in shown <==> IsController(ExposureTarget(c, s)) && ControlsIngress(c, ExposureTarget(c, s)))
  }

  lemma TrafficIsRight(c: Cluster, g: Graph, shown: set<NodeID>)
    requires Publishes(c, g, shown)
    ensures TrafficRight(c, shown)
  {
    forall i | i in c.ingresses ensures IngressID(i.key) in shown {
      IngressInBuild(c, g, i);
      TrafficShown(g, shown, IngressID(i.key));
    }
    forall i, route | i in c.ingresses && route in IngressRoutes(i) ensures IngressRouteID(i.key, route.id) in shown {
      RouteInBuild(c, g, i, route);
      TrafficShown(g, shown, IngressRouteID(i.key, route.id));
    }
    forall r | r in c.external && r.kind == Gateway ensures GatewayID(r.key) in shown {
      GatewayInBuild(c, g, r);
      TrafficShown(g, shown, GatewayID(r.key));
    }
    forall r | r in c.external && r.kind.IsRoute() ensures GatewayRouteID(r.kind, r.key) in shown {
      GatewayRouteInBuild(c, g, r);
      TrafficShown(g, shown, GatewayRouteID(r.kind, r.key));
    }
  }

  lemma ServicesAreRight(c: Cluster, g: Graph, shown: set<NodeID>)
    requires Publishes(c, g, shown) && UniqueServices(c.services)
    ensures ServicesRight(c, shown)
  {
    forall k | k in Services(c) ensures ServiceID(k) in shown <==> Named(c, shown, k) {
      ServicePublished(c, g, shown, k);
    }
  }

  lemma PodsAreRight(c: Cluster, g: Graph, shown: set<NodeID>)
    requires Publishes(c, g, shown)
    ensures PodsRight(c, shown)
  {
    forall k | k in PodKeys(c.pods) ensures PodID(k) in shown <==> exists service :: ServedBy(c, shown, service, k) {
      PodPublished(c, g, shown, k);
    }
  }

  lemma MachinesAreRight(c: Cluster, g: Graph, shown: set<NodeID>)
    requires Publishes(c, g, shown)
    ensures MachinesRight(c, shown)
  {
    forall m | m in MachineNames(c) ensures MachineID(m) in shown <==> HostsPublished(c, shown, m) {
      MachinePublished(c, g, shown, m);
    }
  }

  lemma ControllerIsRight(c: Cluster, g: Graph, shown: set<NodeID>, id: NodeID)
    requires Publishes(c, g, shown) && UniqueServices(c.services) && IsController(id)
    ensures id in shown <==> ControlsIngress(c, id)
  {
    if id in g.nodes {
      ControllerPublished(c, g, shown, id);
    } else {
      ControllerHere(c, g, id);
    }
  }

  lemma ExposureIsRight(c: Cluster, g: Graph, shown: set<NodeID>, s: Service, target: NodeID, id: NodeID)
    requires Publishes(c, g, shown) && UniqueServices(c.services)
    requires s in c.services && target == ExposureTarget(c, s) && ServiceExposureNode(s, id)
    ensures id in shown <==> IsController(target) && ControlsIngress(c, target)
  {
    ExposureExists(c, g, s, id);
    ExposurePublishedExactly(c, g, shown, s, target, id);
  }

  /** What NorthScope publishes of a cluster: all its traffic, the Services that
      traffic leads to, the Pods behind those, the machines under these, and the
      controllers of Ingresses with the exposures that lead to them. */
  lemma PublishedExactly(c: Cluster, g: Graph, order: IDOrder, shown: set<NodeID>)
    requires g == Build(c) && shown == PublishedNodes(g, order) && UniqueServices(c.services)
    ensures TrafficRight(c, shown) && ServicesRight(c, shown) && PodsRight(c, shown)
    ensures MachinesRight(c, shown) && ControllersRight(c, shown) && ExposuresRight(c, shown)
  {
    BuildPublishes(c, g, order);
    RightWhenPublished(c, g, shown);
  }

  lemma RightWhenPublished(c: Cluster, g: Graph, shown: set<NodeID>)
    requires Publishes(c, g, shown) && UniqueServices(c.services)
    ensures TrafficRight(c, shown) && ServicesRight(c, shown) && PodsRight(c, shown)
    ensures MachinesRight(c, shown) && ControllersRight(c, shown) && ExposuresRight(c, shown)
  {
    TrafficIsRight(c, g, shown);
    ServicesAreRight(c, g, shown);
    PodsAreRight(c, g, shown);
    MachinesAreRight(c, g, shown);
    forall id | IsController(id) ensures id in shown <==> ControlsIngress(c, id) {
      ControllerIsRight(c, g, shown, id);
    }
    forall s, id | s in c.services && ServiceExposureNode(s, id)
      ensures id in shown <==> IsController(ExposureTarget(c, s)) && ControlsIngress(c, ExposureTarget(c, s))
    {
      ExposureIsRight(c, g, shown, s, ExposureTarget(c, s), id);
    }
  }

  // ---- the snapshot ----

  ghost predicate Shows(s: Snapshot, id: NodeID) {
    exists n :: n in s.nodes && n.id == id
  }

  lemma SameIDs(a: seq<Node>, b: seq<Node>)
    requires WithoutRows(a) == WithoutRows(b)
    ensures |a| == |b| && forall k :: 0 <= k < |a| ==> a[k].id == b[k].id
  {
    assert |WithoutRows(a)| == |a| && |WithoutRows(b)| == |b|;
    forall k | 0 <= k < |a| ensures a[k].id == b[k].id {
      assert WithoutRows(a)[k].id == a[k].id && WithoutRows(b)[k].id == b[k].id;
    }
  }

  lemma ScopeShows(g: Graph, order: IDOrder, id: NodeID)
    ensures Shows(Scope(Render(g, order)), id) <==> id in PublishedNodes(g, order)
  {
    var s := Render(g, order);
    FilterMember(s.nodes, ShowsNode(Visible(s)));
  }

  /** A snapshot whose nodes are, rows aside, those of the scoped build shows
      exactly the published nodes; the pipeline's result is one. */
  lemma SnapshotShows(g: Graph, order: IDOrder, s: Snapshot, id: NodeID)
    requires WithoutRows(s.nodes) == WithoutRows(Scope(Render(g, order)).nodes)
    ensures Shows(s, id) <==> id in PublishedNodes(g, order)
  {
    var full := Scope(Render(g, order));
    SameIDs(s.nodes, full.nodes);
    ScopeShows(g, order, id);
    if Shows(s, id) {
      var k :| 0 <= k < |s.nodes| && s.nodes[k].id == id;
      assert full.nodes[k] in full.nodes;
    }
    if Shows(full, id) {
      var k :| 0 <= k < |full.nodes| && full.nodes[k].id == id;
      assert s.nodes[k] in s.nodes;
    }
  }
}
