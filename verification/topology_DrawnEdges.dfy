/** The built graph without its pieces: for every possible edge and node, the
    objects of the cluster that put it there. */
module DrawnEdges {
  import opened Collections
  import opened Kube
  import opened NodeIDs
  import opened EndpointModel
  import opened ControllerModel
  import opened Overlaps
  import opened Topology
  import opened Builder
  import opened DrawnEndpoints
  import Sorting
  import Text

  lemma SumEdges<T>(xs: seq<T>, piece: T -> Graph, e: Edge)
    ensures e in Sum(xs, piece).edges <==> exists x :: x in xs && e in piece(x).edges
  {
    if e in Sum(xs, piece).edges {
      var x := SumEdge(xs, piece, e);
    }
    if x :| x in xs && e in piece(x).edges {
      SumHasEdge(xs, piece, x, e);
    }
  }

  lemma PlusEdges4(a: Graph, b: Graph, c: Graph, d: Graph, e: Edge)
    ensures e in a.Plus(b).Plus(c).Plus(d).edges <==> e in a.edges || e in b.edges || e in c.edges || e in d.edges
  {
    PlusEdges(a, b, e);
    PlusEdges(a.Plus(b), c, e);
    PlusEdges(a.Plus(b).Plus(c), d, e);
  }

  // ---- workloads ----

  predicate Hosted(c: Cluster, pod: Pod, e: Edge) {
    pod.nodeName != "" && pod.nodeName in MachineNames(c) && e == Edge(MachineID(pod.nodeName), PodID(pod.key), Hosts)
  }

  predicate NamedOutside(s: Service, e: Edge) {
    s.kind == ExternalName && s.externalName != "" && e == Edge(ServiceID(s.key), ExternalNameID(s.key), ExternalNameEdge)
  }

  ghost predicate WorkloadDrawn(c: Cluster, e: Edge) {
    || (exists pod :: pod in c.pods && Hosted(c, pod, e))
    || (exists s :: s in c.services && NamedOutside(s, e))
  }

  lemma WorkloadEdges(c: Cluster, e: Edge)
    ensures e in Workloads(c).edges <==> WorkloadDrawn(c, e)
  {
    SumEdges(c.machines, MachinePiece, e);
    SumEdges(c.pods, PodPiece(c), e);
    SumEdges(c.services, ServicePiece, e);
    forall pod ensures e in PodPiece(c)(pod).edges <==> Hosted(c, pod, e) {
    }
    forall s ensures e in ServicePiece(s).edges <==> NamedOutside(s, e) {
    }
    var machines, pods := Sum(c.machines, MachinePiece), Sum(c.pods, PodPiece(c));
    PlusEdges(machines, pods, e);
    PlusEdges(machines.Plus(pods), Sum(c.services, ServicePiece), e);
  }

  // ---- exposure ----

  predicate PortExposed(s: Service, port: ServicePort, e: Edge) {
    && s.kind == LoadBalancer && port.nodePort != 0
    && e == Edge(ServiceLBID(s.key), NodePortID(s.key, port.NameForID()), Exposes)
  }

  predicate PortForwarded(s: Service, target: NodeID, port: ServicePort, e: Edge) {
    s.Exposed() && port.nodePort != 0 && e == Edge(NodePortID(s.key, port.NameForID()), target, Forwards)
  }

  predicate DirectlyBalanced(s: Service, target: NodeID, e: Edge) {
    s.kind == LoadBalancer && !HasNodePort(s) && e == Edge(ServiceLBID(s.key), target, Balances)
  }

  ghost predicate ServiceExposed(c: Cluster, s: Service, e: Edge) {
    || (exists port :: port in s.ports && PortExposed(s, port, e))
    || (exists port :: port in s.ports && PortForwarded(s, ExposureTarget(c, s), port, e))
    || DirectlyBalanced(s, ExposureTarget(c, s), e)
  }

  ghost predicate ExposureDrawn(c: Cluster, e: Edge) {
    exists s :: s in c.services && ServiceExposed(c, s, e)
  }

  lemma PortEdges(c: Cluster, s: Service, port: ServicePort, target: NodeID, e: Edge)
    requires s.Exposed() && target == ExposureTarget(c, s)
    ensures e in PortPiece(c, s)(port).edges <==> PortExposed(s, port, e) || PortForwarded(s, target, port, e)
  {
    var id := NodePortID(s.key, port.NameForID());
    var self, forwards := OneNode(id, NodePortInfo(s, port)), OneEdge(id, target, Forwards, "NodePort");
    var exposes := if s.kind == LoadBalancer then OneEdge(ServiceLBID(s.key), id, Exposes, "LoadBalancer") else EMPTY_GRAPH;
    PlusEdges(self, exposes, e);
    PlusEdges(self.Plus(exposes), forwards, e);
    assert PortPiece(c, s)(port) == if port.nodePort == 0 then EMPTY_GRAPH else self.Plus(exposes).Plus(forwards);
  }

  lemma ServiceExposureEdges(c: Cluster, s: Service, e: Edge)
    ensures e in ExposurePiece(c)(s).edges <==> ServiceExposed(c, s, e)
  {
    var target := ExposureTarget(c, s);
    if s.Exposed() {
      forall port ensures e in PortPiece(c, s)(port).edges <==> PortExposed(s, port, e) || PortForwarded(s, target, port, e) {
        PortEdges(c, s, port, target, e);
      }
      SumEdges(s.ports, PortPiece(c, s), e);
      if s.kind == LoadBalancer {
        var self, ports := OneNode(ServiceLBID(s.key), ServiceLBInfo(s)), Sum(s.ports, PortPiece(c, s));
        var balances := if HasNodePort(s) then EMPTY_GRAPH else OneEdge(ServiceLBID(s.key), target, Balances, "LoadBalancer");
        PlusEdges(self, ports, e);
        PlusEdges(self.Plus(ports), balances, e);
        assert ExposurePiece(c)(s) == self.Plus(ports).Plus(balances);
      }
    }
  }

  lemma ExposureEdges(c: Cluster, e: Edge)
    ensures e in Exposure(c).edges <==> ExposureDrawn(c, e)
  {
    SumEdges(c.ingresses, StatusPiece(c), e);
    SumEdges(c.services, ExposurePiece(c), e);
    forall i ensures e !in StatusPiece(c)(i).edges {
    }
    forall s ensures e in ExposurePiece(c)(s).edges <==> ServiceExposed(c, s, e) {
      ServiceExposureEdges(c, s, e);
    }
    PlusEdges(Sum(c.ingresses, StatusPiece(c)), Sum(c.services, ExposurePiece(c)), e);
  }

  // ---- Ingresses ----

  predicate HostResolves(hosts: seq<string>, target: NodeID, e: Edge) {
    e.source.DNSID? && e.source.host in hosts && e.source.host != "" && e.target == target && e.kind == Resolves
  }

  lemma HostEdges(hosts: seq<string>, target: NodeID, e: Edge)
    ensures e in Sum(hosts, DNSPiece(target)).edges <==> HostResolves(hosts, target, e)
  {
    SumEdges(hosts, DNSPiece(target), e);
    forall h ensures e in DNSPiece(target)(h).edges <==> h != "" && e == Edge(DNSID(h), target, Resolves) {
    }
  }

  /** The source is the node of one of the addresses. */
  ghost predicate Among(addresses: seq<string>, id: string -> NodeID, source: NodeID) {
    exists a :: a in addresses && source == id(a)
  }

  lemma AddressEdges(addresses: seq<string>, piece: string -> Graph, id: string -> NodeID, target: NodeID, e: Edge)
    requires forall a :: piece(a).edges.Keys == {Edge(id(a), target, Fronts)}
    ensures e in Sum(addresses, piece).edges <==> e.target == target && e.kind == Fronts && Among(addresses, id, e.source)
  {
    SumEdges(addresses, piece, e);
    if e.target == target && e.kind == Fronts && Among(addresses, id, e.source) {
      var a :| a in addresses && e.source == id(a);
      assert e in piece(a).edges.Keys;
    }
  }

  function IngressAddressID(key: Key): string -> NodeID {
    (a: string) => IngressLBID(key, Text.SafeID(a))
  }

  ghost predicate IngressFronted(i: Ingress, e: Edge) {
    e.target == IngressID(i.key) && e.kind == Fronts && Among(IngressAddresses(i), IngressAddressID(i.key), e.source)
  }

  lemma IngressAddressEdge(i: Ingress, a: string)
    ensures IngressAddressPiece(i)(a).edges.Keys == {Edge(IngressAddressID(i.key)(a), IngressID(i.key), Fronts)}
  {
  }

  lemma IngressAddressEdges(i: Ingress, e: Edge)
    ensures e in Sum(IngressAddresses(i), IngressAddressPiece(i)).edges <==> IngressFronted(i, e)
  {
    forall a ensures IngressAddressPiece(i)(a).edges.Keys == {Edge(IngressAddressID(i.key)(a), IngressID(i.key), Fronts)} {
      IngressAddressEdge(i, a);
    }
    AddressEdges(IngressAddresses(i), IngressAddressPiece(i), IngressAddressID(i.key), IngressID(i.key), e);
  }

  ghost predicate IngressControlled(c: Cluster, i: Ingress, e: Edge) {
    ControllerOf(c, i) == Some(e.source) && e.target == IngressID(i.key) && e.kind == Controls
  }

  lemma ControllerEdges(c: Cluster, i: Ingress, e: Edge)
    ensures e in ControllerPiece(c, i).edges <==> IngressControlled(c, i, e)
  {
  }

  /** Some canary the route node shows leads to an existing Service. */
  ghost predicate CanaryDrawn(c: Cluster, canaries: seq<CanaryLink>, route: NodeID, e: Edge) {
    && e.source == route && e.kind == CanaryEdge
    && exists l :: l in canaries && LinksService(c, l, e.target)
  }

  predicate LinksService(c: Cluster, l: CanaryLink, target: NodeID) {
    var service := RouteService(l.canary.ingress, l.canary.route);
    service in Services(c) && target == ServiceID(service)
  }

  lemma CanaryEdges(c: Cluster, canaries: seq<CanaryLink>, route: NodeID, e: Edge)
    ensures e in Sum(canaries, CanaryPiece(c, route)).edges <==> CanaryDrawn(c, canaries, route, e)
  {
    SumEdges(canaries, CanaryPiece(c, route), e);
    forall l ensures e in CanaryPiece(c, route)(l).edges <==>
        e.source == route && e.kind == CanaryEdge && LinksService(c, l, e.target)
    {
    }
  }

  predicate RouteRouted(c: Cluster, i: Ingress, route: Route, e: Edge) {
    && RouteService(i, route) in Services(c)
    && e == Edge(IngressRouteID(i.key, route.id), ServiceID(RouteService(i, route)), Routes)
  }

  ghost function ShownCanaries(c: Cluster, i: Ingress, route: Route): seq<CanaryLink> {
    OverlapAt(ClusterOverlaps(c), IngressRouteID(i.key, route.id)).canaries
  }

  ghost predicate RouteDrawn(c: Cluster, i: Ingress, route: Route, e: Edge) {
    || CanaryDrawn(c, ShownCanaries(c, i, route), IngressRouteID(i.key, route.id), e)
    || e == Edge(IngressID(i.key), IngressRouteID(i.key, route.id), Defines)
    || RouteRouted(c, i, route, e)
  }

  lemma RouteBackendEdges(c: Cluster, i: Ingress, route: Route, e: Edge)
    ensures e in RouteBackend(c, i, route).edges <==> RouteRouted(c, i, route, e)
    ensures e !in RouteNode(c, i, route).edges
  {
  }

  lemma RouteEdges(c: Cluster, i: Ingress, route: Route, e: Edge)
    ensures e in RoutePiece(c, i)(route).edges <==> RouteDrawn(c, i, route, e)
  {
    var id, canaries := IngressRouteID(i.key, route.id), ShownCanaries(c, i, route);
    CanaryEdges(c, canaries, id, e);
    RouteBackendEdges(c, i, route, e);
    PlusEdges4(RouteNode(c, i, route), Sum(canaries, CanaryPiece(c, id)),
               OneEdge(IngressID(i.key), id, Defines, route.EdgeLabel()), RouteBackend(c, i, route), e);
  }

  ghost predicate SomeRouteDrawn(c: Cluster, i: Ingress, e: Edge) {
    exists route :: route in IngressRoutes(i) && RouteDrawn(c, i, route, e)
  }

  ghost predicate IngressDrawn(c: Cluster, i: Ingress, e: Edge) {
    || HostResolves(IngressHosts(i), IngressID(i.key), e)
    || IngressFronted(i, e)
    || IngressControlled(c, i, e)
    || SomeRouteDrawn(c, i, e)
  }

  lemma RoutesEdges(c: Cluster, i: Ingress, e: Edge)
    ensures e in Sum(IngressRoutes(i), RoutePiece(c, i)).edges <==> SomeRouteDrawn(c, i, e)
  {
    SumEdges(IngressRoutes(i), RoutePiece(c, i), e);
    forall route ensures e in RoutePiece(c, i)(route).edges <==> RouteDrawn(c, i, route, e) {
      RouteEdges(c, i, route, e);
    }
  }

  lemma WithHosts(front: Graph, hosts: seq<string>, target: NodeID, e: Edge)
    ensures e in front.Plus(Sum(hosts, DNSPiece(target))).edges <==> e in front.edges || HostResolves(hosts, target, e)
  {
    HostEdges(hosts, target, e);
    PlusEdges(front, Sum(hosts, DNSPiece(target)), e);
  }

  lemma WithAddresses(front: Graph, i: Ingress, e: Edge)
    ensures e in front.Plus(Sum(IngressAddresses(i), IngressAddressPiece(i))).edges <==> e in front.edges || IngressFronted(i, e)
  {
    IngressAddressEdges(i, e);
    PlusEdges(front, Sum(IngressAddresses(i), IngressAddressPiece(i)), e);
  }

  lemma WithController(front: Graph, c: Cluster, i: Ingress, e: Edge)
    ensures e in front.Plus(ControllerPiece(c, i)).edges <==> e in front.edges || IngressControlled(c, i, e)
  {
    ControllerEdges(c, i, e);
    PlusEdges(front, ControllerPiece(c, i), e);
  }

  lemma WithRoutes(front: Graph, c: Cluster, i: Ingress, e: Edge)
    ensures e in front.Plus(Sum(IngressRoutes(i), RoutePiece(c, i))).edges <==> e in front.edges || SomeRouteDrawn(c, i, e)
  {
    RoutesEdges(c, i, e);
    PlusEdges(front, Sum(IngressRoutes(i), RoutePiece(c, i)), e);
  }

  lemma IngressEdges(c: Cluster, i: Ingress, e: Edge)
    ensures e in IngressPiece(c)(i).edges <==> IngressDrawn(c, i, e)
  {
    var self := OneNode(IngressID(i.key), IngressInfo(i));
    var hosts := self.Plus(Sum(IngressHosts(i), DNSPiece(IngressID(i.key))));
    var addresses := hosts.Plus(Sum(IngressAddresses(i), IngressAddressPiece(i)));
    WithHosts(self, IngressHosts(i), IngressID(i.key), e);
    WithAddresses(hosts, i, e);
    WithController(addresses, c, i, e);
    WithRoutes(addresses.Plus(ControllerPiece(c, i)), c, i, e);
  }

  // ---- Gateway API and F5 ----

  predicate ClassControls(c: Cluster, r: ExternalResource, e: Edge) {
    && r.className != "" && ExternalKey(GatewayClass, Key("", r.className)) in ExternalKeys(c)
    && e == Edge(GatewayClassControllerID(r.className), GatewayID(r.key), Controls)
  }

  function GatewayAddressID(key: Key): string -> NodeID {
    (a: string) => GatewayLBID(key, Text.SafeID(a))
  }

  ghost predicate GatewayFronted(r: ExternalResource, e: Edge) {
    e.target == GatewayID(r.key) && e.kind == Fronts && Among(r.addresses, GatewayAddressID(r.key), e.source)
  }

  ghost predicate GatewayDrawn(c: Cluster, r: ExternalResource, e: Edge) {
    ClassControls(c, r, e) || GatewayFronted(r, e) || HostResolves(r.hostnames, GatewayID(r.key), e)
  }

  lemma GatewayAddressEdge(r: ExternalResource, a: string)
    ensures GatewayAddressPiece(r)(a).edges.Keys == {Edge(GatewayAddressID(r.key)(a), GatewayID(r.key), Fronts)}
  {
  }

  lemma GatewayAddressEdges(r: ExternalResource, e: Edge)
    ensures e in Sum(r.addresses, GatewayAddressPiece(r)).edges <==> GatewayFronted(r, e)
  {
    forall a ensures GatewayAddressPiece(r)(a).edges.Keys == {Edge(GatewayAddressID(r.key)(a), GatewayID(r.key), Fronts)} {
      GatewayAddressEdge(r, a);
    }
    AddressEdges(r.addresses, GatewayAddressPiece(r), GatewayAddressID(r.key), GatewayID(r.key), e);
  }

  lemma ClassEdges(c: Cluster, r: ExternalResource, e: Edge)
    ensures e in GatewayClassEdge(c, r).edges <==> ClassControls(c, r, e)
  {
  }

  lemma GatewayEdges(c: Cluster, r: ExternalResource, e: Edge)
    ensures e in GatewayPiece(c, r).edges <==> GatewayDrawn(c, r, e)
  {
    var self, class_ := OneNode(GatewayID(r.key), GatewayInfo(r)), GatewayClassEdge(c, r);
    ClassEdges(c, r, e);
    GatewayAddressEdges(r, e);
    PlusEdges(self, class_, e);
    PlusEdges(self.Plus(class_), Sum(r.addresses, GatewayAddressPiece(r)), e);
    WithHosts(self.Plus(class_).Plus(Sum(r.addresses, GatewayAddressPiece(r))), r.hostnames, GatewayID(r.key), e);
  }

  predicate ParentAttached(c: Cluster, r: ExternalResource, p: ParentRef, e: Edge) {
    var reference := ParentReference(c, r)(p);
    reference.Resolved? && e == Edge(GatewayID(reference.key), GatewayRouteID(r.kind, r.key), AttachmentKind(r))
  }

  predicate BackendRouted(c: Cluster, r: ExternalResource, b: BackendRef, e: Edge) {
    var reference := BackendReference(c, r)(b);
    reference.Resolved? && e == Edge(GatewayRouteID(r.kind, r.key), ServiceID(reference.key), Routes)
  }

  ghost predicate GatewayRouteDrawn(c: Cluster, r: ExternalResource, e: Edge) {
    || (exists p :: p in r.parents && ParentAttached(c, r, p, e))
    || (exists b :: b in r.backends && BackendRouted(c, r, b, e))
    || HostResolves(r.hostnames, GatewayRouteID(r.kind, r.key), e)
  }

  lemma ParentEdges(c: Cluster, r: ExternalResource, p: ParentRef, e: Edge)
    ensures e in ParentPiece(c, r)(p).edges <==> ParentAttached(c, r, p, e)
  {
    var reference := ParentReference(c, r)(p);
    assert ParentPiece(c, r)(p) ==
      if reference.Resolved?
      then OneEdge(GatewayID(reference.key), GatewayRouteID(r.kind, r.key), AttachmentKind(r), r.kind.Text())
      else EMPTY_GRAPH;
  }

  lemma BackendEdges(c: Cluster, r: ExternalResource, b: BackendRef, e: Edge)
    ensures e in BackendPiece(c, r)(b).edges <==> BackendRouted(c, r, b, e)
  {
    var reference := BackendReference(c, r)(b);
    assert BackendPiece(c, r)(b) ==
      if reference.Resolved? then OneEdge(GatewayRouteID(r.kind, r.key), ServiceID(reference.key), Routes, r.kind.Text())
      else EMPTY_GRAPH;
  }

  lemma GatewayRouteEdges(c: Cluster, r: ExternalResource, e: Edge)
    ensures e in GatewayRoutePiece(c, r).edges <==> GatewayRouteDrawn(c, r, e)
  {
    SumEdges(r.parents, ParentPiece(c, r), e);
    forall p ensures e in ParentPiece(c, r)(p).edges <==> ParentAttached(c, r, p, e) {
      ParentEdges(c, r, p, e);
    }
    SumEdges(r.backends, BackendPiece(c, r), e);
    forall b ensures e in BackendPiece(c, r)(b).edges <==> BackendRouted(c, r, b, e) {
      BackendEdges(c, r, b, e);
    }
    HostEdges(r.hostnames, GatewayRouteID(r.kind, r.key), e);
    PlusEdges4(Sum(r.parents, ParentPiece(c, r)), Sum(r.backends, BackendPiece(c, r)), GatewayRouteNode(c, r),
               Sum(r.hostnames, DNSPiece(GatewayRouteID(r.kind, r.key))), e);
  }

  /** The F5 resource names the Service as a backend or selects it. */
  ghost predicate BalancesTo(c: Cluster, r: ExternalResource, service: Key) {
    && service in Services(c)
    && ((exists b :: b in r.backends && IsServiceBackend(b) && BackendKey(b, r) == service)
        || ResourceSelects(r, Services(c)[service]))
  }

  ghost predicate F5Drawn(c: Cluster, r: ExternalResource, e: Edge) {
    || HostResolves(r.hostnames, ExternalLBID(r.kind, r.key), e)
    || (e.source == ExternalLBID(r.kind, r.key) && e.kind == Balances && e.target.ServiceID?
        && BalancesTo(c, r, e.target.service))
  }

  lemma F5Edges(c: Cluster, r: ExternalResource, e: Edge)
    ensures e in F5Piece(c, r).edges <==> F5Drawn(c, r, e)
  {
    var id := ExternalLBID(r.kind, r.key);
    HostEdges(r.hostnames, id, e);
    SumEdges(r.backends, F5BackendPiece(c, r), e);
    forall b ensures e in F5BackendPiece(c, r)(b).edges <==>
        IsServiceBackend(b) && BackendKey(b, r) in Services(c) && e == Edge(id, ServiceID(BackendKey(b, r)), Balances)
    {
    }
    PlusEdges4(OneNode(id, ExternalLBInfo(r)), Sum(r.hostnames, DNSPiece(id)), Sum(r.backends, F5BackendPiece(c, r)),
               Fan(id, SelectedServices(c, r), Balances, r.kind.Text()), e);
    FanEdges(id, SelectedServices(c, r), Balances, r.kind.Text(), e);
  }

  lemma FanEdges(source: NodeID, targets: set<NodeID>, kind: EdgeKind, text: string, e: Edge)
    ensures e in Fan(source, targets, kind, text).edges <==> e.source == source && e.kind == kind && e.target in targets
  {
    if e.source == source && e.kind == kind && e.target in targets {
      assert e == Edge(source, e.target, kind);
    }
  }

  ghost predicate ExternalDrawn(c: Cluster, r: ExternalResource, e: Edge) {
    if r.kind == Gateway then GatewayDrawn(c, r, e)
    else if r.kind.IsRoute() then GatewayRouteDrawn(c, r, e)
    else r.kind.IsF5() && F5Drawn(c, r, e)
  }

  lemma ClassOnly(r: ExternalResource, e: Edge)
    ensures e !in GatewayClassPiece(r).edges
  {
  }

  lemma GatewayIsPiece(c: Cluster, r: ExternalResource)
    requires r.kind == Gateway
    ensures ExternalPiece(c)(r) == GatewayPiece(c, r)
  {
  }

  lemma GatewayKindEdges(c: Cluster, r: ExternalResource, e: Edge)
    requires r.kind == Gateway
    ensures e in ExternalPiece(c)(r).edges <==> GatewayDrawn(c, r, e)
  {
    GatewayIsPiece(c, r);
    GatewayEdges(c, r, e);
  }

  lemma OtherKindEdges(c: Cluster, r: ExternalResource, e: Edge)
    requires r.kind != Gateway && !r.kind.IsRoute() && !r.kind.IsF5()
    ensures e !in ExternalPiece(c)(r).edges
  {
    ClassOnly(r, e);
  }

  lemma RouteKindEdges(c: Cluster, r: ExternalResource, e: Edge)
    requires r.kind.IsRoute()
    ensures e in ExternalPiece(c)(r).edges <==> GatewayRouteDrawn(c, r, e)
  {
    GatewayRouteEdges(c, r, e);
  }

  lemma F5KindEdges(c: Cluster, r: ExternalResource, e: Edge)
    requires r.kind.IsF5()
    ensures e in ExternalPiece(c)(r).edges <==> F5Drawn(c, r, e)
  {
    F5Edges(c, r, e);
  }

  lemma ExternalEdges(c: Cluster, r: ExternalResource, piece: Graph, e: Edge)
    requires piece == ExternalPiece(c)(r)
    ensures e in piece.edges <==> ExternalDrawn(c, r, e)
  {
    if r.kind.IsF5() {
      F5KindEdges(c, r, e);
      assert ExternalDrawn(c, r, e) == F5Drawn(c, r, e);
    } else if r.kind.IsRoute() {
      RouteKindEdges(c, r, e);
      assert ExternalDrawn(c, r, e) == GatewayRouteDrawn(c, r, e);
    } else if r.kind == Gateway {
      GatewayKindEdges(c, r, e);
      assert ExternalDrawn(c, r, e) == GatewayDrawn(c, r, e);
    } else {
      OtherKindEdges(c, r, e);
    }
  }

  ghost predicate TrafficDrawn(c: Cluster, e: Edge) {
    || (exists i :: i in c.ingresses && IngressDrawn(c, i, e))
    || (exists r :: r in c.external && ExternalDrawn(c, r, e))
  }

  lemma TrafficEdges(c: Cluster, e: Edge)
    ensures e in Traffic(c).edges <==> TrafficDrawn(c, e)
  {
    SumEdges(c.ingresses, IngressPiece(c), e);
    forall i ensures e in IngressPiece(c)(i).edges <==> IngressDrawn(c, i, e) {
      IngressEdges(c, i, e);
    }
    SumEdges(c.external, ExternalPiece(c), e);
    forall r ensures e in ExternalPiece(c)(r).edges <==> ExternalDrawn(c, r, e) {
      ExternalEdges(c, r, ExternalPiece(c)(r), e);
    }
    PlusEdges(Sum(c.ingresses, IngressPiece(c)), Sum(c.external, ExternalPiece(c)), e);
  }

  // ---- Services, Pods and endpoints ----

  ghost predicate Selected(c: Cluster, s: Service, pod: Pod, e: Edge) {
    pod in SelectedPods(c.pods, s) && e == Edge(ServiceID(s.key), PodID(pod.key), Selects)
  }

  lemma SelectEdges(c: Cluster, s: Service, e: Edge)
    ensures e in SelectPiece(c)(s).edges <==> exists pod :: Selected(c, s, pod, e)
  {
    var pods := PodKeys(SelectedPods(c.pods, s));
    PodFanEdges(ServiceID(s.key), pods, Selects, "Selector", e);
    if e in SelectPiece(c)(s).edges {
      var pod :| pod in SelectedPods(c.pods, s) && pod.key == e.target.pod;
      assert Selected(c, s, pod, e);
    }
  }

  /** An address of a drawn slice. */
  ghost predicate SliceDrawn(c: Cluster, s: EndpointSlice, service: Key, e: Edge) {
    && SliceService(s) == Some(service) && Selectorless(c, service)
    && exists endpoint, a :: DrawnFor(c, s, service, e, endpoint, a)
  }

  /** An address of drawn legacy Endpoints. */
  ghost predicate LegacyDrawn(c: Cluster, endpoints: Endpoints, e: Edge) {
    && Selectorless(c, endpoints.key) && !HasSlice(c.slices, endpoints.key)
    && exists a :: a in LegacyAddresses(endpoints) && e == LegacyEdge(c, endpoints, a)
  }

  lemma SliceEdges(c: Cluster, s: EndpointSlice, e: Edge)
    ensures e in SlicePiece(c)(s).edges <==> exists service :: SliceDrawn(c, s, service, e)
  {
    if SliceService(s).Some? && Selectorless(c, SliceService(s).value) {
      SliceDrawsEachAddressOnce(c, s, SliceService(s).value, e);
      assert SliceDrawn(c, s, SliceService(s).value, e) <==> e in SlicePiece(c)(s).edges;
    }
  }

  lemma LegacyEdges(c: Cluster, endpoints: Endpoints, e: Edge)
    ensures e in LegacyPiece(c)(endpoints).edges <==> LegacyDrawn(c, endpoints, e)
  {
    if Selectorless(c, endpoints.key) && !HasSlice(c.slices, endpoints.key) {
      LegacyDrawsEachAddressOnce(c, endpoints, e);
    }
  }

  ghost predicate BackendsDrawn(c: Cluster, e: Edge) {
    || (exists s, pod :: s in c.services && Selected(c, s, pod, e))
    || (exists s, service :: s in c.slices && SliceDrawn(c, s, service, e))
    || (exists endpoints :: endpoints in c.endpoints && LegacyDrawn(c, endpoints, e))
  }

  lemma BackendsEdges(c: Cluster, e: Edge)
    ensures e in Backends(c).edges <==> BackendsDrawn(c, e)
  {
    SumEdges(c.services, SelectPiece(c), e);
    forall s ensures e in SelectPiece(c)(s).edges <==> exists pod :: Selected(c, s, pod, e) {
      SelectEdges(c, s, e);
    }
    SumEdges(c.slices, SlicePiece(c), e);
    forall s ensures e in SlicePiece(c)(s).edges <==> exists service :: SliceDrawn(c, s, service, e) {
      SliceEdges(c, s, e);
    }
    SumEdges(c.endpoints, LegacyPiece(c), e);
    forall endpoints ensures e in LegacyPiece(c)(endpoints).edges <==> LegacyDrawn(c, endpoints, e) {
      LegacyEdges(c, endpoints, e);
    }
    PlusEdges(Sum(c.services, SelectPiece(c)), Sum(c.slices, SlicePiece(c)), e);
    PlusEdges(Sum(c.services, SelectPiece(c)).Plus(Sum(c.slices, SlicePiece(c))), Sum(c.endpoints, LegacyPiece(c)), e);
  }

  // ---- the whole graph ----

  /** Some object of the cluster accounts for the edge. */
  ghost predicate Drawn(c: Cluster, e: Edge) {
    WorkloadDrawn(c, e) || ExposureDrawn(c, e) || TrafficDrawn(c, e) || BackendsDrawn(c, e)
  }

  lemma ControllerNodesOnly(c: Cluster, e: Edge)
    ensures e !in ControllerNodes(c).edges
  {
    SumEdges(c.classes, ClassPiece, e);
    SumEdges(AnnotationNames(c), AnnotationPiece, e);
  }

  /** The build has an edge exactly when some object of the cluster accounts for
      it. */
  lemma EdgesExactly(c: Cluster, e: Edge)
    ensures e in Build(c).edges <==> Drawn(c, e)
  {
    ControllerNodesOnly(c, e);
    WorkloadEdges(c, e);
    ExposureEdges(c, e);
    TrafficEdges(c, e);
    BackendsEdges(c, e);
    PlusEdges4(ControllerNodes(c), Workloads(c), Exposure(c), Traffic(c), e);
    PlusEdges(ControllerNodes(c).Plus(Workloads(c)).Plus(Exposure(c)).Plus(Traffic(c)), Backends(c), e);
  }
}
