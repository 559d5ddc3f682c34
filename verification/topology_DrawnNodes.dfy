/** The nodes of the built graph, each with the object of the cluster that put it
    there. */
module DrawnNodes {
  import opened Collections
  import opened Kube
  import opened NodeIDs
  import opened EndpointModel
  import opened ControllerModel
  import Overlaps
  import opened Topology
  import opened Builder
  import opened DrawnEndpoints
  import opened DrawnEdges
  import Sorting
  import Text

  lemma SumNodes<T>(xs: seq<T>, piece: T -> Graph, id: NodeID)
    ensures id in Sum(xs, piece).nodes <==> exists x :: x in xs && id in piece(x).nodes
  {
    if id in Sum(xs, piece).nodes {
      var x := SumNode(xs, piece, id);
    }
    if x :| x in xs && id in piece(x).nodes {
      SumHasNode(xs, piece, x, id);
    }
  }

  lemma PlusNodes(a: Graph, b: Graph, id: NodeID)
    ensures id in a.Plus(b).nodes <==> id in a.nodes || id in b.nodes
  {
  }

  lemma PlusNodes4(a: Graph, b: Graph, c: Graph, d: Graph, id: NodeID)
    ensures id in a.Plus(b).Plus(c).Plus(d).nodes <==> id in a.nodes || id in b.nodes || id in c.nodes || id in d.nodes
  {
    PlusNodes(a, b, id);
    PlusNodes(a.Plus(b), c, id);
    PlusNodes(a.Plus(b).Plus(c), d, id);
  }

  // ---- controllers and workloads ----

  predicate KnownClass(c: Cluster, id: NodeID) {
    id.ClassControllerID? && id.className in InferenceClasses(c.ingresses, ClassesByName(c))
  }

  lemma ClassNodes(c: Cluster, id: NodeID)
    ensures id in Sum(c.classes, ClassPiece).nodes <==> id.ClassControllerID? && id.className in ClassesByName(c)
  {
    SumNodes(c.classes, ClassPiece, id);
    IndexMember(c.classes, ClassName);
    forall cls ensures id in ClassPiece(cls).nodes <==> id == ClassControllerID(cls.name) {
    }
    if id.ClassControllerID? && id.className in ClassesByName(c) {
      assert id in ClassPiece(ClassesByName(c)[id.className]).nodes;
    }
  }

  lemma AnnotationNodes(c: Cluster, id: NodeID)
    ensures id in Sum(AnnotationNames(c), AnnotationPiece).nodes <==>
            id.ClassControllerID? && id.className in AnnotationClasses(c.ingresses, ClassesByName(c))
  {
    SumNodes(AnnotationNames(c), AnnotationPiece, id);
    Sorting.OrderedMembers(AnnotationClasses(c.ingresses, ClassesByName(c)), Sorting.Before);
    forall name ensures id in AnnotationPiece(name).nodes <==> id == ClassControllerID(name) {
    }
  }

  lemma ControllerNodesExactly(c: Cluster, id: NodeID)
    ensures id in ControllerNodes(c).nodes <==> KnownClass(c, id)
  {
    ClassNodes(c, id);
    AnnotationNodes(c, id);
    PlusNodes(Sum(c.classes, ClassPiece), Sum(AnnotationNames(c), AnnotationPiece), id);
  }

  ghost predicate HasExternalName(c: Cluster, key: Key) {
    exists s :: s in c.services && s.key == key && s.kind == ExternalName && s.externalName != ""
  }

  predicate MachineOrPod(c: Cluster, id: NodeID) {
    (id.MachineID? && id.machine in MachineNames(c)) || (id.PodID? && id.pod in PodKeys(c.pods))
  }

  ghost predicate ServiceOrName(c: Cluster, id: NodeID) {
    (id.ServiceID? && id.service in Services(c)) || (id.ExternalNameID? && HasExternalName(c, id.service))
  }

  ghost predicate WorkloadNode(c: Cluster, id: NodeID) {
    MachineOrPod(c, id) || ServiceOrName(c, id)
  }

  lemma MachineNodes(c: Cluster, id: NodeID)
    ensures id in Sum(c.machines, MachinePiece).nodes <==> id.MachineID? && id.machine in MachineNames(c)
  {
    SumNodes(c.machines, MachinePiece, id);
    CollectMember(c.machines, MachineName);
    forall m ensures id in MachinePiece(m).nodes <==> id.MachineID? && id.machine in MachineName(m) {
    }
  }

  lemma PodNodes(c: Cluster, id: NodeID)
    ensures id in Sum(c.pods, PodPiece(c)).nodes <==> id.PodID? && id.pod in PodKeys(c.pods)
  {
    SumNodes(c.pods, PodPiece(c), id);
    forall pod ensures id in PodPiece(c)(pod).nodes <==> id == PodID(pod.key) {
    }
  }

  predicate ServiceHasNode(s: Service, id: NodeID) {
    id == ServiceID(s.key) || (id == ExternalNameID(s.key) && s.kind == ExternalName && s.externalName != "")
  }

  lemma ServicePieceNodes(s: Service, id: NodeID)
    ensures id in ServicePiece(s).nodes <==> ServiceHasNode(s, id)
  {
  }

  lemma ServiceListed(c: Cluster, key: Key)
    ensures key in Services(c) <==> exists s :: s in c.services && s.key == key
  {
    IndexMember(c.services, ServiceKey);
    if key in Services(c) {
      assert Services(c)[key].key == key;
    }
  }

  lemma ServiceNodes(c: Cluster, id: NodeID)
    ensures id in Sum(c.services, ServicePiece).nodes <==> ServiceOrName(c, id)
  {
    SumNodes(c.services, ServicePiece, id);
    forall s ensures id in ServicePiece(s).nodes <==> ServiceHasNode(s, id) {
      ServicePieceNodes(s, id);
    }
    if id.ServiceID? {
      ServiceListed(c, id.service);
    }
  }

  lemma MachinesAndPods(c: Cluster, id: NodeID)
    ensures id in Sum(c.machines, MachinePiece).Plus(Sum(c.pods, PodPiece(c))).nodes <==> MachineOrPod(c, id)
  {
    MachineNodes(c, id);
    PodNodes(c, id);
    PlusNodes(Sum(c.machines, MachinePiece), Sum(c.pods, PodPiece(c)), id);
  }

  lemma WorkloadNodes(c: Cluster, id: NodeID)
    ensures id in Workloads(c).nodes <==> WorkloadNode(c, id)
  {
    MachinesAndPods(c, id);
    ServiceNodes(c, id);
    PlusNodes(Sum(c.machines, MachinePiece).Plus(Sum(c.pods, PodPiece(c))), Sum(c.services, ServicePiece), id);
  }

  // ---- exposure ----

  ghost predicate ExposesPort(s: Service, name: string) {
    s.Exposed() && exists port :: port in s.ports && port.nodePort != 0 && port.NameForID() == name
  }

  ghost predicate ServiceExposureNode(s: Service, id: NodeID) {
    || (s.kind == LoadBalancer && id == ServiceLBID(s.key))
    || (id.NodePortID? && id.service == s.key && ExposesPort(s, id.port))
  }

  ghost predicate ExposureNode(c: Cluster, id: NodeID) {
    || (id.StatusControllerID? && OwnedByStatus(c, id.service))
    || (exists s :: s in c.services && ServiceExposureNode(s, id))
  }

  lemma PortNodes(c: Cluster, s: Service, port: ServicePort, id: NodeID)
    ensures id in PortPiece(c, s)(port).nodes <==> port.nodePort != 0 && id == NodePortID(s.key, port.NameForID())
  {
    var portID := NodePortID(s.key, port.NameForID());
    var self, forwards := OneNode(portID, NodePortInfo(s, port)), OneEdge(portID, ExposureTarget(c, s), Forwards, "NodePort");
    var exposes := if s.kind == LoadBalancer then OneEdge(ServiceLBID(s.key), portID, Exposes, "LoadBalancer") else EMPTY_GRAPH;
    PlusNodes(self, exposes, id);
    PlusNodes(self.Plus(exposes), forwards, id);
    assert PortPiece(c, s)(port) == if port.nodePort == 0 then EMPTY_GRAPH else self.Plus(exposes).Plus(forwards);
  }

  lemma PortsNodes(c: Cluster, s: Service, id: NodeID)
    requires s.Exposed()
    ensures id in Sum(s.ports, PortPiece(c, s)).nodes <==> id.NodePortID? && id.service == s.key && ExposesPort(s, id.port)
  {
    SumNodes(s.ports, PortPiece(c, s), id);
    forall port ensures id in PortPiece(c, s)(port).nodes <==> port.nodePort != 0 && id == NodePortID(s.key, port.NameForID()) {
      PortNodes(c, s, port, id);
    }
  }

  lemma ServiceExposureNodes(c: Cluster, s: Service, id: NodeID)
    ensures id in ExposurePiece(c)(s).nodes <==> ServiceExposureNode(s, id)
  {
    if s.Exposed() {
      PortsNodes(c, s, id);
      if s.kind == LoadBalancer {
        var self, ports := OneNode(ServiceLBID(s.key), ServiceLBInfo(s)), Sum(s.ports, PortPiece(c, s));
        var balances := if HasNodePort(s) then EMPTY_GRAPH
                        else OneEdge(ServiceLBID(s.key), ExposureTarget(c, s), Balances, "LoadBalancer");
        PlusNodes(self, ports, id);
        PlusNodes(self.Plus(ports), balances, id);
        assert ExposurePiece(c)(s) == self.Plus(ports).Plus(balances);
      }
    }
  }

  lemma StatusNodes(c: Cluster, id: NodeID)
    ensures id in Sum(c.ingresses, StatusPiece(c)).nodes <==> id.StatusControllerID? && OwnedByStatus(c, id.service)
  {
    SumNodes(c.ingresses, StatusPiece(c), id);
    forall i ensures id in StatusPiece(c)(i).nodes <==> id.StatusControllerID? && StatusController(c, i) == Some(id) {
      StatusNode(c, i, id, StatusController(c, i));
    }
  }

  lemma StatusNode(c: Cluster, i: Ingress, id: NodeID, status: Option<NodeID>)
    requires status == StatusController(c, i)
    ensures id in StatusPiece(c)(i).nodes <==> id.StatusControllerID? && status == Some(id)
  {
  }

  lemma ExposureNodes(c: Cluster, id: NodeID)
    ensures id in Exposure(c).nodes <==> ExposureNode(c, id)
  {
    StatusNodes(c, id);
    SumNodes(c.services, ExposurePiece(c), id);
    forall s ensures id in ExposurePiece(c)(s).nodes <==> ServiceExposureNode(s, id) {
      ServiceExposureNodes(c, s, id);
    }
    PlusNodes(Sum(c.ingresses, StatusPiece(c)), Sum(c.services, ExposurePiece(c)), id);
  }

  // ---- Ingresses ----

  predicate HostNode(hosts: seq<string>, id: NodeID) {
    id.DNSID? && id.host in hosts && id.host != ""
  }

  lemma HostNodes(front: Graph, hosts: seq<string>, target: NodeID, id: NodeID)
    ensures id in front.Plus(Sum(hosts, DNSPiece(target))).nodes <==> id in front.nodes || HostNode(hosts, id)
  {
    SumNodes(hosts, DNSPiece(target), id);
    forall h ensures id in DNSPiece(target)(h).nodes <==> h != "" && id == DNSID(h) {
    }
    PlusNodes(front, Sum(hosts, DNSPiece(target)), id);
  }

  lemma AddressNodes(addresses: seq<string>, piece: string -> Graph, name: string -> NodeID, id: NodeID)
    requires forall a :: piece(a).nodes.Keys == {name(a)}
    ensures id in Sum(addresses, piece).nodes <==> Among(addresses, name, id)
  {
    SumNodes(addresses, piece, id);
    if Among(addresses, name, id) {
      var a :| a in addresses && id == name(a);
      assert id in piece(a).nodes.Keys;
    }
  }

  lemma IngressAddressNode(i: Ingress, a: string)
    ensures IngressAddressPiece(i)(a).nodes.Keys == {IngressAddressID(i.key)(a)}
  {
  }

  lemma IngressAddressNodes(front: Graph, i: Ingress, id: NodeID)
    ensures id in front.Plus(Sum(IngressAddresses(i), IngressAddressPiece(i))).nodes <==>
            id in front.nodes || Among(IngressAddresses(i), IngressAddressID(i.key), id)
  {
    forall a ensures IngressAddressPiece(i)(a).nodes.Keys == {IngressAddressID(i.key)(a)} {
      IngressAddressNode(i, a);
    }
    AddressNodes(IngressAddresses(i), IngressAddressPiece(i), IngressAddressID(i.key), id);
    PlusNodes(front, Sum(IngressAddresses(i), IngressAddressPiece(i)), id);
  }

  lemma ControllerPieceNodes(front: Graph, c: Cluster, i: Ingress, id: NodeID)
    ensures id in front.Plus(ControllerPiece(c, i)).nodes <==> id in front.nodes
  {
    assert id !in ControllerPiece(c, i).nodes;
    PlusNodes(front, ControllerPiece(c, i), id);
  }

  ghost predicate RouteNodeOf(i: Ingress, id: NodeID) {
    exists route :: route in IngressRoutes(i) && id == IngressRouteID(i.key, route.id)
  }

  lemma RouteNodes(c: Cluster, i: Ingress, route: Route, id: NodeID)
    ensures id in RoutePiece(c, i)(route).nodes <==> id == IngressRouteID(i.key, route.id)
  {
    var own := IngressRouteID(i.key, route.id);
    var canaries := ShownCanaries(c, i, route);
    CanaryNodes(c, canaries, own, id);
    RouteOnlyNode(c, i, route, id);
    PlusNodes4(RouteNode(c, i, route), Sum(canaries, CanaryPiece(c, own)),
               OneEdge(IngressID(i.key), own, Defines, route.EdgeLabel()), RouteBackend(c, i, route), id);
  }

  lemma RouteOnlyNode(c: Cluster, i: Ingress, route: Route, id: NodeID)
    ensures id in RouteNode(c, i, route).nodes <==> id == IngressRouteID(i.key, route.id)
    ensures id !in RouteBackend(c, i, route).nodes
  {
  }

  lemma CanaryNodes(c: Cluster, canaries: seq<Overlaps.CanaryLink>, route: NodeID, id: NodeID)
    ensures id !in Sum(canaries, CanaryPiece(c, route)).nodes
  {
    SumNodes(canaries, CanaryPiece(c, route), id);
  }

  lemma RoutesNodes(front: Graph, c: Cluster, i: Ingress, id: NodeID)
    ensures id in front.Plus(Sum(IngressRoutes(i), RoutePiece(c, i))).nodes <==> id in front.nodes || RouteNodeOf(i, id)
  {
    SumNodes(IngressRoutes(i), RoutePiece(c, i), id);
    forall route ensures id in RoutePiece(c, i)(route).nodes <==> id == IngressRouteID(i.key, route.id) {
      RouteNodes(c, i, route, id);
    }
    PlusNodes(front, Sum(IngressRoutes(i), RoutePiece(c, i)), id);
  }

  ghost predicate IngressNode(i: Ingress, id: NodeID) {
    || id == IngressID(i.key)
    || HostNode(IngressHosts(i), id)
    || Among(IngressAddresses(i), IngressAddressID(i.key), id)
    || RouteNodeOf(i, id)
  }

  lemma IngressNodes(c: Cluster, i: Ingress, id: NodeID)
    ensures id in IngressPiece(c)(i).nodes <==> IngressNode(i, id)
  {
    var self := OneNode(IngressID(i.key), IngressInfo(i));
    var hosts := self.Plus(Sum(IngressHosts(i), DNSPiece(IngressID(i.key))));
    var addresses := hosts.Plus(Sum(IngressAddresses(i), IngressAddressPiece(i)));
    HostNodes(self, IngressHosts(i), IngressID(i.key), id);
    IngressAddressNodes(hosts, i, id);
    ControllerPieceNodes(addresses, c, i, id);
    RoutesNodes(addresses.Plus(ControllerPiece(c, i)), c, i, id);
  }

  // ---- Gateway API and F5 ----

  lemma GatewayAddressNode(r: ExternalResource, a: string)
    ensures GatewayAddressPiece(r)(a).nodes.Keys == {GatewayAddressID(r.key)(a)}
  {
  }

  lemma GatewayAddressNodes(front: Graph, r: ExternalResource, id: NodeID)
    ensures id in front.Plus(Sum(r.addresses, GatewayAddressPiece(r))).nodes <==>
            id in front.nodes || Among(r.addresses, GatewayAddressID(r.key), id)
  {
    forall a ensures GatewayAddressPiece(r)(a).nodes.Keys == {GatewayAddressID(r.key)(a)} {
      GatewayAddressNode(r, a);
    }
    AddressNodes(r.addresses, GatewayAddressPiece(r), GatewayAddressID(r.key), id);
    PlusNodes(front, Sum(r.addresses, GatewayAddressPiece(r)), id);
  }

  ghost predicate GatewayNode(r: ExternalResource, id: NodeID) {
    id == GatewayID(r.key) || Among(r.addresses, GatewayAddressID(r.key), id) || HostNode(r.hostnames, id)
  }

  ghost predicate ExternalNode(r: ExternalResource, id: NodeID) {
    if r.kind == GatewayClass then id == GatewayClassControllerID(r.key.name)
    else if r.kind == Gateway then GatewayNode(r, id)
    else if r.kind.IsRoute() then id == GatewayRouteID(r.kind, r.key) || HostNode(r.hostnames, id)
    else r.kind.IsF5() && (id == ExternalLBID(r.kind, r.key) || HostNode(r.hostnames, id))
  }

  lemma GatewayNodes(c: Cluster, r: ExternalResource, id: NodeID)
    ensures id in GatewayPiece(c, r).nodes <==> GatewayNode(r, id)
  {
    var self, class_ := OneNode(GatewayID(r.key), GatewayInfo(r)), GatewayClassEdge(c, r);
    PlusNodes(self, class_, id);
    GatewayAddressNodes(self.Plus(class_), r, id);
    HostNodes(self.Plus(class_).Plus(Sum(r.addresses, GatewayAddressPiece(r))), r.hostnames, GatewayID(r.key), id);
  }

  lemma NoReferenceNodes(c: Cluster, r: ExternalResource, id: NodeID)
    ensures id !in Sum(r.parents, ParentPiece(c, r)).nodes && id !in Sum(r.backends, BackendPiece(c, r)).nodes
  {
    forall p ensures id !in ParentPiece(c, r)(p).nodes {
      var reference := ParentReference(c, r)(p);
    }
    SumNodes(r.parents, ParentPiece(c, r), id);
    forall b ensures id !in BackendPiece(c, r)(b).nodes {
      var reference := BackendReference(c, r)(b);
    }
    SumNodes(r.backends, BackendPiece(c, r), id);
  }

  lemma GatewayRouteNodes(c: Cluster, r: ExternalResource, id: NodeID)
    requires r.kind.IsRoute()
    ensures id in GatewayRoutePiece(c, r).nodes <==> id == GatewayRouteID(r.kind, r.key) || HostNode(r.hostnames, id)
  {
    var references := Sum(r.parents, ParentPiece(c, r)).Plus(Sum(r.backends, BackendPiece(c, r)));
    NoReferenceNodes(c, r, id);
    PlusNodes(Sum(r.parents, ParentPiece(c, r)), Sum(r.backends, BackendPiece(c, r)), id);
    PlusNodes(references, GatewayRouteNode(c, r), id);
    HostNodes(references.Plus(GatewayRouteNode(c, r)), r.hostnames, GatewayRouteID(r.kind, r.key), id);
  }

  lemma F5Nodes(c: Cluster, r: ExternalResource, id: NodeID)
    requires r.kind.IsF5()
    ensures id in F5Piece(c, r).nodes <==> id == ExternalLBID(r.kind, r.key) || HostNode(r.hostnames, id)
  {
    var own := ExternalLBID(r.kind, r.key);
    var hosts := OneNode(own, ExternalLBInfo(r)).Plus(Sum(r.hostnames, DNSPiece(own)));
    HostNodes(OneNode(own, ExternalLBInfo(r)), r.hostnames, own, id);
    SumNodes(r.backends, F5BackendPiece(c, r), id);
    PlusNodes(hosts, Sum(r.backends, F5BackendPiece(c, r)), id);
    PlusNodes(hosts.Plus(Sum(r.backends, F5BackendPiece(c, r))), Fan(own, SelectedServices(c, r), Balances, r.kind.Text()), id);
  }

  lemma ExternalNodes(c: Cluster, r: ExternalResource, piece: Graph, id: NodeID)
    requires piece == ExternalPiece(c)(r)
    ensures id in piece.nodes <==> ExternalNode(r, id)
  {
    if r.kind == Gateway {
      GatewayIsPiece(c, r);
      GatewayNodes(c, r, id);
    } else if r.kind.IsRoute() {
      GatewayRouteNodes(c, r, id);
    } else if r.kind.IsF5() {
      F5Nodes(c, r, id);
    }
  }

  ghost predicate IngressesNode(c: Cluster, id: NodeID) {
    exists i :: i in c.ingresses && IngressNode(i, id)
  }

  ghost predicate ExternalsNode(c: Cluster, id: NodeID) {
    exists r :: r in c.external && ExternalNode(r, id)
  }

  ghost predicate TrafficNode(c: Cluster, id: NodeID) {
    IngressesNode(c, id) || ExternalsNode(c, id)
  }

  lemma IngressesNodes(c: Cluster, id: NodeID)
    ensures id in Sum(c.ingresses, IngressPiece(c)).nodes <==> IngressesNode(c, id)
  {
    SumNodes(c.ingresses, IngressPiece(c), id);
    forall i ensures id in IngressPiece(c)(i).nodes <==> IngressNode(i, id) {
      IngressNodes(c, i, id);
    }
  }

  lemma ExternalsNodes(c: Cluster, id: NodeID)
    ensures id in Sum(c.external, ExternalPiece(c)).nodes <==> ExternalsNode(c, id)
  {
    SumNodes(c.external, ExternalPiece(c), id);
    forall r ensures id in ExternalPiece(c)(r).nodes <==> ExternalNode(r, id) {
      ExternalNodes(c, r, ExternalPiece(c)(r), id);
    }
  }

  lemma TrafficNodes(c: Cluster, id: NodeID)
    ensures id in Traffic(c).nodes <==> TrafficNode(c, id)
  {
    IngressesNodes(c, id);
    ExternalsNodes(c, id);
    PlusNodes(Sum(c.ingresses, IngressPiece(c)), Sum(c.external, ExternalPiece(c)), id);
  }

  // ---- endpoints outside the cluster's Pods ----

  ghost predicate SliceNode(c: Cluster, s: EndpointSlice, service: Key, e: SliceEndpoint, a: string, id: NodeID) {
    && e in s.endpoints && a in e.addresses && a != "" && ResolvePod(e.target, s.namespace, a, IndexPods(c.pods)).None?
    && id == SliceEndpointID(service, s.name, Text.SafeID(a))
  }

  ghost predicate SliceHasNode(c: Cluster, s: EndpointSlice, id: NodeID) {
    && SliceService(s).Some? && Selectorless(c, SliceService(s).value)
    && exists e, a :: SliceNode(c, s, SliceService(s).value, e, a, id)
  }

  lemma SliceAddressNode(c: Cluster, s: EndpointSlice, service: Key, e: SliceEndpoint, a: string, id: NodeID)
    requires e in s.endpoints && a in e.addresses
    ensures id in SliceAddressPiece(c, s, e, service)(a).nodes <==> SliceNode(c, s, service, e, a, id)
  {
  }

  lemma SliceAddressNodes(c: Cluster, s: EndpointSlice, service: Key, id: NodeID)
    ensures id in Sum(s.endpoints, SliceEndpointPiece(c, s, service)).nodes <==> exists e, a :: SliceNode(c, s, service, e, a, id)
  {
    if id in Sum(s.endpoints, SliceEndpointPiece(c, s, service)).nodes {
      var e := SumNode(s.endpoints, SliceEndpointPiece(c, s, service), id);
      var a := SumNode(e.addresses, SliceAddressPiece(c, s, e, service), id);
      SliceAddressNode(c, s, service, e, a, id);
    }
    if e, a :| SliceNode(c, s, service, e, a, id) {
      SliceAddressNode(c, s, service, e, a, id);
      SumHasNode(e.addresses, SliceAddressPiece(c, s, e, service), a, id);
      SumHasNode(s.endpoints, SliceEndpointPiece(c, s, service), e, id);
    }
  }

  lemma FanNodes(source: NodeID, targets: set<NodeID>, kind: EdgeKind, text: string, rest: Graph, id: NodeID)
    ensures id in Fan(source, targets, kind, text).Plus(rest).nodes <==> id in rest.nodes
  {
  }

  lemma SlicePieceNodes(c: Cluster, s: EndpointSlice, id: NodeID)
    ensures id in SlicePiece(c)(s).nodes <==> SliceHasNode(c, s, id)
  {
    if SliceService(s).Some? && Selectorless(c, SliceService(s).value) {
      var service := SliceService(s).value;
      SliceAddressNodes(c, s, service, id);
      FanNodes(ServiceID(service), PodIDs(SlicePods(s, IndexPods(c.pods))), SliceEdge, "EndpointSlice",
               Sum(s.endpoints, SliceEndpointPiece(c, s, service)), id);
    }
  }

  ghost predicate LegacyNode(c: Cluster, e: Endpoints, a: LegacyAddress, id: NodeID) {
    && a in LegacyAddresses(e) && a.address.ip != ""
    && ResolvePod(a.address.target, e.key.namespace, a.address.ip, IndexPods(c.pods)).None?
    && id == LegacyEndpointID(e.key, Text.SafeID(a.address.ip))
  }

  ghost predicate LegacyHasNode(c: Cluster, e: Endpoints, id: NodeID) {
    Selectorless(c, e.key) && !HasSlice(c.slices, e.key) && exists a :: LegacyNode(c, e, a, id)
  }

  lemma LegacyPieceNodes(c: Cluster, e: Endpoints, id: NodeID)
    ensures id in LegacyPiece(c)(e).nodes <==> LegacyHasNode(c, e, id)
  {
    if Selectorless(c, e.key) && !HasSlice(c.slices, e.key) {
      SumNodes(LegacyAddresses(e), LegacyAddressPiece(c, e), id);
      forall a | a in LegacyAddresses(e) ensures id in LegacyAddressPiece(c, e)(a).nodes <==> LegacyNode(c, e, a, id) {
      }
      FanNodes(ServiceID(e.key), PodIDs(LegacyPods(e, IndexPods(c.pods))), EndpointEdge, "Endpoints",
               Sum(LegacyAddresses(e), LegacyAddressPiece(c, e)), id);
    }
  }

  ghost predicate EndpointNode(c: Cluster, id: NodeID) {
    || (exists s :: s in c.slices && SliceHasNode(c, s, id))
    || (exists e :: e in c.endpoints && LegacyHasNode(c, e, id))
  }

  lemma SliceNodeKind(c: Cluster, s: EndpointSlice, id: NodeID)
    requires SliceHasNode(c, s, id)
    ensures id.SliceEndpointID?
  {
    var e, a :| SliceNode(c, s, SliceService(s).value, e, a, id);
  }

  lemma LegacyNodeKind(c: Cluster, e: Endpoints, id: NodeID)
    requires LegacyHasNode(c, e, id)
    ensures id.LegacyEndpointID?
  {
    var a :| LegacyNode(c, e, a, id);
  }

  /** Endpoint objects only give endpoint nodes. */
  lemma EndpointIs(c: Cluster, id: NodeID)
    requires EndpointNode(c, id)
    ensures id.SliceEndpointID? || id.LegacyEndpointID?
  {
    if s :| s in c.slices && SliceHasNode(c, s, id) {
      SliceNodeKind(c, s, id);
    } else {
      var e :| e in c.endpoints && LegacyHasNode(c, e, id);
      LegacyNodeKind(c, e, id);
    }
  }

  lemma BackendsNodes(c: Cluster, id: NodeID)
    ensures id in Backends(c).nodes <==> EndpointNode(c, id)
  {
    SumNodes(c.services, SelectPiece(c), id);
    SumNodes(c.slices, SlicePiece(c), id);
    forall s ensures id in SlicePiece(c)(s).nodes <==> SliceHasNode(c, s, id) {
      SlicePieceNodes(c, s, id);
    }
    SumNodes(c.endpoints, LegacyPiece(c), id);
    forall e ensures id in LegacyPiece(c)(e).nodes <==> LegacyHasNode(c, e, id) {
      LegacyPieceNodes(c, e, id);
    }
    PlusNodes(Sum(c.services, SelectPiece(c)), Sum(c.slices, SlicePiece(c)), id);
    PlusNodes(Sum(c.services, SelectPiece(c)).Plus(Sum(c.slices, SlicePiece(c))), Sum(c.endpoints, LegacyPiece(c)), id);
  }

  // ---- the whole graph ----

  ghost predicate DrawnNode(c: Cluster, id: NodeID) {
    KnownClass(c, id) || WorkloadNode(c, id) || ExposureNode(c, id) || TrafficNode(c, id) || EndpointNode(c, id)
  }

  /** The build has a node exactly when some object of the cluster accounts for
      it. */
  lemma NodesExactly(c: Cluster, id: NodeID)
    ensures id in Build(c).nodes <==> DrawnNode(c, id)
  {
    ControllerNodesExactly(c, id);
    WorkloadNodes(c, id);
    ExposureNodes(c, id);
    TrafficNodes(c, id);
    BackendsNodes(c, id);
    PlusNodes4(ControllerNodes(c), Workloads(c), Exposure(c), Traffic(c), id);
    PlusNodes(ControllerNodes(c).Plus(Workloads(c)).Plus(Exposure(c)).Plus(Traffic(c)), Backends(c), id);
  }
}
