/** What BuildTopologyWithOptions computes, as one graph piece per input object
    (builder.go, builder_nodes.go). */
module Builder {
  import opened Collections
  import opened Kube
  import opened NodeIDs
  import opened EndpointModel
  import opened ControllerModel
  import opened Overlaps
  import opened Diagnosis
  import opened Topology
  import Sorting
  import Text

  /** Everything a build reads. */
  datatype Cluster = Cluster(
    ingresses: seq<Ingress>, classes: seq<IngressClass>, services: seq<Service>, pods: seq<Pod>,
    machines: seq<Machine>, external: seq<ExternalResource>, endpoints: seq<Endpoints>,
    slices: seq<EndpointSlice>, watchNamespace: string)

  // ---- indexes ----

  function Services(c: Cluster): map<Key, Service> { IndexBy(c.services, ServiceKey) }

  function MachineName(m: Machine): set<string> { {m.name} }

  function MachineNames(c: Cluster): set<string> { Collect(c.machines, MachineName) }

  function SelectedBy(service: Service): Pod -> bool {
    (pod: Pod) => pod.key.namespace == service.key.namespace && SelectorSelects(service.selector, pod.labels)
  }

  /** matchingPodsForService */
  function SelectedPods(pods: seq<Pod>, service: Service): seq<Pod> {
    if service.selector == map[] then [] else Filter(pods, SelectedBy(service))
  }

  function ServicePods(c: Cluster, service: Key): seq<Pod> {
    match Lookup(Services(c), service)
    case Some(s) => SelectedPods(c.pods, s)
    case None => []
  }

  function ClassesByName(c: Cluster): Classes { IndexBy(c.classes, ClassName) }

  function ExternalSet(r: ExternalResource): set<ExternalKey> { {ExternalResourceKey(r)} }

  function ExternalKeys(c: Cluster): set<ExternalKey> { Collect(c.external, ExternalSet) }

  function IsGrant(r: ExternalResource): bool { r.kind == ReferenceGrant }

  function Grants(c: Cluster): seq<ExternalResource> { Filter(c.external, IsGrant) }

  // ---- controllers ----

  ghost function ServiceClass(c: Cluster, service: Service): Option<string> {
    MatchingClass(service, ServicePods(c, service.key), InferenceClasses(c.ingresses, ClassesByName(c)))
  }

  /** The controller inferred from an Ingress's status address. */
  ghost function StatusController(c: Cluster, ingress: Ingress): Option<NodeID> {
    if ControllerClass(ingress, ClassesByName(c)).Some? then None
    else
      match StatusService(ingress, c.services)
      case None => None
      case Some(service) =>
        match ServiceClass(c, service)
        case Some(name) => Some(ClassControllerID(name))
        case None => Some(StatusControllerID(service.key))
  }

  ghost function ControllerOf(c: Cluster, ingress: Ingress): Option<NodeID> {
    match ControllerClass(ingress, ClassesByName(c))
    case Some(name) => Some(ClassControllerID(name))
    case None => StatusController(c, ingress)
  }

  ghost predicate OwnedByStatus(c: Cluster, service: Key) {
    exists i :: i in c.ingresses && StatusController(c, i) == Some(StatusControllerID(service))
  }

  /** What an exposed Service's ports lead to. */
  ghost function ExposureTarget(c: Cluster, service: Service): NodeID {
    match ServiceClass(c, service)
    case Some(name) => ClassControllerID(name)
    case None =>
      if OwnedByStatus(c, service.key) then StatusControllerID(service.key) else ServiceID(service.key)
  }

  ghost function ControlledKey(c: Cluster): Ingress -> Option<Key> {
    (ingress: Ingress) => if ControllerOf(c, ingress).Some? then Some(ingress.key) else None
  }

  ghost function IngressControllers(c: Cluster): Controllers {
    var controlled := IndexBy(c.ingresses, ControlledKey(c));
    map k | k in controlled && ControllerOf(c, controlled[k]).Some? :: ControllerOf(c, controlled[k]).value
  }

  ghost function ClusterOverlaps(c: Cluster): map<NodeID, Overlap> {
    RouteOverlaps(Members(c.ingresses, IngressControllers(c)))
  }

  // ---- pieces ----

  function ClassPiece(cls: IngressClass): Graph {
    OneNode(ClassControllerID(cls.name), ControllerInfo(cls.name, cls.controller, "IngressClass", "Configured"))
  }

  function AnnotationPiece(name: string): Graph {
    OneNode(ClassControllerID(name), ControllerInfo(name, "", "kubernetes.io/ingress.class annotation", "Inferred"))
  }

  /** The annotation-only classes, sorted by name. */
  ghost function AnnotationNames(c: Cluster): seq<string> {
    Sorting.Ordered(AnnotationClasses(c.ingresses, ClassesByName(c)), Sorting.Before)
  }

  function MachinePiece(m: Machine): Graph {
    OneNode(MachineID(m.name), MachineInfo(m))
  }

  function PodPiece(c: Cluster): Pod -> Graph {
    (pod: Pod) =>
      OneNode(PodID(pod.key), PodInfo(pod)).Plus(
        if pod.nodeName != "" && pod.nodeName in MachineNames(c)
        then OneEdge(MachineID(pod.nodeName), PodID(pod.key), Hosts, "Node") else EMPTY_GRAPH)
  }

  function ServicePiece(s: Service): Graph {
    OneNode(ServiceID(s.key), ServiceInfo(s)).Plus(
      if s.kind == ExternalName && s.externalName != ""
      then OneNode(ExternalNameID(s.key), ExternalNameInfo(s))
             .Plus(OneEdge(ServiceID(s.key), ExternalNameID(s.key), ExternalNameEdge, "ExternalName"))
      else EMPTY_GRAPH)
  }

  ghost function StatusPiece(c: Cluster): Ingress -> Graph {
    (ingress: Ingress) =>
      match StatusController(c, ingress)
      case Some(StatusControllerID(service)) => OneNode(StatusControllerID(service), StatusControllerInfo(service))
      case _ => EMPTY_GRAPH
  }

  ghost function PortPiece(c: Cluster, s: Service): ServicePort -> Graph {
    (port: ServicePort) =>
      var id := NodePortID(s.key, port.NameForID());
      if port.nodePort == 0 then EMPTY_GRAPH
      else
        OneNode(id, NodePortInfo(s, port))
          .Plus(if s.kind == LoadBalancer then OneEdge(ServiceLBID(s.key), id, Exposes, "LoadBalancer") else EMPTY_GRAPH)
          .Plus(OneEdge(id, ExposureTarget(c, s), Forwards, "NodePort"))
  }

  predicate HasNodePort(s: Service) {
    exists p :: p in s.ports && p.nodePort != 0
  }

  ghost function ExposurePiece(c: Cluster): Service -> Graph {
    (s: Service) =>
      match s.kind
      case LoadBalancer =>
        OneNode(ServiceLBID(s.key), ServiceLBInfo(s))
          .Plus(Sum(s.ports, PortPiece(c, s)))
          .Plus(if HasNodePort(s) then EMPTY_GRAPH
                else OneEdge(ServiceLBID(s.key), ExposureTarget(c, s), Balances, "LoadBalancer"))
      case NodePort => Sum(s.ports, PortPiece(c, s))
      case _ => EMPTY_GRAPH
  }

  function DNSPiece(target: NodeID): string -> Graph {
    (host: string) =>
      if host == "" then EMPTY_GRAPH
      else OneNode(DNSID(host), DNSInfo(host)).Plus(OneEdge(DNSID(host), target, Resolves, "DNS"))
  }

  function RuleHost(r: Rule): seq<string> { if r.host == "" then [] else [r.host] }

  function IngressHosts(i: Ingress): seq<string> {
    Sorting.SortStrings(FlatMap(i.rules, RuleHost))
  }

  function IngressProvider(i: Ingress): string {
    if i.classAnnotation != "" then i.classAnnotation
    else if i.className.Some? then i.className.value
    else "Ingress"
  }

  function IngressAddressPiece(i: Ingress): string -> Graph {
    (address: string) =>
      var id := IngressLBID(i.key, Text.SafeID(address));
      OneNode(id, AddressInfo(i.key, address, IngressProvider(i)))
        .Plus(OneEdge(id, IngressID(i.key), Fronts, "Ingress status"))
  }

  ghost function ControllerPiece(c: Cluster, i: Ingress): Graph {
    match ControllerOf(c, i)
    case None => EMPTY_GRAPH
    case Some(id) =>
      OneEdge(id, IngressID(i.key), Controls,
              if ControllerClass(i, ClassesByName(c)).Some? then "IngressClass" else "Ingress status")
  }

  /** The Service key a route's backend names. */
  function RouteService(i: Ingress, route: Route): Key { Key(i.key.namespace, route.serviceName) }

  function RouteNonEndpointPods(c: Cluster, i: Ingress, route: Route): nat {
    var key := RouteService(i, route);
    match Lookup(Services(c), key)
    case None => 0
    case Some(s) =>
      match PortNameIn(s.ports, route.servicePort)
      case None => 0
      case Some(port) =>
        NonEndpointPods(ServicePods(c, key), PortPods(c.slices, c.endpoints, IndexPods(c.pods), key, port))
  }

  ghost function RouteDiagnosis(c: Cluster, i: Ingress, route: Route): Finding {
    var key := RouteService(i, route);
    Diagnose(route, ControllerOf(c, i).Some?, Lookup(Services(c), key), ServicePods(c, key),
             ServiceStats(c.slices, c.endpoints, key), RouteNonEndpointPods(c, i, route))
  }

  function CanaryPiece(c: Cluster, route: NodeID): CanaryLink -> Graph {
    (l: CanaryLink) =>
      var service := RouteService(l.canary.ingress, l.canary.route);
      if service in Services(c) then OneEdge(route, ServiceID(service), CanaryEdge, "canary " + l.canary.Rule())
      else EMPTY_GRAPH
  }

  /** The verdict the route node shows. */
  ghost function ShownFinding(c: Cluster, i: Ingress, route: Route): Finding {
    ApplyOverlap(RouteDiagnosis(c, i, route), OverlapAt(ClusterOverlaps(c), IngressRouteID(i.key, route.id)))
  }

  ghost function RouteNode(c: Cluster, i: Ingress, route: Route): Graph {
    var id := IngressRouteID(i.key, route.id);
    OneNode(id, IngressRouteInfo(route, ShownFinding(c, i, route),
                                 OverlapProperties(OverlapAt(ClusterOverlaps(c), id), i.key, route)))
  }

  function RouteBackend(c: Cluster, i: Ingress, route: Route): Graph {
    if RouteService(i, route) in Services(c)
    then OneEdge(IngressRouteID(i.key, route.id), ServiceID(RouteService(i, route)), Routes, "HTTP backend") else EMPTY_GRAPH
  }

  ghost function RoutePiece(c: Cluster, i: Ingress): Route -> Graph {
    (route: Route) =>
      var id := IngressRouteID(i.key, route.id);
      RouteNode(c, i, route)
        .Plus(Sum(OverlapAt(ClusterOverlaps(c), id).canaries, CanaryPiece(c, id)))
        .Plus(OneEdge(IngressID(i.key), id, Defines, route.EdgeLabel()))
        .Plus(RouteBackend(c, i, route))
  }

  ghost function IngressPiece(c: Cluster): Ingress -> Graph {
    (i: Ingress) =>
      OneNode(IngressID(i.key), IngressInfo(i))
        .Plus(Sum(IngressHosts(i), DNSPiece(IngressID(i.key))))
        .Plus(Sum(IngressAddresses(i), IngressAddressPiece(i)))
        .Plus(ControllerPiece(c, i))
        .Plus(Sum(IngressRoutes(i), RoutePiece(c, i)))
  }

  // ---- Gateway API and F5 ----

  predicate OutsideWatchScope(c: Cluster, namespace: string) {
    c.watchNamespace != "" && namespace != c.watchNamespace
  }

  function ParentReference(c: Cluster, r: ExternalResource): ParentRef -> Reference {
    (p: ParentRef) =>
      var key := ParentKey(p, r);
      if !IsGatewayParent(p) then Unsupported(p.kind, p.name)
      else if ExternalKey(Gateway, key) in ExternalKeys(c) then Resolved(key)
      else if OutsideWatchScope(c, key.namespace) then OutsideWatch(key)
      else Missing(key)
  }

  predicate FromMatches(f: GrantFrom, route: ExternalResource) {
    f.namespace == route.key.namespace && f.group == "gateway.networking.k8s.io" && Text.EqualFold(f.kind, route.kind.Text())
  }

  predicate ToMatches(t: GrantTo, backend: BackendRef) {
    (t.group == "" || t.group == "core") && Text.EqualFold(t.kind, "Service") && (t.name == "" || t.name == backend.name)
  }

  predicate GrantsFrom(grant: ExternalResource, route: ExternalResource) {
    exists f :: f in grant.grantFrom && FromMatches(f, route)
  }

  predicate GrantsTo(grant: ExternalResource, backend: BackendRef) {
    exists t :: t in grant.grantTo && ToMatches(t, backend)
  }

  /** backendReferenceGranted */
  predicate Granted(route: ExternalResource, backend: BackendRef, namespace: string, grants: seq<ExternalResource>) {
    exists g :: g in grants && g.key.namespace == namespace && GrantsFrom(g, route) && GrantsTo(g, backend)
  }

  function BackendReference(c: Cluster, r: ExternalResource): BackendRef -> Reference {
    (b: BackendRef) =>
      var key := BackendKey(b, r);
      if !IsServiceBackend(b) then Unsupported(b.kind, b.name)
      else if key !in Services(c) then
        if OutsideWatchScope(c, key.namespace) then OutsideWatch(key) else Missing(key)
      else if key.namespace != r.key.namespace && !Granted(r, b, key.namespace, Grants(c)) then NeedsGrant(key)
      else Resolved(key)
  }

  function References<T>(xs: seq<T>, f: T -> Reference): seq<Reference> {
    seq(|xs|, i requires 0 <= i < |xs| => f(xs[i]))
  }

  function AttachmentKind(r: ExternalResource): EdgeKind {
    if "accepted" in r.properties && r.properties["accepted"] == "False" then Rejected else Attaches
  }

  function ParentPiece(c: Cluster, r: ExternalResource): ParentRef -> Graph {
    (p: ParentRef) =>
      match ParentReference(c, r)(p)
      case Resolved(key) => OneEdge(GatewayID(key), GatewayRouteID(r.kind, r.key), AttachmentKind(r), r.kind.Text())
      case _ => EMPTY_GRAPH
  }

  function BackendPiece(c: Cluster, r: ExternalResource): BackendRef -> Graph {
    (b: BackendRef) =>
      match BackendReference(c, r)(b)
      case Resolved(key) => OneEdge(GatewayRouteID(r.kind, r.key), ServiceID(key), Routes, r.kind.Text())
      case _ => EMPTY_GRAPH
  }

  function GatewayRouteNode(c: Cluster, r: ExternalResource): Graph {
    OneNode(GatewayRouteID(r.kind, r.key),
            GatewayRouteInfo(r, References(r.parents, ParentReference(c, r)), References(r.backends, BackendReference(c, r))))
  }

  function GatewayAddressPiece(r: ExternalResource): string -> Graph {
    (address: string) =>
      var id := GatewayLBID(r.key, Text.SafeID(address));
      OneNode(id, AddressInfo(r.key, address, "Gateway API"))
        .Plus(OneEdge(id, GatewayID(r.key), Fronts, "Gateway status"))
  }

  function F5BackendPiece(c: Cluster, r: ExternalResource): BackendRef -> Graph {
    (b: BackendRef) =>
      if IsServiceBackend(b) && BackendKey(b, r) in Services(c)
      then OneEdge(ExternalLBID(r.kind, r.key), ServiceID(BackendKey(b, r)), Balances, r.kind.Text())
      else EMPTY_GRAPH
  }

  predicate ResourceSelects(r: ExternalResource, s: Service) {
    && r.selector != map[]
    && (r.key.namespace == "" || s.key.namespace == r.key.namespace)
    && SelectorMatches(s.labels, r.selector)
  }

  /** servicesMatchingSelector, over the Services by key. */
  function SelectedServices(c: Cluster, r: ExternalResource): set<NodeID> {
    set k | k in Services(c) && ResourceSelects(r, Services(c)[k]) :: ServiceID(k)
  }

  function GatewayClassPiece(r: ExternalResource): Graph {
    var controller := if "controllerName" in r.properties then r.properties["controllerName"] else "";
    OneNode(GatewayClassControllerID(r.key.name),
            ControllerInfo(r.key.name, if controller == "" then "GatewayClass" else controller, "GatewayClass", "Configured"))
  }

  function GatewayClassEdge(c: Cluster, r: ExternalResource): Graph {
    if r.className != "" && ExternalKey(GatewayClass, Key("", r.className)) in ExternalKeys(c)
    then OneEdge(GatewayClassControllerID(r.className), GatewayID(r.key), Controls, "GatewayClass") else EMPTY_GRAPH
  }

  ghost function GatewayPiece(c: Cluster, r: ExternalResource): Graph {
    OneNode(GatewayID(r.key), GatewayInfo(r))
      .Plus(GatewayClassEdge(c, r))
      .Plus(Sum(r.addresses, GatewayAddressPiece(r)))
      .Plus(Sum(r.hostnames, DNSPiece(GatewayID(r.key))))
  }

  ghost function GatewayRoutePiece(c: Cluster, r: ExternalResource): Graph {
    Sum(r.parents, ParentPiece(c, r))
      .Plus(Sum(r.backends, BackendPiece(c, r)))
      .Plus(GatewayRouteNode(c, r))
      .Plus(Sum(r.hostnames, DNSPiece(GatewayRouteID(r.kind, r.key))))
  }

  ghost function F5Piece(c: Cluster, r: ExternalResource): Graph {
    OneNode(ExternalLBID(r.kind, r.key), ExternalLBInfo(r))
      .Plus(Sum(r.hostnames, DNSPiece(ExternalLBID(r.kind, r.key))))
      .Plus(Sum(r.backends, F5BackendPiece(c, r)))
      .Plus(Fan(ExternalLBID(r.kind, r.key), SelectedServices(c, r), Balances, r.kind.Text()))
  }

  /** addExternalResource */
  ghost function ExternalPiece(c: Cluster): ExternalResource -> Graph {
    (r: ExternalResource) =>
      if r.kind == GatewayClass then GatewayClassPiece(r)
      else if r.kind == Gateway then GatewayPiece(c, r)
      else if r.kind.IsRoute() then GatewayRoutePiece(c, r)
      else if r.kind.IsF5() then F5Piece(c, r)
      else EMPTY_GRAPH
  }

  // ---- Service to Pod and endpoint edges ----

  function PodIDs(pods: set<Key>): set<NodeID> {
    set k | k in pods :: PodID(k)
  }

  function PodKeys(pods: seq<Pod>): set<Key> {
    set p | p in pods :: p.key
  }

  function SelectPiece(c: Cluster): Service -> Graph {
    (s: Service) => Fan(ServiceID(s.key), PodIDs(PodKeys(SelectedPods(c.pods, s))), Selects, "Selector")
  }

  /** A Service without a selector: only then its endpoints are drawn. */
  predicate Selectorless(c: Cluster, service: Key) {
    service in Services(c) && Services(c)[service].selector == map[]
  }

  function SliceAddressPiece(c: Cluster, s: EndpointSlice, e: SliceEndpoint, service: Key): string -> Graph {
    (address: string) =>
      var id := SliceEndpointID(service, s.name, Text.SafeID(address));
      if ResolvePod(e.target, s.namespace, address, IndexPods(c.pods)).Some? then EMPTY_GRAPH
      else
        (if address == "" then EMPTY_GRAPH else OneNode(id, SliceEndpointInfo(s, e, address)))
          .Plus(OneEdge(ServiceID(service), id, SliceEdge, "EndpointSlice"))
  }

  ghost function SliceEndpointPiece(c: Cluster, s: EndpointSlice, service: Key): SliceEndpoint -> Graph {
    (e: SliceEndpoint) => Sum(e.addresses, SliceAddressPiece(c, s, e, service))
  }

  ghost function SlicePiece(c: Cluster): EndpointSlice -> Graph {
    (s: EndpointSlice) =>
      match SliceService(s)
      case None => EMPTY_GRAPH
      case Some(service) =>
        if !Selectorless(c, service) then EMPTY_GRAPH
        else
          Fan(ServiceID(service), PodIDs(SlicePods(s, IndexPods(c.pods))), SliceEdge, "EndpointSlice")
            .Plus(Sum(s.endpoints, SliceEndpointPiece(c, s, service)))
  }

  function LegacyAddressPiece(c: Cluster, e: Endpoints): LegacyAddress -> Graph {
    (a: LegacyAddress) =>
      var id := LegacyEndpointID(e.key, Text.SafeID(a.address.ip));
      if ResolvePod(a.address.target, e.key.namespace, a.address.ip, IndexPods(c.pods)).Some? then EMPTY_GRAPH
      else
        (if a.address.ip == "" then EMPTY_GRAPH else OneNode(id, LegacyEndpointInfo(e.key, a.address, a.ready)))
          .Plus(OneEdge(ServiceID(e.key), id, EndpointEdge, "Endpoints"))
  }

  ghost function LegacyPiece(c: Cluster): Endpoints -> Graph {
    (e: Endpoints) =>
      if !Selectorless(c, e.key) || HasSlice(c.slices, e.key) then EMPTY_GRAPH
      else
        Fan(ServiceID(e.key), PodIDs(LegacyPods(e, IndexPods(c.pods))), EndpointEdge, "Endpoints")
          .Plus(Sum(LegacyAddresses(e), LegacyAddressPiece(c, e)))
  }

  // ---- the whole graph ----

  ghost function ControllerNodes(c: Cluster): Graph {
    Sum(c.classes, ClassPiece).Plus(Sum(AnnotationNames(c), AnnotationPiece))
  }

  ghost function Workloads(c: Cluster): Graph {
    Sum(c.machines, MachinePiece).Plus(Sum(c.pods, PodPiece(c))).Plus(Sum(c.services, ServicePiece))
  }

  ghost function Exposure(c: Cluster): Graph {
    Sum(c.ingresses, StatusPiece(c)).Plus(Sum(c.services, ExposurePiece(c)))
  }

  ghost function Traffic(c: Cluster): Graph {
    Sum(c.ingresses, IngressPiece(c)).Plus(Sum(c.external, ExternalPiece(c)))
  }

  ghost function Backends(c: Cluster): Graph {
    Sum(c.services, SelectPiece(c)).Plus(Sum(c.slices, SlicePiece(c))).Plus(Sum(c.endpoints, LegacyPiece(c)))
  }

  ghost function Build(c: Cluster): Graph {
    ControllerNodes(c).Plus(Workloads(c)).Plus(Exposure(c)).Plus(Traffic(c)).Plus(Backends(c))
  }
}
