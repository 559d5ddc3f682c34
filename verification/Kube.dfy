/** The Kubernetes objects NorthScope reads. Fields that are only copied into
    node text are left out. Names contain no `/` or `:`, so a namespace and a
    name form a pair instead of a joined string. */
module Kube {
  import opened Collections
  import Text

  datatype Key = Key(namespace: string, name: string)

  function KeyText(k: Key): string { k.namespace + "/" + k.name }

  /** displayName: cluster-scoped objects show their bare name. */
  function Display(k: Key): string {
    if k.namespace == "" then k.name else KeyText(k)
  }

  type Labels = map<string, string>

  /** labels.SelectorFromSet: every selected label must be present. */
  predicate SelectorSelects(selector: Labels, labels: Labels) {
    forall k | k in selector :: k in labels && labels[k] == selector[k]
  }

  /** selectorMatches: a missing label reads as the empty string, so this
      accepts more objects than SelectorSelects. */
  predicate SelectorMatches(labels: Labels, selector: Labels) {
    forall k | k in selector :: (if k in labels then labels[k] else "") == selector[k]
  }

  // ---- Ingress ----

  datatype PortRef = PortRef(name: string, number: int)
  datatype ServiceBackend = ServiceBackend(name: string, port: PortRef)
  datatype ResourceBackend = ResourceBackend(kind: string, name: string)
  datatype Backend = Backend(service: Option<ServiceBackend>, resource: Option<ResourceBackend>)
  datatype HTTPPath = HTTPPath(path: string, pathType: Option<string>, backend: Backend)
  datatype Rule = Rule(host: string, paths: Option<seq<HTTPPath>>)
  datatype Address = Address(ip: string, hostname: string)

  /** `canaryRule` is the rule text ingress-nginx annotations describe, present
      exactly when they mark the Ingress as a canary. */
  datatype Ingress = Ingress(
    key: Key, created: int, className: Option<string>, classAnnotation: string,
    canaryRule: Option<string>, defaultBackend: Option<Backend>, rules: seq<Rule>,
    status: seq<Address>)

  /** `id` is the position among the Ingress's routes; it ends the ID text and
      alone tells two routes of one Ingress apart. */
  datatype Route = Route(
    id: nat, host: string, path: string, pathType: string,
    serviceName: string, servicePort: PortRef,
    resourceKind: string, resourceName: string, isDefault: bool)
  {
    function PortLabel(): string {
      if servicePort.name != "" then servicePort.name
      else if servicePort.number != 0 then Text.Decimal(servicePort.number)
      else "unspecified"
    }

    function BackendLabel(): string {
      if resourceKind != "" then resourceKind + "/" + resourceName
      else serviceName + ":" + PortLabel()
    }

    function Name(): string {
      if isDefault then "default -> " + BackendLabel()
      else (if host == "" then "*" else host) + " " + (if path == "" then "/" else path)
    }

    function EdgeLabel(): string {
      if isDefault then "default" else Name()
    }
  }

  datatype BackendEntry = BackendEntry(host: string, path: string, pathType: string, backend: Backend, isDefault: bool)
  {
    /** Entries that name neither a Service nor a resource are not routes. */
    predicate Routable() {
      || (backend.service.Some? && backend.service.value.name != "")
      || (backend.resource.Some? && backend.resource.value.kind != "" && backend.resource.value.name != "")
    }

    function ToRoute(id: nat): Route {
      var service := if backend.service.Some? then backend.service.value else ServiceBackend("", PortRef("", 0));
      var resource := if backend.resource.Some? then backend.resource.value else ResourceBackend("", "");
      Route(id, host, path, pathType, service.name, service.port, resource.kind, resource.name, isDefault)
    }
  }

  function PathEntry(host: string): HTTPPath -> BackendEntry {
    (p: HTTPPath) => BackendEntry(host, p.path, if p.pathType.Some? then p.pathType.value else "", p.backend, false)
  }

  function RuleEntries(rule: Rule): seq<BackendEntry> {
    match rule.paths
    case None => []
    case Some(paths) => seq(|paths|, i requires 0 <= i < |paths| => PathEntry(rule.host)(paths[i]))
  }

  function DefaultEntries(ingress: Ingress): seq<BackendEntry> {
    match ingress.defaultBackend
    case None => []
    case Some(backend) => [BackendEntry("", "", "", backend, true)]
  }

  function BackendEntries(ingress: Ingress): seq<BackendEntry> {
    DefaultEntries(ingress) + FlatMap(ingress.rules, RuleEntries)
  }

  function RoutesOf(entries: seq<BackendEntry>): seq<Route> {
    if entries == [] then []
    else
      var routes, entry := RoutesOf(entries[..|entries| - 1]), entries[|entries| - 1];
      if entry.Routable() then routes + [entry.ToRoute(|routes|)] else routes
  }

  function IngressRoutes(ingress: Ingress): seq<Route> {
    RoutesOf(BackendEntries(ingress))
  }

  /** What the rest of the model needs of a route list: positions are IDs, and
      a route without a Service always has a resource. */
  lemma {:induction false} RoutesWellFormed(entries: seq<BackendEntry>)
    ensures forall i | 0 <= i < |RoutesOf(entries)| :: RoutesOf(entries)[i].id == i
    ensures forall r | r in RoutesOf(entries) :: r.serviceName == "" ==> r.resourceKind != ""
  {
    if entries != [] {
      RoutesWellFormed(entries[..|entries| - 1]);
    }
  }

  // ---- Services and their endpoints ----

  datatype ServiceType = ClusterIP | NodePort | LoadBalancer | ExternalName
  datatype ServicePort = ServicePort(name: string, port: int, nodePort: int)
  {
    function NameForID(): string {
      if name != "" then name else Text.Decimal(port)
    }
  }

  datatype Service = Service(
    key: Key, labels: Labels, annotations: Labels, kind: ServiceType, selector: Labels,
    externalName: string, ports: seq<ServicePort>, status: seq<Address>, externalIPs: seq<string>)
  {
    predicate Exposed() { kind == NodePort || kind == LoadBalancer }
  }

  function ServiceKey(s: Service): Option<Key> { Some(s.key) }

  /** Service names are unique in a namespace. */
  ghost predicate UniqueServices(services: seq<Service>) {
    forall s, t :: s in services && t in services && s.key == t.key ==> s == t
  }

  datatype PodPhase = Running | OtherPhase(phase: string)
  /** `ready` is the status of the first Ready condition, when there is one. */
  datatype Pod = Pod(
    key: Key, labels: Labels, nodeName: string, podIP: string, phase: PodPhase,
    ready: Option<bool>, deleting: bool)

  function PodKey(p: Pod): Option<Key> { Some(p.key) }

  function PodAddress(p: Pod): Option<Key> {
    if p.podIP == "" then None else Some(Key(p.key.namespace, p.podIP))
  }

  datatype Machine = Machine(name: string, labels: Labels, status: string)

  datatype TargetRef = TargetRef(kind: string, namespace: string, name: string)
  datatype SliceEndpoint = SliceEndpoint(
    addresses: seq<string>, ready: Option<bool>, serving: Option<bool>, terminating: Option<bool>,
    target: Option<TargetRef>)
  /** `service` is the kubernetes.io/service-name label, empty when missing. */
  datatype EndpointSlice = EndpointSlice(
    namespace: string, name: string, service: string, ports: seq<Option<string>>, endpoints: seq<SliceEndpoint>)

  datatype EndpointAddress = EndpointAddress(ip: string, target: Option<TargetRef>)
  datatype Subset = Subset(addresses: seq<EndpointAddress>, notReady: seq<EndpointAddress>, ports: seq<string>)
  datatype Endpoints = Endpoints(key: Key, subsets: seq<Subset>)

  datatype IngressClass = IngressClass(name: string, controller: string, defaultAnnotation: string)

  function ClassName(c: IngressClass): Option<string> { Some(c.name) }

  // ---- Gateway API and F5 ----

  datatype ExternalKind =
    | GatewayClass | Gateway
    | HTTPRoute | GRPCRoute | TLSRoute | TCPRoute | UDPRoute
    | ReferenceGrant
    | F5IngressLink | F5VirtualServer | F5TransportServer
  {
    predicate IsRoute() { HTTPRoute? || GRPCRoute? || TLSRoute? || TCPRoute? || UDPRoute? }
    predicate IsF5() { F5IngressLink? || F5VirtualServer? || F5TransportServer? }
    function Text(): string {
      match this
      case GatewayClass => "GatewayClass"
      case Gateway => "Gateway"
      case HTTPRoute => "HTTPRoute"
      case GRPCRoute => "GRPCRoute"
      case TLSRoute => "TLSRoute"
      case TCPRoute => "TCPRoute"
      case UDPRoute => "UDPRoute"
      case ReferenceGrant => "ReferenceGrant"
      case F5IngressLink => "F5IngressLink"
      case F5VirtualServer => "F5VirtualServer"
      case F5TransportServer => "F5TransportServer"
    }
  }

  datatype ParentRef = ParentRef(group: string, kind: string, namespace: string, name: string)
  datatype BackendRef = BackendRef(group: string, kind: string, namespace: string, name: string)
  datatype GrantFrom = GrantFrom(group: string, kind: string, namespace: string)
  datatype GrantTo = GrantTo(group: string, kind: string, name: string)

  datatype ExternalResource = ExternalResource(
    kind: ExternalKind, key: Key, className: string, addresses: seq<string>, hostnames: seq<string>,
    parents: seq<ParentRef>, backends: seq<BackendRef>, grantFrom: seq<GrantFrom>, grantTo: seq<GrantTo>,
    selector: Labels, properties: Labels)

  datatype ExternalKey = ExternalKey(kind: ExternalKind, key: Key)

  function ExternalResourceKey(r: ExternalResource): ExternalKey { ExternalKey(r.kind, r.key) }

  predicate IsServiceBackend(b: BackendRef) {
    var group, kind := Text.TrimSpace(b.group), Text.TrimSpace(b.kind);
    (group == "" || group == "core") && (kind == "" || Text.EqualFold(kind, "Service"))
  }

  predicate IsGatewayParent(p: ParentRef) {
    var group, kind := Text.TrimSpace(p.group), Text.TrimSpace(p.kind);
    (group == "" || group == "gateway.networking.k8s.io") && (kind == "" || Text.EqualFold(kind, "Gateway"))
  }

  function BackendKey(b: BackendRef, resource: ExternalResource): Key {
    Key(if b.namespace == "" then resource.key.namespace else b.namespace, b.name)
  }

  function ParentKey(p: ParentRef, resource: ExternalResource): Key {
    Key(if p.namespace == "" then resource.key.namespace else p.namespace, p.name)
  }
}
