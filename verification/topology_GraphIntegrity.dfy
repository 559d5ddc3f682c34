/** Referential integrity of the built graph, and exactly when it fails. */
module GraphIntegrity {
  import opened Collections
  import opened Kube
  import opened NodeIDs
  import opened EndpointModel
  import opened ControllerModel
  import opened Overlaps
  import opened Topology
  import opened Builder
  import opened DrawnEndpoints
  import opened DrawnEdges
  import opened DrawnNodes
  import opened GraphShapes
  import Text

  function Nodes(g: Graph): set<NodeID> { g.nodes.Keys }

  ghost predicate AllJoined(nodes: set<NodeID>, g: Graph) {
    forall e :: e in g.edges ==> e.source in nodes && e.target in nodes
  }

  /** Both ends of the edge have something that puts them there. */
  ghost predicate Joined(c: Cluster, e: Edge) {
    DrawnNode(c, e.source) && DrawnNode(c, e.target)
  }

  // ---- what the inference can name ----

  lemma TheOnlyMember<T(!new)>(s: set<T>)
    ensures TheOnly(s).Some? ==> TheOnly(s).value in s
  {
  }

  lemma MatchedClassKnown(s: Service, pods: seq<Pod>, classes: Classes)
    ensures MatchingClass(s, pods, classes).Some? ==> MatchingClass(s, pods, classes).value in classes
  {
    TheOnlyMember(set name | name in classes && BestClass(s, pods, classes, name));
  }

  lemma NamedClassKnown(c: Cluster, i: Ingress)
    requires i in c.ingresses
    ensures ControllerClass(i, ClassesByName(c)).Some? ==>
              ControllerClass(i, ClassesByName(c)).value in InferenceClasses(c.ingresses, ClassesByName(c))
  {
    var classes := ClassesByName(c);
    if NamedClass(i) != "" {
      CollectMember(c.ingresses, AnnotationOnly(classes));
      if UsesAnnotation(i) && NamedClass(i) !in classes {
        assert NamedClass(i) in AnnotationOnly(classes)(i);
      }
    } else {
      TheOnlyMember(set name | name in classes && IsDefaultClass(classes[name]));
      TheOnlyMember(classes.Keys);
    }
  }

  ghost predicate KnownController(c: Cluster, id: NodeID) {
    match id
    case ClassControllerID(name) => name in InferenceClasses(c.ingresses, ClassesByName(c))
    case StatusControllerID(k) => OwnedByStatus(c, k)
    case _ => false
  }

  lemma StatusControllerKnown(c: Cluster, i: Ingress)
    requires i in c.ingresses
    ensures StatusController(c, i).Some? ==> KnownController(c, StatusController(c, i).value)
  {
    if ControllerClass(i, ClassesByName(c)).None? && StatusService(i, c.services).Some? {
      var s := StatusService(i, c.services).value;
      MatchedClassKnown(s, ServicePods(c, s.key), InferenceClasses(c.ingresses, ClassesByName(c)));
    }
  }

  /** Every controller an Ingress is linked to exists, whether it comes from a
      class, an annotation or the status address. */
  lemma ControllerKnown(c: Cluster, i: Ingress)
    requires i in c.ingresses
    ensures ControllerOf(c, i).Some? ==> KnownController(c, ControllerOf(c, i).value)
  {
    NamedClassKnown(c, i);
    StatusControllerKnown(c, i);
  }

  lemma TargetKnown(c: Cluster, s: Service)
    ensures ExposureTarget(c, s) == ServiceID(s.key) || KnownController(c, ExposureTarget(c, s))
  {
    MatchedClassKnown(s, ServicePods(c, s.key), InferenceClasses(c.ingresses, ClassesByName(c)));
  }

  lemma KnownDrawn(c: Cluster, id: NodeID)
    requires KnownController(c, id)
    ensures DrawnNode(c, id)
  {
  }

  // ---- the edges of each section ----

  lemma ServiceDrawn(c: Cluster, key: Key)
    requires key in Services(c)
    ensures DrawnNode(c, ServiceID(key))
  {
    assert WorkloadNode(c, ServiceID(key));
  }

  lemma ListedService(c: Cluster, s: Service)
    requires s in c.services
    ensures s.key in Services(c)
  {
    IndexMember(c.services, ServiceKey);
  }

  lemma PodDrawn(c: Cluster, key: Key)
    requires key in PodKeys(c.pods)
    ensures DrawnNode(c, PodID(key))
  {
    assert WorkloadNode(c, PodID(key));
  }

  lemma WorkloadJoined(c: Cluster, e: Edge)
    requires WorkloadDrawn(c, e)
    ensures Joined(c, e)
  {
    if pod :| pod in c.pods && Hosted(c, pod, e) {
      assert WorkloadNode(c, e.source);
      PodDrawn(c, pod.key);
    } else {
      var s :| s in c.services && NamedOutside(s, e);
      ListedService(c, s);
      ServiceDrawn(c, s.key);
      assert WorkloadNode(c, e.target);
    }
  }

  lemma TargetDrawn(c: Cluster, s: Service, target: NodeID)
    requires s in c.services && target == ExposureTarget(c, s)
    ensures DrawnNode(c, target)
  {
    TargetKnown(c, s);
    if target == ServiceID(s.key) {
      ListedService(c, s);
      ServiceDrawn(c, s.key);
    } else {
      KnownDrawn(c, target);
    }
  }

  lemma ExposureDrawnNode(c: Cluster, s: Service, id: NodeID)
    requires s in c.services && ServiceExposureNode(s, id)
    ensures DrawnNode(c, id)
  {
    assert ExposureNode(c, id);
  }

  lemma ExposureJoined(c: Cluster, s: Service, target: NodeID, e: Edge)
    requires s in c.services && target == ExposureTarget(c, s) && ServiceExposed(c, s, e)
    ensures Joined(c, e)
  {
    TargetDrawn(c, s, target);
    assert ServiceExposureNode(s, e.source);
    ExposureDrawnNode(c, s, e.source);
    if e.kind == Exposes {
      assert ServiceExposureNode(s, e.target);
      ExposureDrawnNode(c, s, e.target);
    }
  }

  lemma IngressNodeDrawn(c: Cluster, i: Ingress, id: NodeID)
    requires i in c.ingresses && IngressNode(i, id)
    ensures DrawnNode(c, id)
  {
    assert TrafficNode(c, id);
  }

  lemma ExternalNodeDrawn(c: Cluster, r: ExternalResource, id: NodeID)
    requires r in c.external && ExternalNode(r, id)
    ensures DrawnNode(c, id)
  {
    assert TrafficNode(c, id);
  }

  lemma ControlledJoined(c: Cluster, i: Ingress, e: Edge)
    requires i in c.ingresses && IngressControlled(c, i, e)
    ensures Joined(c, e)
  {
    ControllerKnown(c, i);
    KnownDrawn(c, e.source);
    IngressNodeDrawn(c, i, e.target);
  }

  lemma LinkJoined(c: Cluster, canaries: seq<CanaryLink>, route: NodeID, e: Edge)
    requires CanaryDrawn(c, canaries, route, e)
    ensures e.source == route && DrawnNode(c, e.target)
  {
    var l :| l in canaries && LinksService(c, l, e.target);
    ServiceDrawn(c, RouteService(l.canary.ingress, l.canary.route));
  }

  lemma RouteJoined(c: Cluster, i: Ingress, route: Route, e: Edge)
    requires i in c.ingresses && route in IngressRoutes(i) && RouteDrawn(c, i, route, e)
    ensures Joined(c, e)
  {
    var id := IngressRouteID(i.key, route.id);
    assert RouteNodeOf(i, id);
    IngressNodeDrawn(c, i, id);
    IngressNodeDrawn(c, i, IngressID(i.key));
    if RouteRouted(c, i, route, e) {
      ServiceDrawn(c, RouteService(i, route));
    } else if e.kind == CanaryEdge {
      LinkJoined(c, ShownCanaries(c, i, route), id, e);
    }
  }

  lemma OwnIngressEdge(c: Cluster, i: Ingress, e: Edge)
    requires i in c.ingresses && (HostResolves(IngressHosts(i), IngressID(i.key), e) || IngressFronted(i, e))
    ensures Joined(c, e)
  {
    IngressNodeDrawn(c, i, e.source);
    IngressNodeDrawn(c, i, e.target);
  }

  lemma IngressJoined(c: Cluster, i: Ingress, e: Edge)
    requires i in c.ingresses && IngressDrawn(c, i, e)
    ensures Joined(c, e)
  {
    if SomeRouteDrawn(c, i, e) {
      var route :| route in IngressRoutes(i) && RouteDrawn(c, i, route, e);
      RouteJoined(c, i, route, e);
    } else if IngressControlled(c, i, e) {
      ControlledJoined(c, i, e);
    } else {
      OwnIngressEdge(c, i, e);
    }
  }

  // ---- Gateway API and F5 ----

  lemma ResourceDrawn(c: Cluster, k: ExternalKey, id: NodeID)
    requires k in ExternalKeys(c)
    requires forall r :: ExternalResourceKey(r) == k ==> ExternalNode(r, id)
    ensures DrawnNode(c, id)
  {
    CollectMember(c.external, ExternalSet);
    var r :| r in c.external && k in ExternalSet(r);
    ExternalNodeDrawn(c, r, id);
  }

  lemma GatewayJoined(c: Cluster, r: ExternalResource, e: Edge)
    requires r in c.external && r.kind == Gateway && GatewayDrawn(c, r, e)
    ensures Joined(c, e)
  {
    ExternalNodeDrawn(c, r, GatewayID(r.key));
    if ClassControls(c, r, e) {
      ResourceDrawn(c, ExternalKey(GatewayClass, Key("", r.className)), e.source);
    } else {
      ExternalNodeDrawn(c, r, e.source);
    }
  }

  lemma GatewayRouteJoined(c: Cluster, r: ExternalResource, e: Edge)
    requires r in c.external && r.kind.IsRoute() && GatewayRouteDrawn(c, r, e)
    ensures Joined(c, e)
  {
    ExternalNodeDrawn(c, r, GatewayRouteID(r.kind, r.key));
    if p :| p in r.parents && ParentAttached(c, r, p, e) {
      ResourceDrawn(c, ExternalKey(Gateway, e.source.gateway), e.source);
    } else if b :| b in r.backends && BackendRouted(c, r, b, e) {
      ServiceDrawn(c, e.target.service);
    } else {
      ExternalNodeDrawn(c, r, e.source);
    }
  }

  lemma F5Joined(c: Cluster, r: ExternalResource, e: Edge)
    requires r in c.external && r.kind.IsF5() && F5Drawn(c, r, e)
    ensures Joined(c, e)
  {
    ExternalNodeDrawn(c, r, ExternalLBID(r.kind, r.key));
    if e.kind == Balances {
      ServiceDrawn(c, e.target.service);
    } else {
      ExternalNodeDrawn(c, r, e.source);
    }
  }

  lemma ExternalJoined(c: Cluster, r: ExternalResource, e: Edge)
    requires r in c.external && ExternalDrawn(c, r, e)
    ensures Joined(c, e)
  {
    if r.kind == Gateway {
      GatewayJoined(c, r, e);
    } else if r.kind.IsRoute() {
      GatewayRouteJoined(c, r, e);
    } else {
      F5Joined(c, r, e);
    }
  }

  // ---- Services, Pods and endpoints ----

  lemma ResolvedPods(c: Cluster, target: Option<TargetRef>, namespace: string, address: string)
    ensures PodSet(ResolvePod(target, namespace, address, IndexPods(c.pods))) <= PodKeys(c.pods)
  {
    IndexMember(c.pods, PodKey);
    IndexMember(c.pods, PodAddress);
  }

  lemma SelectedJoined(c: Cluster, s: Service, pod: Pod, e: Edge)
    requires s in c.services && Selected(c, s, pod, e)
    ensures Joined(c, e)
  {
    ListedService(c, s);
    ServiceDrawn(c, s.key);
    FilterMember(c.pods, SelectedBy(s));
    PodDrawn(c, pod.key);
  }

  /** An empty address of a drawn slice endpoint that no Pod stands for. */
  ghost predicate EmptySliceAddress(c: Cluster, s: EndpointSlice, e: SliceEndpoint) {
    && s in c.slices && e in s.endpoints && "" in e.addresses
    && SliceService(s).Some? && Selectorless(c, SliceService(s).value)
    && ResolvePod(e.target, s.namespace, "", IndexPods(c.pods)).None?
  }

  ghost predicate EmptyLegacyAddress(c: Cluster, e: Endpoints, a: LegacyAddress) {
    && e in c.endpoints && a in LegacyAddresses(e) && a.address.ip == ""
    && Selectorless(c, e.key) && !HasSlice(c.slices, e.key)
    && ResolvePod(a.address.target, e.key.namespace, "", IndexPods(c.pods)).None?
  }

  /** The cluster lists such an address somewhere: for it the builder adds an
      edge but skips the node. */
  ghost predicate DrawsEmptyAddress(c: Cluster) {
    || (exists s, e :: EmptySliceAddress(c, s, e))
    || (exists e, a :: EmptyLegacyAddress(c, e, a))
  }

  lemma SliceJoined(c: Cluster, s: EndpointSlice, service: Key, e: Edge)
    requires s in c.slices && SliceDrawn(c, s, service, e) && !DrawsEmptyAddress(c)
    ensures Joined(c, e)
  {
    var endpoint, a :| DrawnFor(c, s, service, e, endpoint, a);
    assert !EmptySliceAddress(c, s, endpoint);
    ServiceDrawn(c, service);
    ResolvedPods(c, endpoint.target, s.namespace, a);
    if e.target.PodID? {
      PodDrawn(c, e.target.pod);
    } else {
      assert SliceNode(c, s, service, endpoint, a, e.target);
      assert EndpointNode(c, e.target);
    }
  }

  lemma LegacyJoined(c: Cluster, endpoints: Endpoints, e: Edge)
    requires endpoints in c.endpoints && LegacyDrawn(c, endpoints, e) && !DrawsEmptyAddress(c)
    ensures Joined(c, e)
  {
    var a :| a in LegacyAddresses(endpoints) && e == LegacyEdge(c, endpoints, a);
    assert !EmptyLegacyAddress(c, endpoints, a);
    ServiceDrawn(c, endpoints.key);
    ResolvedPods(c, a.address.target, endpoints.key.namespace, a.address.ip);
    if e.target.PodID? {
      PodDrawn(c, e.target.pod);
    } else {
      assert LegacyNode(c, endpoints, a, e.target);
      assert EndpointNode(c, e.target);
    }
  }

  lemma BackendsJoined(c: Cluster, e: Edge)
    requires BackendsDrawn(c, e) && !DrawsEmptyAddress(c)
    ensures Joined(c, e)
  {
    if s, pod :| s in c.services && Selected(c, s, pod, e) {
      SelectedJoined(c, s, pod, e);
    } else if s, service :| s in c.slices && SliceDrawn(c, s, service, e) {
      SliceJoined(c, s, service, e);
    } else {
      var endpoints :| endpoints in c.endpoints && LegacyDrawn(c, endpoints, e);
      LegacyJoined(c, endpoints, e);
    }
  }

  lemma DrawnJoined(c: Cluster, e: Edge)
    requires Drawn(c, e) && !DrawsEmptyAddress(c)
    ensures Joined(c, e)
  {
    if WorkloadDrawn(c, e) {
      WorkloadJoined(c, e);
    } else if ExposureDrawn(c, e) {
      var s :| s in c.services && ServiceExposed(c, s, e);
      ExposureJoined(c, s, ExposureTarget(c, s), e);
    } else if i :| i in c.ingresses && IngressDrawn(c, i, e) {
      IngressJoined(c, i, e);
    } else if r :| r in c.external && ExternalDrawn(c, r, e) {
      ExternalJoined(c, r, e);
    } else {
      BackendsJoined(c, e);
    }
  }

  /** Without an empty address to draw, every edge joins two nodes. */
  lemma EdgesJoinNodes(c: Cluster)
    requires !DrawsEmptyAddress(c)
    ensures AllJoined(Nodes(Build(c)), Build(c))
  {
    forall e | e in Build(c).edges ensures e.source in Nodes(Build(c)) && e.target in Nodes(Build(c)) {
      EdgesExactly(c, e);
      DrawnJoined(c, e);
      NodesExactly(c, e.source);
      NodesExactly(c, e.target);
    }
  }

  // ---- when it fails ----

  lemma EmptySliceEdge(c: Cluster, s: EndpointSlice, e: SliceEndpoint) returns (edge: Edge)
    requires EmptySliceAddress(c, s, e)
    ensures Drawn(c, edge) && Blank(edge.target)
  {
    var service := SliceService(s).value;
    edge := AddressEdge(c, s, e, service, "");
    Text.SafeIDEmpty("");
    assert DrawnFor(c, s, service, edge, e, "");
    assert SliceDrawn(c, s, service, edge);
    assert BackendsDrawn(c, edge);
  }

  lemma EmptyLegacyEdge(c: Cluster, e: Endpoints, a: LegacyAddress) returns (edge: Edge)
    requires EmptyLegacyAddress(c, e, a)
    ensures Drawn(c, edge) && Blank(edge.target)
  {
    edge := LegacyEdge(c, e, a);
    Text.SafeIDEmpty("");
    assert LegacyDrawn(c, e, edge);
    assert BackendsDrawn(c, edge);
  }

  lemma EmptyEdge(c: Cluster) returns (edge: Edge)
    requires DrawsEmptyAddress(c)
    ensures edge in Build(c).edges && Blank(edge.target)
  {
    if s, e :| EmptySliceAddress(c, s, e) {
      edge := EmptySliceEdge(c, s, e);
    } else {
      var e, a :| EmptyLegacyAddress(c, e, a);
      edge := EmptyLegacyEdge(c, e, a);
    }
    EdgesExactly(c, edge);
  }

  lemma BlankDangles(g: Graph, edge: Edge)
    requires Shaped(g) && edge in g.edges && Blank(edge.target)
    ensures !AllJoined(Nodes(g), g)
  {
    assert edge.target !in Nodes(g);
  }

  /** The built graph has referential integrity exactly when it draws no empty
      endpoint address. */
  lemma IntegrityExactly(c: Cluster)
    ensures AllJoined(Nodes(Build(c)), Build(c)) <==> !DrawsEmptyAddress(c)
  {
    if !DrawsEmptyAddress(c) {
      EdgesJoinNodes(c);
    } else {
      BuildShaped(c);
      var edge := EmptyEdge(c);
      BlankDangles(Build(c), edge);
    }
  }

  lemma LoneService(c: Cluster, service: Service)
    requires c.services == [service]
    ensures Services(c) == map[service.key := service]
  {
    assert c.services[..0] == [];
    assert IndexBy(c.services[..0], ServiceKey) == map[];
  }

  lemma EmptyAddressListed(c: Cluster, service: Service, s: EndpointSlice, e: SliceEndpoint)
    requires c.services == [service] && c.pods == [] && c.slices == [s] && s.endpoints == [e] && e.addresses == [""]
    requires service.selector == map[] && SliceService(s) == Some(service.key) && e.target.None?
    ensures EmptySliceAddress(c, s, e)
  {
    LoneService(c, service);
    assert s.endpoints[0] == e && e.addresses[0] == "";
  }

  lemma ListedMeansDrawn(c: Cluster, s: EndpointSlice, e: SliceEndpoint)
    requires EmptySliceAddress(c, s, e)
    ensures DrawsEmptyAddress(c) && !AllJoined(Nodes(Build(c)), Build(c))
  {
    IntegrityExactly(c);
  }

  /** A cluster that draws one: a Service without a selector whose only slice
      lists an empty address. */
  lemma EmptyAddressDangles() returns (c: Cluster)
    ensures DrawsEmptyAddress(c) && !AllJoined(Nodes(Build(c)), Build(c))
    ensures |c.services| == 1 && |c.slices| == 1 && c.ingresses == [] && c.pods == [] && c.external == []
  {
    var service := Service(Key("apps", "shop"), map[], map[], ClusterIP, map[], "", [], [], []);
    var endpoint := SliceEndpoint([""], None, None, None, None);
    var slice := EndpointSlice("apps", "shop-1", "shop", [], [endpoint]);
    c := Cluster([], [], [service], [], [], [], [], [slice], "");
    EmptyAddressListed(c, service, slice, endpoint);
    ListedMeansDrawn(c, slice, endpoint);
  }
}
