/** Which controllers, load balancers, node ports and Services of a cluster are
    published. */
module PublishedExposure {
  import opened Collections
  import opened Kube
  import opened NodeIDs
  import opened Overlaps
  import opened OverlapMembers
  import opened Topology
  import opened Builder
  import opened DrawnEdges
  import opened DrawnNodes
  import opened GraphShapes
  import GraphIntegrity
  import opened Scoping
  import opened ScopedPruning
  import opened PublishedTraffic
  import opened PublishedCluster
  import Text

  predicate IsExposure(id: NodeID, service: Key) {
    (id.ServiceLBID? || id.NodePortID?) && id.service == service
  }

  // ---- no exposure is a root ----

  /** Load balancers of Services carry no provider. */
  ghost predicate PlainBalancers(g: Graph) {
    forall id :: id in g.nodes && id.ServiceLBID? ==> g.nodes[id].ServiceLBInfo?
  }

  lemma ExposureInfo(c: Cluster, s: Service, id: NodeID)
    requires id.ServiceLBID? && id in ExposurePiece(c)(s).nodes
    ensures ExposurePiece(c)(s).nodes[id].ServiceLBInfo?
  {
    ServiceExposureNodes(c, s, id);
    var self, ports := OneNode(ServiceLBID(s.key), ServiceLBInfo(s)), Sum(s.ports, PortPiece(c, s));
    PortsNodes(c, s, id);
    assert id !in ports.nodes;
  }

  lemma ExposuresInfo(c: Cluster, id: NodeID)
    requires id.ServiceLBID? && id in Sum(c.services, ExposurePiece(c)).nodes
    ensures Sum(c.services, ExposurePiece(c)).nodes[id].ServiceLBInfo?
  {
    var s := SumNode(c.services, ExposurePiece(c), id);
    ExposureInfo(c, s, id);
  }

  lemma InfoOf(a: Graph, b: Graph, id: NodeID)
    requires id in a.Plus(b).nodes
    ensures id in b.nodes ==> a.Plus(b).nodes[id] == b.nodes[id]
    ensures id !in b.nodes ==> id in a.nodes && a.Plus(b).nodes[id] == a.nodes[id]
  {
  }

  lemma NoTrafficBalancer(c: Cluster, id: NodeID)
    requires id.ServiceLBID?
    ensures id !in Traffic(c).nodes
  {
    if TrafficNode(c, id) {
      if i :| i in c.ingresses && IngressNode(i, id) {
        NoIngressExposure(i, id);
      } else {
        var r :| r in c.external && ExternalNode(r, id);
        NoExternalExposure(r, id);
      }
    }
    TrafficNodes(c, id);
  }

  lemma NoBackendBalancer(c: Cluster, id: NodeID)
    requires id.ServiceLBID?
    ensures id !in Backends(c).nodes
  {
    BackendsNodes(c, id);
  }

  lemma NoWorkloadBalancer(c: Cluster, id: NodeID)
    requires id.ServiceLBID?
    ensures id !in Sum(c.ingresses, StatusPiece(c)).nodes && id !in ControllerNodes(c).Plus(Workloads(c)).nodes
  {
    StatusNodes(c, id);
    ControllerNodesExactly(c, id);
    WorkloadNodes(c, id);
    PlusNodes(ControllerNodes(c), Workloads(c), id);
  }

  lemma BuildPlainBalancers(c: Cluster, g: Graph)
    requires g == Build(c)
    ensures PlainBalancers(g)
  {
    forall id | id in g.nodes && id.ServiceLBID? ensures g.nodes[id].ServiceLBInfo? {
      BalancerInfo(c, g, id);
    }
  }

  lemma BalancerInfo(c: Cluster, g: Graph, id: NodeID)
    requires g == Build(c) && id in g.nodes && id.ServiceLBID?
    ensures g.nodes[id].ServiceLBInfo?
  {
    var a := ControllerNodes(c).Plus(Workloads(c));
    var status, exposures := Sum(c.ingresses, StatusPiece(c)), Sum(c.services, ExposurePiece(c));
    NoTrafficBalancer(c, id);
    NoBackendBalancer(c, id);
    NoWorkloadBalancer(c, id);
    InfoOf(a.Plus(status.Plus(exposures)).Plus(Traffic(c)), Backends(c), id);
    InfoOf(a.Plus(status.Plus(exposures)), Traffic(c), id);
    InfoOf(a, status.Plus(exposures), id);
    InfoOf(status, exposures, id);
    ExposuresInfo(c, id);
  }

  lemma NoProvider(g: Graph, id: NodeID)
    requires PlainBalancers(g) && (id.ServiceLBID? || id.NodePortID? || id.Kind() == ControllerKind)
    ensures !RootID(g, id)
  {
    assert !Text.EqualFold("", "F5") by {
      assert |Text.Lower("")| == 0 && |Text.Lower("F5")| == 2;
    }
  }

  // ---- the edges at an exposure ----

  lemma ServiceExposureEnds(c: Cluster, s: Service, target: NodeID, e: Edge)
    requires target == ExposureTarget(c, s) && ServiceExposed(c, s, e)
    ensures IsExposure(e.source, s.key)
    ensures if e.kind == Exposes then IsExposure(e.target, s.key) else e.target == target
  {
  }

  lemma LeavesExposure(c: Cluster, s: Service, target: NodeID, e: Edge)
    requires UniqueServices(c.services) && s in c.services && target == ExposureTarget(c, s)
    requires Drawn(c, e) && IsExposure(e.source, s.key)
    ensures if e.kind == Exposes then IsExposure(e.target, s.key) else e.target == target
  {
    DrawnTyped(c, e);
    OnlyExposure(c, e);
    var t :| t in c.services && ServiceExposed(c, t, e);
    ServiceExposureEnds(c, t, ExposureTarget(c, t), e);
  }

  lemma EntersExposure(c: Cluster, s: Service, target: NodeID, e: Edge)
    requires UniqueServices(c.services) && s in c.services && target == ExposureTarget(c, s)
    requires Drawn(c, e) && IsExposure(e.target, s.key)
    ensures e.kind == Exposes && IsExposure(e.source, s.key)
  {
    DrawnTyped(c, e);
    OnlyExposure(c, e);
    var t :| t in c.services && ServiceExposed(c, t, e);
    ServiceExposureEnds(c, t, ExposureTarget(c, t), e);
  }

  /** A step to an exposure comes from another exposure of the Service, or back
      from the controller behind it. */
  lemma FollowedToExposure(c: Cluster, s: Service, target: NodeID, e: Edge, a: NodeID, b: NodeID)
    requires UniqueServices(c.services) && s in c.services && target == ExposureTarget(c, s)
    requires Drawn(c, e) && Follows(e, a.Kind(), a, b) && IsExposure(b, s.key)
    ensures IsExposure(a, s.key) || (a == target && !target.ServiceID?)
  {
    if e.target == b {
      EntersExposure(c, s, target, e);
    } else {
      LeavesExposure(c, s, target, e);
      BackToExposure(e, target, a, b, s.key);
    }
  }

  lemma BackToExposure(e: Edge, target: NodeID, a: NodeID, b: NodeID, service: Key)
    requires Follows(e, a.Kind(), a, b) && e.source == b && e.target == a
    requires if e.kind == Exposes then IsExposure(e.target, service) else e.target == target
    requires e.target != b && IsExposure(b, service)
    ensures IsExposure(a, service) || (a == target && !target.ServiceID?)
  {
  }

  lemma StepToExposure(c: Cluster, g: Graph, s: Service, target: NodeID, a: NodeID, b: NodeID)
    requires IsBuild(c, g) && UniqueServices(c.services) && s in c.services && target == ExposureTarget(c, s)
    requires GraphStep(g, a, b) && IsExposure(b, s.key)
    ensures IsExposure(a, s.key) || (a == target && !target.ServiceID?)
  {
    var e :| e in g.edges && Follows(e, a.Kind(), a, b);
    EdgeIsDrawn(c, g, e);
    FollowedToExposure(c, s, target, e, a, b);
  }

  /** Without a published controller behind it, nothing of an exposure is
      published. */
  lemma ExposureHidden(c: Cluster, g: Graph, shown: set<NodeID>, s: Service, target: NodeID)
    requires IsBuild(c, g) && PlainBalancers(g) && IsShown(g, shown) && IsLeast(g, shown) && UniqueServices(c.services)
    requires s in c.services && target == ExposureTarget(c, s) && (target.ServiceID? || target !in shown)
    ensures forall id :: IsExposure(id, s.key) ==> id !in shown
  {
    var hidden := set id | id in g.nodes && IsExposure(id, s.key);
    forall id | id in hidden ensures !RootID(g, id) {
      NoProvider(g, id);
    }
    forall a, b | a in shown && a !in hidden && GraphStep(g, a, b) ensures b !in hidden {
      if b in hidden {
        StepToExposure(c, g, s, target, a, b);
      }
    }
    Unreachable(g, shown, hidden);
  }

  /** Two ports of a Service have one node exactly when they carry the same name or,
      both without one, the same number, or when one is named like the number of
      the other, which has no name. */
  lemma PortNodesExactly(s: Service, a: ServicePort, b: ServicePort)
    ensures NodePortID(s.key, a.NameForID()) == NodePortID(s.key, b.NameForID()) <==>
              || (a.name != "" && a.name == b.name)
              || (a.name == "" && b.name == "" && a.port == b.port)
              || (a.name == "" && b.name == Text.Decimal(a.port)) || (b.name == "" && a.name == Text.Decimal(b.port))
  {
    if a.name == "" && b.name == "" && a.NameForID() == b.NameForID() {
      Text.DecimalInjective(a.port, b.port);
    }
    Text.DecimalNotEmpty(a.port);
    Text.DecimalNotEmpty(b.port);
  }

  lemma PortEdgesIn(c: Cluster, g: Graph, s: Service, target: NodeID, id: NodeID)
    requires IsBuild(c, g) && s in c.services && target == ExposureTarget(c, s)
    requires id.NodePortID? && id.service == s.key && ExposesPort(s, id.port)
    ensures Edge(id, target, Forwards) in g.edges
    ensures s.kind == LoadBalancer ==> Edge(ServiceLBID(s.key), id, Exposes) in g.edges
  {
    var port :| port in s.ports && port.nodePort != 0 && port.NameForID() == id.port;
    assert PortForwarded(s, target, port, Edge(id, target, Forwards));
    assert ServiceExposed(c, s, Edge(id, target, Forwards));
    assert ExposureDrawn(c, Edge(id, target, Forwards));
    if s.kind == LoadBalancer {
      assert PortExposed(s, port, Edge(ServiceLBID(s.key), id, Exposes));
      assert ServiceExposed(c, s, Edge(ServiceLBID(s.key), id, Exposes));
      assert ExposureDrawn(c, Edge(ServiceLBID(s.key), id, Exposes));
    }
  }

  lemma BalancerEdgeIn(c: Cluster, g: Graph, s: Service, target: NodeID)
    requires IsBuild(c, g) && s in c.services && target == ExposureTarget(c, s) && s.kind == LoadBalancer && !HasNodePort(s)
    ensures Edge(ServiceLBID(s.key), target, Balances) in g.edges
  {
    assert DirectlyBalanced(s, target, Edge(ServiceLBID(s.key), target, Balances));
    assert ServiceExposed(c, s, Edge(ServiceLBID(s.key), target, Balances));
    assert ExposureDrawn(c, Edge(ServiceLBID(s.key), target, Balances));
  }

  lemma NoIngressExposure(i: Ingress, id: NodeID)
    requires id.ServiceLBID? || id.NodePortID?
    ensures !IngressNode(i, id)
  {
  }

  lemma NoExternalExposure(r: ExternalResource, id: NodeID)
    requires id.ServiceLBID? || id.NodePortID?
    ensures !ExternalNode(r, id)
  {
  }

  lemma OnlyExposureNode(c: Cluster, id: NodeID)
    requires DrawnNode(c, id) && (id.ServiceLBID? || id.NodePortID?)
    ensures ExposureNode(c, id)
  {
    if EndpointNode(c, id) {
      EndpointIs(c, id);
    }
    if i :| i in c.ingresses && IngressNode(i, id) {
      NoIngressExposure(i, id);
    }
    if r :| r in c.external && ExternalNode(r, id) {
      NoExternalExposure(r, id);
    }
  }

  lemma ExposureDrawnExactly(c: Cluster, s: Service, id: NodeID)
    requires UniqueServices(c.services) && s in c.services && IsExposure(id, s.key)
    ensures DrawnNode(c, id) <==> ServiceExposureNode(s, id)
  {
    if DrawnNode(c, id) {
      OnlyExposureNode(c, id);
      var t :| t in c.services && ServiceExposureNode(t, id);
    }
    if ServiceExposureNode(s, id) {
      assert ExposureNode(c, id);
    }
  }

  lemma ExposureExists(c: Cluster, g: Graph, s: Service, id: NodeID)
    requires IsBuild(c, g) && UniqueServices(c.services) && s in c.services && IsExposure(id, s.key)
    ensures id in g.nodes <==> ServiceExposureNode(s, id)
  {
    NodeIsDrawn(c, g, id);
    ExposureDrawnExactly(c, s, id);
  }

  lemma PortNode(c: Cluster, g: Graph, s: Service, port: ServicePort) returns (id: NodeID)
    requires IsBuild(c, g) && UniqueServices(c.services) && s in c.services && s.Exposed() && port in s.ports && port.nodePort != 0
    ensures id.NodePortID? && id.service == s.key && ExposesPort(s, id.port) && id in g.nodes
  {
    id := NodePortID(s.key, port.NameForID());
    ExposureExists(c, g, s, id);
  }

  /** A node port or load balancer with an edge to a published controller. */
  lemma BackFromController(g: Graph, shown: set<NodeID>, id: NodeID, target: NodeID, kind: EdgeKind)
    requires IsShown(g, shown) && IsController(target) && target in shown && kind in {Forwards, Balances}
    requires Edge(id, target, kind) in g.edges && id in g.nodes
    ensures id in shown
  {
    StepBack(g, shown, id, target, kind);
  }

  lemma BackFromPort(g: Graph, shown: set<NodeID>, id: NodeID, port: NodeID)
    requires IsShown(g, shown) && port in shown && port.NodePortID? && Edge(id, port, Exposes) in g.edges && id in g.nodes
    ensures id in shown
  {
    StepBack(g, shown, id, port, Exposes);
  }

  lemma PortBehind(c: Cluster, g: Graph, shown: set<NodeID>, s: Service, target: NodeID, id: NodeID)
    requires IsBuild(c, g) && IsShown(g, shown) && s in c.services
    requires target == ExposureTarget(c, s) && IsController(target) && target in shown
    requires id.NodePortID? && id.service == s.key && ExposesPort(s, id.port) && id in g.nodes
    ensures id in shown
    ensures s.kind == LoadBalancer && ServiceLBID(s.key) in g.nodes ==> ServiceLBID(s.key) in shown
  {
    PortEdgesIn(c, g, s, target, id);
    BackFromController(g, shown, id, target, Forwards);
    if s.kind == LoadBalancer && ServiceLBID(s.key) in g.nodes {
      BackFromPort(g, shown, ServiceLBID(s.key), id);
    }
  }

  lemma BalancerBehind(c: Cluster, g: Graph, shown: set<NodeID>, s: Service, target: NodeID)
    requires IsBuild(c, g) && IsShown(g, shown) && UniqueServices(c.services) && s in c.services && s.kind == LoadBalancer
    requires target == ExposureTarget(c, s) && IsController(target) && target in shown && ServiceLBID(s.key) in g.nodes
    ensures ServiceLBID(s.key) in shown
  {
    if HasNodePort(s) {
      var port :| port in s.ports && port.nodePort != 0;
      var id := PortNode(c, g, s, port);
      PortBehind(c, g, shown, s, target, id);
    } else {
      BalancerEdgeIn(c, g, s, target);
      BackFromController(g, shown, ServiceLBID(s.key), target, Balances);
    }
  }

  /** A load balancer or node port of a Service is published exactly when a
      published controller is behind it: never for the Service's own sake. */
  lemma ExposurePublished(c: Cluster, g: Graph, shown: set<NodeID>, s: Service, target: NodeID, id: NodeID)
    requires IsBuild(c, g) && PlainBalancers(g) && IsShown(g, shown) && IsLeast(g, shown) && UniqueServices(c.services)
    requires s in c.services && target == ExposureTarget(c, s) && IsExposure(id, s.key) && id in g.nodes
    ensures id in shown <==> IsController(target) && target in shown
  {
    TargetShaped(c, s);
    if target.ServiceID? || target !in shown {
      ExposureHidden(c, g, shown, s, target);
    } else {
      ExposureExists(c, g, s, id);
      if id.NodePortID? {
        PortBehind(c, g, shown, s, target, id);
      } else {
        BalancerBehind(c, g, shown, s, target);
      }
    }
  }

  // ---- controllers ----

  /** The controller, and every exposure that leads to it. */
  ghost predicate Behind(c: Cluster, controller: NodeID, id: NodeID) {
    id == controller || exists s :: s in c.services && IsExposure(id, s.key) && ExposureTarget(c, s) == controller
  }

  ghost predicate ControlsIngress(c: Cluster, id: NodeID) {
    exists i :: i in c.ingresses && ControllerOf(c, i) == Some(id)
  }

  lemma ControlsOnly(c: Cluster, e: Edge)
    requires Drawn(c, e) && e.kind == Controls && IsController(e.source)
    ensures ControlsIngress(c, e.source)
  {
    OnlyTraffic(c, e);
    if i :| i in c.ingresses && IngressDrawn(c, i, e) {
      IngressKinds(c, i, e);
    } else {
      var r :| r in c.external && ExternalDrawn(c, r, e);
      ExternalKinds(c, r, e);
    }
  }

  lemma ToController(c: Cluster, e: Edge, a: NodeID, controller: NodeID)
    requires Drawn(c, e) && IsController(controller) && Follows(e, a.Kind(), a, controller)
    ensures Behind(c, controller, a) || ControlsIngress(c, controller)
  {
    DrawnTyped(c, e);
    if e.source == controller {
      ControlsOnly(c, e);
    } else {
      OnlyExposure(c, e);
      var s :| s in c.services && ServiceExposed(c, s, e);
      ServiceExposureEnds(c, s, ExposureTarget(c, s), e);
    }
  }

  lemma ToExposure(c: Cluster, s: Service, e: Edge, a: NodeID, b: NodeID, controller: NodeID)
    requires UniqueServices(c.services) && s in c.services && controller == ExposureTarget(c, s)
    requires Drawn(c, e) && Follows(e, a.Kind(), a, b) && IsExposure(b, s.key)
    ensures Behind(c, controller, a)
  {
    FollowedToExposure(c, s, controller, e, a, b);
  }

  lemma StepBehind(c: Cluster, g: Graph, controller: NodeID, a: NodeID, b: NodeID)
    requires IsBuild(c, g) && UniqueServices(c.services) && IsController(controller) && !ControlsIngress(c, controller)
    requires GraphStep(g, a, b) && Behind(c, controller, b)
    ensures Behind(c, controller, a)
  {
    var e :| e in g.edges && Follows(e, a.Kind(), a, b);
    EdgeIsDrawn(c, g, e);
    if b == controller {
      ToController(c, e, a, controller);
    } else {
      var s :| s in c.services && IsExposure(b, s.key) && ExposureTarget(c, s) == controller;
      ToExposure(c, s, e, a, b, controller);
    }
  }

  lemma ControllerHidden(c: Cluster, g: Graph, shown: set<NodeID>, controller: NodeID)
    requires IsBuild(c, g) && PlainBalancers(g) && IsShown(g, shown) && IsLeast(g, shown) && UniqueServices(c.services)
    requires IsController(controller) && !ControlsIngress(c, controller)
    ensures controller !in shown
  {
    var hidden := set id | id in g.nodes && Behind(c, controller, id);
    forall id | id in hidden ensures !RootID(g, id) {
      NoProvider(g, id);
    }
    forall a, b | a in shown && a !in hidden && GraphStep(g, a, b) ensures b !in hidden {
      if b in hidden {
        StepBehind(c, g, controller, a, b);
      }
    }
    Unreachable(g, shown, hidden);
  }

  lemma IngressInBuild(c: Cluster, g: Graph, i: Ingress)
    requires IsBuild(c, g) && i in c.ingresses
    ensures IngressID(i.key) in g.nodes
  {
    assert IngressNode(i, IngressID(i.key));
    assert TrafficNode(c, IngressID(i.key));
  }

  lemma ControlsIn(c: Cluster, g: Graph, i: Ingress, controller: NodeID)
    requires IsBuild(c, g) && i in c.ingresses && ControllerOf(c, i) == Some(controller)
    ensures Edge(controller, IngressID(i.key), Controls) in g.edges
  {
    var e := Edge(controller, IngressID(i.key), Controls);
    assert IngressControlled(c, i, e);
    assert IngressDrawn(c, i, e);
    assert TrafficDrawn(c, e);
  }

  lemma BackFromIngress(g: Graph, shown: set<NodeID>, id: NodeID, ingress: NodeID)
    requires IsShown(g, shown) && id in g.nodes && ingress in g.nodes && ingress.IngressID? && Edge(id, ingress, Controls) in g.edges
    ensures id in shown
  {
    TrafficShown(g, shown, ingress);
    StepBack(g, shown, id, ingress, Controls);
  }

  /** A controller of Ingresses is published exactly when some Ingress belongs to
      it; a node port or load balancer alone does not show it. */
  lemma ControllerPublished(c: Cluster, g: Graph, shown: set<NodeID>, controller: NodeID)
    requires IsBuild(c, g) && PlainBalancers(g) && IsShown(g, shown) && IsLeast(g, shown) && UniqueServices(c.services)
    requires IsController(controller) && controller in g.nodes
    ensures controller in shown <==> ControlsIngress(c, controller)
  {
    if ControlsIngress(c, controller) {
      var i :| i in c.ingresses && ControllerOf(c, i) == Some(controller);
      IngressInBuild(c, g, i);
      ControlsIn(c, g, i, controller);
      BackFromIngress(g, shown, controller, IngressID(i.key));
    } else {
      ControllerHidden(c, g, shown, controller);
    }
  }

  /** So an exposure of a Service is published exactly when it leads to a
      controller that some Ingress belongs to. */
  lemma ExposurePublishedExactly(c: Cluster, g: Graph, shown: set<NodeID>, s: Service, target: NodeID, id: NodeID)
    requires IsBuild(c, g) && PlainBalancers(g) && IsShown(g, shown) && IsLeast(g, shown) && UniqueServices(c.services)
    requires s in c.services && target == ExposureTarget(c, s) && IsExposure(id, s.key) && id in g.nodes
    ensures id in shown <==> IsController(target) && ControlsIngress(c, target)
  {
    ExposurePublished(c, g, shown, s, target, id);
    if IsController(target) {
      if target in g.nodes {
        ControllerPublished(c, g, shown, target);
      } else {
        ControllerHere(c, g, target);
      }
    }
  }

  lemma ControllerHere(c: Cluster, g: Graph, controller: NodeID)
    requires IsBuild(c, g) && controller !in g.nodes && IsController(controller)
    ensures !ControlsIngress(c, controller)
  {
    if i :| i in c.ingresses && ControllerOf(c, i) == Some(controller) {
      GraphIntegrity.ControllerKnown(c, i);
      GraphIntegrity.KnownDrawn(c, controller);
    }
  }

  /** Some Gateway names the class, and the class is listed. */
  ghost predicate ControlsGateway(c: Cluster, name: string) {
    && name != "" && ExternalKey(GatewayClass, Key("", name)) in ExternalKeys(c)
    && exists r :: r in c.external && r.kind == Gateway && r.className == name
  }

  lemma ClassControlsIn(c: Cluster, g: Graph, name: string) returns (r: ExternalResource)
    requires IsBuild(c, g) && ControlsGateway(c, name)
    ensures r in c.external && r.kind == Gateway && GatewayID(r.key) in g.nodes
    ensures Edge(GatewayClassControllerID(name), GatewayID(r.key), Controls) in g.edges
  {
    r :| r in c.external && r.kind == Gateway && r.className == name;
    var e := Edge(GatewayClassControllerID(name), GatewayID(r.key), Controls);
    GatewayInBuild(c, g, r);
    assert ClassControls(c, r, e);
    assert GatewayDrawn(c, r, e);
    assert ExternalDrawn(c, r, e);
    assert TrafficDrawn(c, e);
  }

  /** A published Gateway class controls something. */
  lemma ClassShown(g: Graph, shown: set<NodeID>, id: NodeID) returns (b: NodeID)
    requires Shaped(g) && IsShown(g, shown) && id.GatewayClassControllerID? && id in shown
    ensures Edge(id, b, Controls) in g.edges
  {
    ControllerShown(g, shown, id);
    b :| b in shown && Edge(id, b, Controls) in g.edges;
  }

  /** A Gateway class is published exactly when some Gateway belongs to it. */
  lemma GatewayClassPublished(c: Cluster, g: Graph, shown: set<NodeID>, name: string)
    requires IsBuild(c, g) && Shaped(g) && IsShown(g, shown) && GatewayClassControllerID(name) in g.nodes
    ensures GatewayClassControllerID(name) in shown <==> ControlsGateway(c, name)
  {
    var id := GatewayClassControllerID(name);
    if id in shown {
      var b := ClassShown(g, shown, id);
      EdgeIsDrawn(c, g, Edge(id, b, Controls));
      GatewayClassOnly(c, Edge(id, b, Controls));
    }
    if ControlsGateway(c, name) {
      var r := ClassControlsIn(c, g, name);
      BackFromGateway(g, shown, id, GatewayID(r.key));
    }
  }

  lemma BackFromGateway(g: Graph, shown: set<NodeID>, id: NodeID, gateway: NodeID)
    requires IsShown(g, shown) && id in g.nodes && gateway in g.nodes && gateway.GatewayID? && Edge(id, gateway, Controls) in g.edges
    ensures id in shown
  {
    TrafficShown(g, shown, gateway);
    StepBack(g, shown, id, gateway, Controls);
  }

  lemma GatewayClassOnly(c: Cluster, e: Edge)
    requires Drawn(c, e) && e.kind == Controls && e.source.GatewayClassControllerID?
    ensures exists r :: r in c.external && r.kind == Gateway && ClassControls(c, r, e)
  {
    OnlyTraffic(c, e);
    if i :| i in c.ingresses && IngressDrawn(c, i, e) {
      IngressKinds(c, i, e);
      ControllerTyped(c, i, Some(e.source));
    } else {
      var r :| r in c.external && ExternalDrawn(c, r, e);
      ExternalKinds(c, r, e);
    }
  }

  lemma GatewayInBuild(c: Cluster, g: Graph, r: ExternalResource)
    requires IsBuild(c, g) && r in c.external && r.kind == Gateway
    ensures GatewayID(r.key) in g.nodes
  {
    assert ExternalNode(r, GatewayID(r.key));
    assert TrafficNode(c, GatewayID(r.key));
  }
}
