/** What every part of the build looks like: which kinds of nodes each kind of
    edge joins, in which direction, and that no node has an empty address. */
module GraphShapes {
  import opened Collections
  import opened Kube
  import opened NodeIDs
  import opened EndpointModel
  import opened Topology
  import opened Builder
  import opened DrawnEndpoints
  import opened DrawnEdges
  import opened DrawnNodes
  import Text

  predicate IsController(id: NodeID) { id.ClassControllerID? || id.StatusControllerID? }

  predicate IsRoute(id: NodeID) { id.IngressRouteID? || id.GatewayRouteID? }

  predicate Typed(e: Edge) {
    var a, b := e.source, e.target;
    match e.kind
    case Hosts => a.MachineID? && b.PodID?
    case ExternalNameEdge => a.ServiceID? && b.ExternalNameID?
    case Exposes => a.ServiceLBID? && b.NodePortID?
    case Forwards => a.NodePortID? && (IsController(b) || b.ServiceID?)
    case Balances => (a.ServiceLBID? && (IsController(b) || b.ServiceID?)) || (a.ExternalLBID? && b.ServiceID?)
    case Resolves => a.DNSID? && (b.IngressID? || b.GatewayID? || b.GatewayRouteID? || b.ExternalLBID?)
    case Fronts => (a.IngressLBID? && b.IngressID?) || (a.GatewayLBID? && b.GatewayID?)
    case Controls => (IsController(a) && b.IngressID?) || (a.GatewayClassControllerID? && b.GatewayID?)
    case CanaryEdge => a.IngressRouteID? && b.ServiceID?
    case Defines => a.IngressID? && b.IngressRouteID?
    case Routes => IsRoute(a) && b.ServiceID?
    case Attaches => a.GatewayID? && b.GatewayRouteID?
    case Rejected => a.GatewayID? && b.GatewayRouteID?
    case Selects => a.ServiceID? && b.PodID?
    case SliceEdge => a.ServiceID? && (b.PodID? || b.SliceEndpointID?)
    case EndpointEdge => a.ServiceID? && (b.PodID? || b.LegacyEndpointID?)
    case NoData => false
  }

  /** An endpoint ID without an address; no node has one. */
  predicate Blank(id: NodeID) {
    match id
    case SliceEndpointID(_, _, address) => address == ""
    case LegacyEndpointID(_, address) => address == ""
    case _ => false
  }

  ghost predicate Shaped(g: Graph) {
    && (forall e :: e in g.edges ==> Typed(e))
    && (forall id :: id in g.nodes ==> !Blank(id))
  }

  lemma TargetShaped(c: Cluster, s: Service)
    ensures IsController(ExposureTarget(c, s)) || ExposureTarget(c, s).ServiceID?
  {
  }

  lemma ExposureTyped(c: Cluster, s: Service, e: Edge)
    requires ServiceExposed(c, s, e)
    ensures Typed(e)
  {
    TargetShaped(c, s);
  }

  lemma ControllerTyped(c: Cluster, i: Ingress, controller: Option<NodeID>)
    requires controller == ControllerOf(c, i)
    ensures controller.Some? ==> IsController(controller.value)
  {
  }

  lemma RouteTyped(c: Cluster, i: Ingress, route: Route, e: Edge)
    requires RouteDrawn(c, i, route, e)
    ensures Typed(e)
  {
  }

  lemma SomeRouteTyped(c: Cluster, i: Ingress, e: Edge)
    requires SomeRouteDrawn(c, i, e)
    ensures Typed(e)
  {
    var route :| route in IngressRoutes(i) && RouteDrawn(c, i, route, e);
    RouteTyped(c, i, route, e);
  }

  lemma FrontedTyped(i: Ingress, e: Edge)
    requires IngressFronted(i, e)
    ensures Typed(e)
  {
  }

  lemma ControlledTyped(c: Cluster, i: Ingress, e: Edge)
    requires IngressControlled(c, i, e)
    ensures Typed(e)
  {
    ControllerTyped(c, i, Some(e.source));
  }

  lemma IngressTyped(c: Cluster, i: Ingress, e: Edge)
    requires IngressDrawn(c, i, e)
    ensures Typed(e)
  {
    if SomeRouteDrawn(c, i, e) {
      SomeRouteTyped(c, i, e);
    } else if IngressFronted(i, e) {
      FrontedTyped(i, e);
    } else if IngressControlled(c, i, e) {
      ControlledTyped(c, i, e);
    }
  }

  lemma ExternalTyped(c: Cluster, r: ExternalResource, e: Edge)
    requires ExternalDrawn(c, r, e)
    ensures Typed(e)
  {
  }

  lemma SliceTyped(c: Cluster, s: EndpointSlice, service: Key, e: Edge)
    requires SliceDrawn(c, s, service, e)
    ensures Typed(e) && e.kind == SliceEdge && e.source == ServiceID(service)
  {
    var endpoint, a :| DrawnFor(c, s, service, e, endpoint, a);
  }

  lemma LegacyTyped(c: Cluster, endpoints: Endpoints, e: Edge)
    requires LegacyDrawn(c, endpoints, e)
    ensures Typed(e) && e.kind == EndpointEdge && e.source == ServiceID(endpoints.key)
  {
    var a :| a in LegacyAddresses(endpoints) && e == LegacyEdge(c, endpoints, a);
  }

  lemma BackendsTyped(c: Cluster, e: Edge)
    requires BackendsDrawn(c, e)
    ensures Typed(e)
  {
    if s, service :| s in c.slices && SliceDrawn(c, s, service, e) {
      SliceTyped(c, s, service, e);
    } else if endpoints :| endpoints in c.endpoints && LegacyDrawn(c, endpoints, e) {
      LegacyTyped(c, endpoints, e);
    }
  }

  /** An edge that some object accounts for joins the right kinds of nodes. */
  lemma DrawnTyped(c: Cluster, e: Edge)
    requires Drawn(c, e)
    ensures Typed(e)
  {
    if WorkloadDrawn(c, e) {
    } else if ExposureDrawn(c, e) {
      var s :| s in c.services && ServiceExposed(c, s, e);
      ExposureTyped(c, s, e);
    } else if i :| i in c.ingresses && IngressDrawn(c, i, e) {
      IngressTyped(c, i, e);
    } else if r :| r in c.external && ExternalDrawn(c, r, e) {
      ExternalTyped(c, r, e);
    } else {
      BackendsTyped(c, e);
    }
  }

  lemma EndpointNotBlank(c: Cluster, id: NodeID)
    requires EndpointNode(c, id)
    ensures !Blank(id)
  {
    if s :| s in c.slices && SliceHasNode(c, s, id) {
      var e, a :| SliceNode(c, s, SliceService(s).value, e, a, id);
      Text.SafeIDEmpty(a);
    } else {
      var e :| e in c.endpoints && LegacyHasNode(c, e, id);
      var a :| LegacyNode(c, e, a, id);
      Text.SafeIDEmpty(a.address.ip);
    }
  }

  lemma TrafficNotBlank(c: Cluster, id: NodeID)
    requires TrafficNode(c, id)
    ensures !Blank(id)
  {
  }

  lemma DrawnNotBlank(c: Cluster, id: NodeID)
    requires DrawnNode(c, id)
    ensures !Blank(id)
  {
    if EndpointNode(c, id) {
      EndpointNotBlank(c, id);
    } else if TrafficNode(c, id) {
      TrafficNotBlank(c, id);
    }
  }

  /** Every edge of the build joins the kinds of nodes its kind stands for, and
      no node has an empty address. */
  lemma BuildShaped(c: Cluster)
    ensures Shaped(Build(c))
  {
    var g := Build(c);
    forall e | e in g.edges ensures Typed(e) {
      EdgesExactly(c, e);
      DrawnTyped(c, e);
    }
    forall id | id in g.nodes ensures !Blank(id) {
      NodesExactly(c, id);
      DrawnNotBlank(c, id);
    }
  }
}
