/** The traffic side of the graph — Ingresses, their routes and diagnoses,
    Gateway API and F5 resources — is the same on the pruned inputs. */
module PrunedTraffic {
  import opened Collections
  import opened Kube
  import opened NodeIDs
  import opened EndpointModel
  import opened ControllerModel
  import opened Overlaps
  import opened OverlapMembers
  import opened Diagnosis
  import opened Topology
  import opened Builder
  import opened Pruning
  import opened PrunedIndexes
  import opened PrunedGraph
  import Text

  lemma RouteServiceKept(c: Cluster, i: Ingress, route: Route)
    requires i in c.ingresses && route in IngressRoutes(i) && route.serviceName != ""
    ensures RouteService(i, route) in ServiceKeys(c)
  {
    CollectMember(c.ingresses, IngressRefs);
    CollectMember(IngressRoutes(i), RouteServiceKey(i));
    assert RouteService(i, route) in RouteServiceKey(i)(route);
    assert RouteService(i, route) in IngressRefs(i);
  }

  lemma SameRouteService(c: Cluster, i: Ingress, route: Route)
    requires WellFormed(c) && i in c.ingresses && route in IngressRoutes(i)
    ensures Lookup(Services(Prune(c)), RouteService(i, route)) == Lookup(Services(c), RouteService(i, route))
    ensures RouteService(i, route) in Services(c) ==> RouteService(i, route) in ServiceKeys(c)
  {
    if route.serviceName != "" {
      RouteServiceKept(c, i, route);
      SameService(c, RouteService(i, route));
    } else {
      IndexMember(c.services, ServiceKey);
      IndexMember(Prune(c).services, ServiceKey);
      FilterMember(c.services, KeepService(ServiceKeys(c)));
    }
  }

  lemma SameNonEndpointPods(c: Cluster, i: Ingress, route: Route)
    requires RouteService(i, route) in ServiceKeys(c)
    ensures RouteNonEndpointPods(Prune(c), i, route) == RouteNonEndpointPods(c, i, route)
  {
    var key := RouteService(i, route);
    SameService(c, key);
    SameServicePods(c, key);
    if key in Services(c) {
      match PortNameIn(Services(c)[key].ports, route.servicePort)
      case Some(port) => SamePortPods(c, key, port);
      case None =>
    }
  }

  lemma SameDiagnosis(c: Cluster, i: Ingress, route: Route)
    requires WellFormed(c) && i in c.ingresses && route in IngressRoutes(i)
    ensures RouteDiagnosis(Prune(c), i, route) == RouteDiagnosis(c, i, route)
  {
    RoutesWellFormed(BackendEntries(i));
    if route.serviceName != "" {
      var key := RouteService(i, route);
      RouteServiceKept(c, i, route);
      SameService(c, key);
      SameServicePods(c, key);
      SameStats(c, key);
      SameNonEndpointPods(c, i, route);
      SameController(c, i);
    }
  }

  lemma SameOverlaps(c: Cluster)
    ensures ClusterOverlaps(Prune(c)) == ClusterOverlaps(c)
  {
    forall i ensures ControllerOf(Prune(c), i) == ControllerOf(c, i) {
      SameController(c, i);
    }
    IndexSame(c.ingresses, ControlledKey(Prune(c)), ControlledKey(c));
    assert IngressControllers(Prune(c)) == IngressControllers(c);
  }

  lemma KeepsCanary(c: Cluster, id: NodeID, l: CanaryLink)
    requires WellFormed(c) && id.IngressRouteID?
    requires l.canary.ingress in c.ingresses && l.canary.route in IngressRoutes(l.canary.ingress)
    ensures CanaryPiece(Prune(c), id)(l) == CanaryPiece(c, id)(l)
    ensures KeptBy(c).Within(CanaryPiece(c, id)(l))
  {
    SameRouteService(c, l.canary.ingress, l.canary.route);
  }

  lemma KeepsCanaries(c: Cluster, id: NodeID)
    requires WellFormed(c) && id.IngressRouteID?
    ensures
      var canaries := OverlapAt(ClusterOverlaps(c), id).canaries;
      && Sum(canaries, CanaryPiece(Prune(c), id)) == Sum(canaries, CanaryPiece(c, id))
      && KeptBy(c).Within(Sum(canaries, CanaryPiece(c, id)))
  {
    var all := Members(c.ingresses, IngressControllers(c));
    var canaries := OverlapAt(ClusterOverlaps(c), id).canaries;
    forall l | l in canaries
      ensures CanaryPiece(Prune(c), id)(l) == CanaryPiece(c, id)(l) && KeptBy(c).Within(CanaryPiece(c, id)(l))
    {
      OverlapLinks(all, id, l);
      MembersFrom(c.ingresses, IngressControllers(c));
      KeepsCanary(c, id, l);
    }
    SumSame(canaries, CanaryPiece(Prune(c), id), CanaryPiece(c, id));
    WithinSum(KeptBy(c), canaries, CanaryPiece(c, id));
  }

  lemma KeepsRoute(c: Cluster, i: Ingress, route: Route)
    requires WellFormed(c) && i in c.ingresses && route in IngressRoutes(i)
    ensures RoutePiece(Prune(c), i)(route) == RoutePiece(c, i)(route)
    ensures KeptBy(c).Within(RoutePiece(c, i)(route))
  {
    var id := IngressRouteID(i.key, route.id);
    SameOverlaps(c);
    SameDiagnosis(c, i, route);
    SameRouteService(c, i, route);
    KeepsCanaries(c, id);
    RouteWithin(KeptBy(c), c, i, route);
  }

  lemma RouteNodeWithin(kept: Kept, c: Cluster, i: Ingress, route: Route)
    ensures kept.Within(RouteNode(c, i, route))
  {
  }

  lemma RouteBackendWithin(kept: Kept, c: Cluster, i: Ingress, route: Route)
    requires RouteService(i, route) in Services(c) ==> RouteService(i, route) in kept.services
    ensures kept.Within(RouteBackend(c, i, route))
  {
  }

  lemma RouteWithin(kept: Kept, c: Cluster, i: Ingress, route: Route)
    requires
      var id := IngressRouteID(i.key, route.id);
      kept.Within(Sum(OverlapAt(ClusterOverlaps(c), id).canaries, CanaryPiece(c, id)))
    requires RouteService(i, route) in Services(c) ==> RouteService(i, route) in kept.services
    ensures kept.Within(RoutePiece(c, i)(route))
  {
    var id := IngressRouteID(i.key, route.id);
    RouteNodeWithin(kept, c, i, route);
    RouteBackendWithin(kept, c, i, route);
    EdgeWithin(kept, IngressID(i.key), id, Defines, route.EdgeLabel());
    WithinPlus4(kept, RouteNode(c, i, route), Sum(OverlapAt(ClusterOverlaps(c), id).canaries, CanaryPiece(c, id)),
                OneEdge(IngressID(i.key), id, Defines, route.EdgeLabel()), RouteBackend(c, i, route));
  }

  lemma DNSWithin(kept: Kept, hosts: seq<string>, target: NodeID)
    requires kept.Keeps(target)
    ensures kept.Within(Sum(hosts, DNSPiece(target)))
  {
    WithinSum(kept, hosts, DNSPiece(target));
  }

  lemma WithinPlus4(kept: Kept, a: Graph, b: Graph, c: Graph, d: Graph)
    requires kept.Within(a) && kept.Within(b) && kept.Within(c) && kept.Within(d)
    ensures kept.Within(a.Plus(b).Plus(c).Plus(d))
  {
    WithinPlus(kept, a, b);
    WithinPlus(kept, a.Plus(b), c);
    WithinPlus(kept, a.Plus(b).Plus(c), d);
  }

  lemma EmptyWithin(kept: Kept)
    ensures kept.Within(EMPTY_GRAPH)
  {
  }

  lemma NodeWithin(kept: Kept, id: NodeID, info: NodeInfo)
    requires kept.Keeps(id)
    ensures kept.Within(OneNode(id, info))
  {
  }

  lemma EdgeWithin(kept: Kept, source: NodeID, target: NodeID, kind: EdgeKind, text: string)
    requires kept.Keeps(source) && kept.Keeps(target)
    ensures kept.Within(OneEdge(source, target, kind, text))
  {
  }

  lemma KeepsIngress(c: Cluster, i: Ingress)
    requires WellFormed(c) && i in c.ingresses
    ensures IngressPiece(Prune(c))(i) == IngressPiece(c)(i)
    ensures KeptBy(c).Within(IngressPiece(c)(i))
  {
    var kept, id := KeptBy(c), IngressID(i.key);
    forall r | r in IngressRoutes(i)
      ensures RoutePiece(Prune(c), i)(r) == RoutePiece(c, i)(r) && kept.Within(RoutePiece(c, i)(r))
    {
      KeepsRoute(c, i, r);
    }
    SumSame(IngressRoutes(i), RoutePiece(Prune(c), i), RoutePiece(c, i));
    SameController(c, i);
    assert ControllerPiece(Prune(c), i) == ControllerPiece(c, i);
    IngressWithin(kept, c, i);
  }

  lemma IngressWithin(kept: Kept, c: Cluster, i: Ingress)
    requires forall r :: r in IngressRoutes(i) ==> kept.Within(RoutePiece(c, i)(r))
    ensures kept.Within(IngressPiece(c)(i))
  {
    var self := OneNode(IngressID(i.key), IngressInfo(i));
    var hosts := Sum(IngressHosts(i), DNSPiece(IngressID(i.key)));
    var addresses := Sum(IngressAddresses(i), IngressAddressPiece(i));
    DNSWithin(kept, IngressHosts(i), IngressID(i.key));
    AddressesWithin(kept, i);
    WithinSum(kept, IngressRoutes(i), RoutePiece(c, i));
    ControllerWithin(kept, c, i);
    NodeWithin(kept, IngressID(i.key), IngressInfo(i));
    WithinPlus4(kept, self, hosts, addresses, ControllerPiece(c, i));
    WithinPlus(kept, self.Plus(hosts).Plus(addresses).Plus(ControllerPiece(c, i)), Sum(IngressRoutes(i), RoutePiece(c, i)));
  }

  lemma AddressesWithin(kept: Kept, i: Ingress)
    ensures kept.Within(Sum(IngressAddresses(i), IngressAddressPiece(i)))
  {
    forall a | a in IngressAddresses(i) ensures kept.Within(IngressAddressPiece(i)(a)) {
      AttachedWithin(kept, IngressLBID(i.key, Text.SafeID(a)), AddressInfo(i.key, a, IngressProvider(i)),
                     IngressID(i.key), Fronts, "Ingress status");
    }
    WithinSum(kept, IngressAddresses(i), IngressAddressPiece(i));
  }

  lemma AttachedWithin(kept: Kept, id: NodeID, info: NodeInfo, target: NodeID, kind: EdgeKind, text: string)
    requires kept.Keeps(id) && kept.Keeps(target)
    ensures kept.Within(OneNode(id, info).Plus(OneEdge(id, target, kind, text)))
  {
    NodeWithin(kept, id, info);
    EdgeWithin(kept, id, target, kind, text);
    WithinPlus(kept, OneNode(id, info), OneEdge(id, target, kind, text));
  }

  lemma ControllerWithin(kept: Kept, c: Cluster, i: Ingress)
    ensures kept.Within(ControllerPiece(c, i))
  {
  }

  // ---- Gateway API and F5 ----

  lemma SameBackendService(c: Cluster, r: ExternalResource, b: BackendRef)
    requires r in c.external && b in r.backends && IsServiceBackend(b)
    ensures BackendKey(b, r) in ServiceKeys(c)
    ensures Lookup(Services(Prune(c)), BackendKey(b, r)) == Lookup(Services(c), BackendKey(b, r))
  {
    CollectMember(r.backends, BackendRefKey(r));
    assert BackendKey(b, r) in BackendRefKey(r)(b);
    CollectMember(c.external, ResourceRefs(c.services));
    assert BackendKey(b, r) in ResourceRefs(c.services)(r);
    SameService(c, BackendKey(b, r));
  }

  lemma SameReferences(c: Cluster, r: ExternalResource)
    requires r in c.external
    ensures GatewayRouteNode(Prune(c), r) == GatewayRouteNode(c, r)
    ensures forall b :: b in r.backends ==> BackendReference(Prune(c), r)(b) == BackendReference(c, r)(b)
  {
    forall b | b in r.backends ensures BackendReference(Prune(c), r)(b) == BackendReference(c, r)(b) {
      if IsServiceBackend(b) {
        SameBackendService(c, r, b);
      }
    }
    assert References(r.backends, BackendReference(Prune(c), r)) == References(r.backends, BackendReference(c, r));
    assert References(r.parents, ParentReference(Prune(c), r)) == References(r.parents, ParentReference(c, r));
  }

  lemma KeepsBackend(c: Cluster, r: ExternalResource, b: BackendRef)
    requires r in c.external && b in r.backends
    ensures BackendPiece(Prune(c), r)(b) == BackendPiece(c, r)(b)
    ensures KeptBy(c).Within(BackendPiece(c, r)(b))
    ensures F5BackendPiece(Prune(c), r)(b) == F5BackendPiece(c, r)(b)
    ensures KeptBy(c).Within(F5BackendPiece(c, r)(b))
  {
    SameReferences(c, r);
    if IsServiceBackend(b) {
      SameBackendService(c, r, b);
    }
  }

  lemma SameSelectedServices(c: Cluster, r: ExternalResource)
    requires r in c.external
    ensures SelectedServices(Prune(c), r) == SelectedServices(c, r)
    ensures forall id :: id in SelectedServices(c, r) ==> KeptBy(c).Keeps(id)
  {
    IndexMember(c.services, ServiceKey);
    CollectMember(c.services, SelectedKey(r));
    CollectMember(c.external, ResourceRefs(c.services));
    forall k | k in Services(c) && ResourceSelects(r, Services(c)[k]) ensures k in ServiceKeys(c) {
      assert k in SelectedKey(r)(Services(c)[k]);
      assert k in ResourceRefs(c.services)(r);
    }
    forall k | k in Services(c) || k in Services(Prune(c))
      ensures k in Services(Prune(c)) && ResourceSelects(r, Services(Prune(c))[k])
         <==> k in Services(c) && ResourceSelects(r, Services(c)[k])
    {
      if k in ServiceKeys(c) {
        SameService(c, k);
      } else if k in Services(Prune(c)) {
        OnlyKeptServices(c, k);
      }
    }
  }

  lemma KeepsBackends(c: Cluster, r: ExternalResource)
    requires r in c.external
    ensures Sum(r.backends, BackendPiece(Prune(c), r)) == Sum(r.backends, BackendPiece(c, r))
    ensures KeptBy(c).Within(Sum(r.backends, BackendPiece(c, r)))
    ensures Sum(r.backends, F5BackendPiece(Prune(c), r)) == Sum(r.backends, F5BackendPiece(c, r))
    ensures KeptBy(c).Within(Sum(r.backends, F5BackendPiece(c, r)))
  {
    forall b | b in r.backends
      ensures BackendPiece(Prune(c), r)(b) == BackendPiece(c, r)(b) && KeptBy(c).Within(BackendPiece(c, r)(b))
      ensures F5BackendPiece(Prune(c), r)(b) == F5BackendPiece(c, r)(b) && KeptBy(c).Within(F5BackendPiece(c, r)(b))
    {
      KeepsBackend(c, r, b);
    }
    SumSame(r.backends, BackendPiece(Prune(c), r), BackendPiece(c, r));
    WithinSum(KeptBy(c), r.backends, BackendPiece(c, r));
    SumSame(r.backends, F5BackendPiece(Prune(c), r), F5BackendPiece(c, r));
    WithinSum(KeptBy(c), r.backends, F5BackendPiece(c, r));
  }

  lemma GatewayAddressesWithin(kept: Kept, r: ExternalResource)
    ensures kept.Within(Sum(r.addresses, GatewayAddressPiece(r)))
  {
    forall a | a in r.addresses ensures kept.Within(GatewayAddressPiece(r)(a)) {
      AttachedWithin(kept, GatewayLBID(r.key, Text.SafeID(a)), AddressInfo(r.key, a, "Gateway API"),
                     GatewayID(r.key), Fronts, "Gateway status");
    }
    WithinSum(kept, r.addresses, GatewayAddressPiece(r));
  }

  lemma ClassEdgeWithin(kept: Kept, c: Cluster, r: ExternalResource)
    ensures kept.Within(GatewayClassEdge(c, r))
  {
    EmptyWithin(kept);
    EdgeWithin(kept, GatewayClassControllerID(r.className), GatewayID(r.key), Controls, "GatewayClass");
  }

  lemma GatewayWithin(kept: Kept, c: Cluster, r: ExternalResource)
    ensures kept.Within(GatewayPiece(c, r))
  {
    NodeWithin(kept, GatewayID(r.key), GatewayInfo(r));
    ClassEdgeWithin(kept, c, r);
    GatewayAddressesWithin(kept, r);
    DNSWithin(kept, r.hostnames, GatewayID(r.key));
    WithinPlus4(kept, OneNode(GatewayID(r.key), GatewayInfo(r)), GatewayClassEdge(c, r),
                Sum(r.addresses, GatewayAddressPiece(r)), Sum(r.hostnames, DNSPiece(GatewayID(r.key))));
  }

  lemma ParentWithin(kept: Kept, c: Cluster, r: ExternalResource, p: ParentRef)
    ensures kept.Within(ParentPiece(c, r)(p))
  {
    var reference := ParentReference(c, r)(p);
    EmptyWithin(kept);
    if reference.Resolved? {
      EdgeWithin(kept, GatewayID(reference.key), GatewayRouteID(r.kind, r.key), AttachmentKind(r), r.kind.Text());
    }
  }

  lemma SameParent(c: Cluster, r: ExternalResource, p: ParentRef)
    ensures ParentPiece(Prune(c), r)(p) == ParentPiece(c, r)(p)
  {
    assert ExternalKeys(Prune(c)) == ExternalKeys(c);
    assert ParentReference(Prune(c), r)(p) == ParentReference(c, r)(p);
  }

  lemma KeepsParents(c: Cluster, r: ExternalResource)
    ensures Sum(r.parents, ParentPiece(Prune(c), r)) == Sum(r.parents, ParentPiece(c, r))
    ensures KeptBy(c).Within(Sum(r.parents, ParentPiece(c, r)))
  {
    forall p | p in r.parents ensures ParentPiece(Prune(c), r)(p) == ParentPiece(c, r)(p) {
      SameParent(c, r, p);
    }
    SumSame(r.parents, ParentPiece(Prune(c), r), ParentPiece(c, r));
    forall p | p in r.parents ensures KeptBy(c).Within(ParentPiece(c, r)(p)) {
      ParentWithin(KeptBy(c), c, r, p);
    }
    WithinSum(KeptBy(c), r.parents, ParentPiece(c, r));
  }

  lemma KeepsGatewayRoute(c: Cluster, r: ExternalResource)
    requires r in c.external
    ensures GatewayRoutePiece(Prune(c), r) == GatewayRoutePiece(c, r)
    ensures KeptBy(c).Within(GatewayRoutePiece(c, r))
  {
    KeepsParents(c, r);
    KeepsBackends(c, r);
    SameReferences(c, r);
    DNSWithin(KeptBy(c), r.hostnames, GatewayRouteID(r.kind, r.key));
    WithinPlus4(KeptBy(c), Sum(r.parents, ParentPiece(c, r)), Sum(r.backends, BackendPiece(c, r)),
                GatewayRouteNode(c, r), Sum(r.hostnames, DNSPiece(GatewayRouteID(r.kind, r.key))));
  }

  lemma FanWithin(kept: Kept, source: NodeID, targets: set<NodeID>, kind: EdgeKind, text: string)
    requires kept.Keeps(source) && forall t :: t in targets ==> kept.Keeps(t)
    ensures kept.Within(Fan(source, targets, kind, text))
  {
  }

  lemma KeepsF5(c: Cluster, r: ExternalResource)
    requires r in c.external
    ensures F5Piece(Prune(c), r) == F5Piece(c, r)
    ensures KeptBy(c).Within(F5Piece(c, r))
  {
    var id := ExternalLBID(r.kind, r.key);
    KeepsBackends(c, r);
    SameSelectedServices(c, r);
    DNSWithin(KeptBy(c), r.hostnames, id);
    FanWithin(KeptBy(c), id, SelectedServices(c, r), Balances, r.kind.Text());
    WithinPlus4(KeptBy(c), OneNode(id, ExternalLBInfo(r)), Sum(r.hostnames, DNSPiece(id)),
                Sum(r.backends, F5BackendPiece(c, r)), Fan(id, SelectedServices(c, r), Balances, r.kind.Text()));
  }

  lemma GatewayClassWithin(kept: Kept, r: ExternalResource)
    ensures kept.Within(GatewayClassPiece(r))
  {
  }

  lemma KeepsGateway(c: Cluster, r: ExternalResource)
    ensures GatewayPiece(Prune(c), r) == GatewayPiece(c, r)
  {
    SameClassEdge(c, r);
  }

  lemma SameClassEdge(c: Cluster, r: ExternalResource)
    ensures GatewayClassEdge(Prune(c), r) == GatewayClassEdge(c, r)
  {
    assert ExternalKeys(Prune(c)) == ExternalKeys(c);
  }

  lemma KeepsExternal(c: Cluster, r: ExternalResource)
    requires r in c.external
    ensures ExternalPiece(Prune(c))(r) == ExternalPiece(c)(r)
    ensures KeptBy(c).Within(ExternalPiece(c)(r))
  {
    if r.kind == GatewayClass {
      GatewayClassWithin(KeptBy(c), r);
    } else if r.kind == Gateway {
      GatewayWithin(KeptBy(c), c, r);
      KeepsGateway(c, r);
    } else if r.kind.IsRoute() {
      KeepsGatewayRoute(c, r);
    } else if r.kind.IsF5() {
      KeepsF5(c, r);
    } else {
      EmptyWithin(KeptBy(c));
    }
  }

  lemma KeepsTraffic(c: Cluster)
    requires WellFormed(c)
    ensures KeptBy(c).Restrict(Traffic(c)) == Traffic(Prune(c))
  {
    forall i | i in c.ingresses ensures KeptBy(c).Restrict(IngressPiece(c)(i)) == IngressPiece(Prune(c))(i) {
      KeepsIngress(c, i);
      WithinRestrict(KeptBy(c), IngressPiece(c)(i));
    }
    RestrictAll(KeptBy(c), c.ingresses, IngressPiece(c), IngressPiece(Prune(c)));
    forall r | r in c.external ensures KeptBy(c).Restrict(ExternalPiece(c)(r)) == ExternalPiece(Prune(c))(r) {
      KeepsExternal(c, r);
      WithinRestrict(KeptBy(c), ExternalPiece(c)(r));
    }
    RestrictAll(KeptBy(c), c.external, ExternalPiece(c), ExternalPiece(Prune(c)));
    RestrictPlus(KeptBy(c), Sum(c.ingresses, IngressPiece(c)), Sum(c.external, ExternalPiece(c)));
  }
}
