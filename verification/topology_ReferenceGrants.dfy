/** Gateway API references told by the fields of routes, grants and Services: when a
    route leads to a Service, and what else a reference is reported as. */
module ReferenceGrants {
  import opened Collections
  import opened Kube
  import opened NodeIDs
  import opened Topology
  import opened Builder
  import opened DrawnEndpoints
  import opened DrawnEdges
  import opened GraphShapes
  import opened PublishedCluster
  import Text

  // ---- backends ----

  /** The reference is to a core Service of that key; without a namespace the
      route's own is meant. */
  predicate NamesCoreService(r: ExternalResource, b: BackendRef, k: Key) {
    && Text.TrimSpace(b.group) in {"", "core"}
    && (Text.TrimSpace(b.kind) == "" || Text.EqualFold(Text.TrimSpace(b.kind), "Service"))
    && k.name == b.name && k.namespace == if b.namespace == "" then r.key.namespace else b.namespace
  }

  ghost predicate ServiceListed(c: Cluster, k: Key) {
    exists s :: s in c.services && s.key == k
  }

  function RouteKindName(kind: ExternalKind): string {
    match kind
    case HTTPRoute => "HTTPRoute"
    case GRPCRoute => "GRPCRoute"
    case TLSRoute => "TLSRoute"
    case TCPRoute => "TCPRoute"
    case UDPRoute => "UDPRoute"
    case _ => ""
  }

  /** The entry admits routes of this kind from this namespace. */
  predicate AdmitsFrom(f: GrantFrom, r: ExternalResource) {
    f.namespace == r.key.namespace && f.group == "gateway.networking.k8s.io" && Text.EqualFold(f.kind, RouteKindName(r.kind))
  }

  /** The entry opens the Service of that name, or every Service. */
  predicate Opens(t: GrantTo, name: string) {
    (t.group == "" || t.group == "core") && Text.EqualFold(t.kind, "Service") && (t.name == "" || t.name == name)
  }

  /** A ReferenceGrant of the Service's namespace admits the route to it. */
  ghost predicate AdmittedBy(c: Cluster, r: ExternalResource, k: Key, g: ExternalResource) {
    && g in c.external && g.kind == ReferenceGrant && g.key.namespace == k.namespace
    && (exists f :: f in g.grantFrom && AdmitsFrom(f, r))
    && (exists t :: t in g.grantTo && Opens(t, k.name))
  }

  /** The route may refer to the Service: within its namespace, or admitted. */
  ghost predicate MayRefer(c: Cluster, r: ExternalResource, k: Key) {
    k.namespace == r.key.namespace || exists g :: AdmittedBy(c, r, k, g)
  }

  lemma GrantExactly(c: Cluster, r: ExternalResource, b: BackendRef, k: Key)
    requires r.kind.IsRoute() && b.name == k.name
    ensures Granted(r, b, k.namespace, Grants(c)) <==> exists g :: AdmittedBy(c, r, k, g)
  {
    FilterMember(c.external, IsGrant);
    forall f ensures FromMatches(f, r) <==> AdmitsFrom(f, r) {
    }
    forall t ensures ToMatches(t, b) <==> Opens(t, k.name) {
    }
    if g :| g in Grants(c) && g.key.namespace == k.namespace && GrantsFrom(g, r) && GrantsTo(g, b) {
      assert AdmittedBy(c, r, k, g);
    }
    if g :| AdmittedBy(c, r, k, g) {
      assert g in Grants(c) && GrantsFrom(g, r) && GrantsTo(g, b);
    }
  }

  lemma ListedServices(c: Cluster, k: Key)
    ensures k in Services(c) <==> ServiceListed(c, k)
  {
    IndexMember(c.services, ServiceKey);
    if k in Services(c) {
      assert Services(c)[k].key == k;
    }
  }

  lemma CoreServiceExactly(r: ExternalResource, b: BackendRef, k: Key)
    ensures IsServiceBackend(b) && BackendKey(b, r) == k <==> NamesCoreService(r, b, k)
  {
  }

  /** What each backend reference of a route is reported as. */
  lemma BackendExactly(c: Cluster, r: ExternalResource, b: BackendRef, k: Key)
    requires r.kind.IsRoute()
    ensures BackendReference(c, r)(b) == Resolved(k) <==>
              NamesCoreService(r, b, k) && ServiceListed(c, k) && MayRefer(c, r, k)
    ensures BackendReference(c, r)(b) == NeedsGrant(k) <==>
              NamesCoreService(r, b, k) && ServiceListed(c, k) && !MayRefer(c, r, k)
    ensures BackendReference(c, r)(b) == Missing(k) <==>
              NamesCoreService(r, b, k) && !ServiceListed(c, k) && (c.watchNamespace == "" || c.watchNamespace == k.namespace)
    ensures BackendReference(c, r)(b) == OutsideWatch(k) <==>
              NamesCoreService(r, b, k) && !ServiceListed(c, k) && c.watchNamespace != "" && c.watchNamespace != k.namespace
  {
    var own := BackendKey(b, r);
    CoreServiceExactly(r, b, k);
    CoreServiceExactly(r, b, own);
    ListedServices(c, own);
    GrantExactly(c, r, b, own);
  }

  /** A backend that names no core Service is unsupported, and only such a one. */
  lemma UnsupportedExactly(c: Cluster, r: ExternalResource, b: BackendRef)
    requires r.kind.IsRoute()
    ensures BackendReference(c, r)(b).Unsupported? <==> forall k :: !NamesCoreService(r, b, k)
  {
    forall k ensures IsServiceBackend(b) && BackendKey(b, r) == k <==> NamesCoreService(r, b, k) {
      CoreServiceExactly(r, b, k);
    }
    if IsServiceBackend(b) {
      assert NamesCoreService(r, b, BackendKey(b, r));
    }
  }

  // ---- the edge to the Service ----

  ghost predicate RoutesTo(c: Cluster, kind: ExternalKind, key: Key, k: Key, r: ExternalResource, b: BackendRef) {
    && r in c.external && r.kind == kind && r.key == key && b in r.backends
    && NamesCoreService(r, b, k) && ServiceListed(c, k) && MayRefer(c, r, k)
  }

  lemma RoutesOnly(c: Cluster, e: Edge)
    requires Drawn(c, e) && e.kind == Routes && e.source.GatewayRouteID?
    ensures exists r, b :: r in c.external && r.kind.IsRoute() && b in r.backends && BackendRouted(c, r, b, e)
  {
    OnlyTraffic(c, e);
    if i :| i in c.ingresses && IngressDrawn(c, i, e) {
      IngressRouteKinds(c, i, e);
      NoGatewaySource(c, i, e);
    } else {
      var r :| r in c.external && ExternalDrawn(c, r, e);
      ExternalKinds(c, r, e);
    }
  }

  lemma NoGatewaySource(c: Cluster, i: Ingress, e: Edge)
    requires SomeRouteDrawn(c, i, e)
    ensures !e.source.GatewayRouteID?
  {
    var route :| route in IngressRoutes(i) && RouteDrawn(c, i, route, e);
    RouteSource(c, i, route, e);
  }

  lemma RouteSource(c: Cluster, i: Ingress, route: Route, e: Edge)
    requires RouteDrawn(c, i, route, e)
    ensures !e.source.GatewayRouteID?
  {
  }

  lemma RoutedIn(c: Cluster, r: ExternalResource, b: BackendRef, e: Edge)
    requires r in c.external && r.kind.IsRoute() && b in r.backends && BackendRouted(c, r, b, e)
    ensures Drawn(c, e)
  {
    assert GatewayRouteDrawn(c, r, e);
    assert ExternalDrawn(c, r, e);
    assert TrafficDrawn(c, e);
  }

  /** A Gateway API route leads to a Service exactly when one of its backends names
      it, it exists, and it is in the route's namespace or a grant of its own
      namespace admits the route. */
  lemma RouteLeadsExactly(c: Cluster, g: Graph, kind: ExternalKind, key: Key, k: Key)
    requires IsBuild(c, g) && kind.IsRoute()
    ensures Edge(GatewayRouteID(kind, key), ServiceID(k), Routes) in g.edges <==> exists r, b :: RoutesTo(c, kind, key, k, r, b)
  {
    var e := Edge(GatewayRouteID(kind, key), ServiceID(k), Routes);
    if e in g.edges {
      RoutesOnly(c, e);
      var r, b :| r in c.external && r.kind.IsRoute() && b in r.backends && BackendRouted(c, r, b, e);
      BackendExactly(c, r, b, k);
      assert RoutesTo(c, kind, key, k, r, b);
    }
    if r, b :| RoutesTo(c, kind, key, k, r, b) {
      BackendExactly(c, r, b, k);
      RoutedIn(c, r, b, e);
    }
  }

  // ---- parents ----

  predicate NamesGateway(r: ExternalResource, p: ParentRef, k: Key) {
    && Text.TrimSpace(p.group) in {"", "gateway.networking.k8s.io"}
    && (Text.TrimSpace(p.kind) == "" || Text.EqualFold(Text.TrimSpace(p.kind), "Gateway"))
    && k.name == p.name && k.namespace == if p.namespace == "" then r.key.namespace else p.namespace
  }

  ghost predicate GatewayListed(c: Cluster, k: Key) {
    exists g :: g in c.external && g.kind == Gateway && g.key == k
  }

  lemma ListedGateways(c: Cluster, k: Key)
    ensures ExternalKey(Gateway, k) in ExternalKeys(c) <==> GatewayListed(c, k)
  {
    CollectMember(c.external, ExternalSet);
    if g :| g in c.external && g.kind == Gateway && g.key == k {
      assert ExternalKey(Gateway, k) in ExternalSet(g);
    }
  }

  /** What each parent reference of a route is reported as. */
  lemma ParentExactly(c: Cluster, r: ExternalResource, p: ParentRef, k: Key)
    ensures ParentReference(c, r)(p) == Resolved(k) <==> NamesGateway(r, p, k) && GatewayListed(c, k)
    ensures ParentReference(c, r)(p) == Missing(k) <==>
              NamesGateway(r, p, k) && !GatewayListed(c, k) && (c.watchNamespace == "" || c.watchNamespace == k.namespace)
    ensures ParentReference(c, r)(p) == OutsideWatch(k) <==>
              NamesGateway(r, p, k) && !GatewayListed(c, k) && c.watchNamespace != "" && c.watchNamespace != k.namespace
  {
    ListedGateways(c, ParentKey(p, r));
    ListedGateways(c, k);
  }

  /** The route says that its parent did not accept it. */
  predicate Refused(r: ExternalResource) {
    "accepted" in r.properties && r.properties["accepted"] == "False"
  }

  ghost predicate AttachesTo(c: Cluster, kind: ExternalKind, key: Key, k: Key, refused: bool, r: ExternalResource, p: ParentRef) {
    && r in c.external && r.kind == kind && r.key == key && Refused(r) == refused
    && p in r.parents && NamesGateway(r, p, k) && GatewayListed(c, k)
  }

  lemma AttachedOnly(c: Cluster, e: Edge)
    requires Drawn(c, e) && e.kind in {Attaches, Rejected}
    ensures exists r, p :: r in c.external && r.kind.IsRoute() && p in r.parents && ParentAttached(c, r, p, e)
  {
    OnlyTrafficAttaches(c, e);
    if i :| i in c.ingresses && IngressDrawn(c, i, e) {
      IngressKinds(c, i, e);
    } else {
      var r :| r in c.external && ExternalDrawn(c, r, e);
      AttachedExternal(c, r, e);
    }
  }

  lemma OnlyTrafficAttaches(c: Cluster, e: Edge)
    requires Drawn(c, e) && e.kind in {Attaches, Rejected}
    ensures TrafficDrawn(c, e)
  {
    if WorkloadDrawn(c, e) {
      WorkloadKinds(c, e);
    } else if ExposureDrawn(c, e) {
      ExposureKinds(c, e);
    } else if BackendsDrawn(c, e) {
      BackendsKinds(c, e);
    }
  }

  lemma AttachedExternal(c: Cluster, r: ExternalResource, e: Edge)
    requires ExternalDrawn(c, r, e) && e.kind in {Attaches, Rejected}
    ensures r.kind.IsRoute() && exists p :: p in r.parents && ParentAttached(c, r, p, e)
  {
  }

  lemma AttachedIn(c: Cluster, r: ExternalResource, p: ParentRef, e: Edge)
    requires r in c.external && r.kind.IsRoute() && p in r.parents && ParentAttached(c, r, p, e)
    ensures Drawn(c, e)
  {
    assert GatewayRouteDrawn(c, r, e);
    assert ExternalDrawn(c, r, e);
    assert TrafficDrawn(c, e);
  }

  /** A Gateway API route hangs below a Gateway exactly when one of its parents
      names it and it exists; as rejected exactly when the route says so. */
  lemma RouteAttachesExactly(c: Cluster, g: Graph, kind: ExternalKind, key: Key, k: Key, refused: bool)
    requires IsBuild(c, g) && kind.IsRoute()
    ensures Edge(GatewayID(k), GatewayRouteID(kind, key), if refused then Rejected else Attaches) in g.edges <==>
              exists r, p :: AttachesTo(c, kind, key, k, refused, r, p)
  {
    var e := Edge(GatewayID(k), GatewayRouteID(kind, key), if refused then Rejected else Attaches);
    if e in g.edges {
      AttachedOnly(c, e);
      var r, p :| r in c.external && r.kind.IsRoute() && p in r.parents && ParentAttached(c, r, p, e);
      ParentExactly(c, r, p, k);
      assert AttachesTo(c, kind, key, k, refused, r, p);
    }
    if r, p :| AttachesTo(c, kind, key, k, refused, r, p) {
      ParentExactly(c, r, p, k);
      AttachedIn(c, r, p, e);
    }
  }
}
