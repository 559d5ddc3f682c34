/** addExternalResource: Gateway API and F5 resources. */
module ExternalResources {
  import opened Collections
  import opened Kube
  import opened NodeIDs
  import opened Topology
  import opened Builder
  import opened GraphBuilding
  import Text

  // ---- ReferenceGrants ----

  method AnyFromMatches(froms: seq<GrantFrom>, route: ExternalResource) returns (matches: bool)
    ensures matches <==> exists f :: f in froms && FromMatches(f, route)
  {
    for j := 0 to |froms|
      invariant forall f :: f in froms[..j] ==> !FromMatches(f, route)
    {
      Extend(froms, j);
      if FromMatches(froms[j], route) {
        return true;
      }
    }
    WholePrefix(froms);
    return false;
  }

  method AnyToMatches(tos: seq<GrantTo>, backend: BackendRef) returns (matches: bool)
    ensures matches <==> exists t :: t in tos && ToMatches(t, backend)
  {
    for j := 0 to |tos|
      invariant forall t :: t in tos[..j] ==> !ToMatches(t, backend)
    {
      Extend(tos, j);
      if ToMatches(tos[j], backend) {
        return true;
      }
    }
    WholePrefix(tos);
    return false;
  }

  /** backendReferenceGranted */
  method BackendReferenceGranted(route: ExternalResource, backend: BackendRef, namespace: string, grants: seq<ExternalResource>)
    returns (granted: bool)
    ensures granted == Granted(route, backend, namespace, grants)
  {
    for i := 0 to |grants|
      invariant !Granted(route, backend, namespace, grants[..i])
    {
      Extend(grants, i);
      var grant := grants[i];
      if grant.key.namespace != namespace {
        continue;
      }
      var fromMatches := AnyFromMatches(grant.grantFrom, route);
      if !fromMatches {
        continue;
      }
      var toMatches := AnyToMatches(grant.grantTo, backend);
      if toMatches {
        assert GrantsFrom(grant, route) && GrantsTo(grant, backend) && grant in grants;
        return true;
      }
    }
    WholePrefix(grants);
    return false;
  }

  // ---- references ----

  /** What a build looks references up in. */
  ghost predicate LooksUp(c: Cluster, services: map<Key, Service>, external: set<ExternalKey>, grants: seq<ExternalResource>) {
    services == Services(c) && external == ExternalKeys(c) && grants == Grants(c)
  }

  method ResolveParent(p: ParentRef, r: ExternalResource, external: set<ExternalKey>, watched: string, ghost c: Cluster)
    returns (reference: Reference)
    requires external == ExternalKeys(c) && watched == c.watchNamespace
    ensures reference == ParentReference(c, r)(p)
  {
    if !IsGatewayParent(p) {
      return Unsupported(p.kind, p.name);
    }
    var namespace := if p.namespace == "" then r.key.namespace else p.namespace;
    var key := Key(namespace, p.name);
    if ExternalKey(Gateway, key) !in external {
      if watched != "" && namespace != watched {
        return OutsideWatch(key);
      }
      return Missing(key);
    }
    return Resolved(key);
  }

  method ResolveBackend(backend: BackendRef, r: ExternalResource, services: map<Key, Service>, grants: seq<ExternalResource>,
                        watched: string, ghost c: Cluster)
    returns (reference: Reference)
    requires services == Services(c) && grants == Grants(c) && watched == c.watchNamespace
    ensures reference == BackendReference(c, r)(backend)
  {
    if !IsServiceBackend(backend) {
      return Unsupported(backend.kind, backend.name);
    }
    var namespace := if backend.namespace == "" then r.key.namespace else backend.namespace;
    var key := Key(namespace, backend.name);
    if key !in services {
      if watched != "" && namespace != watched {
        return OutsideWatch(key);
      }
      return Missing(key);
    }
    if namespace != r.key.namespace {
      var granted := BackendReferenceGranted(r, backend, namespace, grants);
      if !granted {
        return NeedsGrant(key);
      }
    }
    return Resolved(key);
  }

  lemma ReferencesStep<T>(xs: seq<T>, f: T -> Reference, i: nat)
    requires i < |xs|
    ensures References(xs[..i + 1], f) == References(xs[..i], f) + [f(xs[i])]
  {
    Extend(xs, i);
  }

  method AddParents(b: TopologyBuilder, r: ExternalResource, external: set<ExternalKey>, watched: string, ghost c: Cluster)
    returns (references: seq<Reference>)
    requires external == ExternalKeys(c) && watched == c.watchNamespace
    modifies b
    ensures b.Contents() == old(b.Contents()).Plus(Sum(r.parents, ParentPiece(c, r)))
    ensures references == References(r.parents, ParentReference(c, r))
  {
    ghost var base := b.Contents();
    PlusEmpty(base);
    references := [];
    for i := 0 to |r.parents|
      invariant b.Contents() == base.Plus(Sum(r.parents[..i], ParentPiece(c, r)))
      invariant references == References(r.parents[..i], ParentReference(c, r))
    {
      ReferencesStep(r.parents, ParentReference(c, r), i);
      SumStep(base, r.parents, ParentPiece(c, r), i);
      PlusEmpty(b.Contents());
      var reference := ResolveParent(r.parents[i], r, external, watched, c);
      references := references + [reference];
      if reference.Resolved? {
        b.AddEdge(GatewayID(reference.key), GatewayRouteID(r.kind, r.key), AttachmentKind(r), r.kind.Text());
      }
    }
    WholePrefix(r.parents);
  }

  method AddBackends(b: TopologyBuilder, r: ExternalResource, services: map<Key, Service>, grants: seq<ExternalResource>,
                     watched: string, ghost c: Cluster)
    returns (references: seq<Reference>)
    requires services == Services(c) && grants == Grants(c) && watched == c.watchNamespace
    modifies b
    ensures b.Contents() == old(b.Contents()).Plus(Sum(r.backends, BackendPiece(c, r)))
    ensures references == References(r.backends, BackendReference(c, r))
  {
    ghost var base := b.Contents();
    PlusEmpty(base);
    references := [];
    for i := 0 to |r.backends|
      invariant b.Contents() == base.Plus(Sum(r.backends[..i], BackendPiece(c, r)))
      invariant references == References(r.backends[..i], BackendReference(c, r))
    {
      ReferencesStep(r.backends, BackendReference(c, r), i);
      SumStep(base, r.backends, BackendPiece(c, r), i);
      PlusEmpty(b.Contents());
      var reference := ResolveBackend(r.backends[i], r, services, grants, watched, c);
      references := references + [reference];
      if reference.Resolved? {
        b.AddEdge(GatewayRouteID(r.kind, r.key), ServiceID(reference.key), Routes, r.kind.Text());
      }
    }
    WholePrefix(r.backends);
  }

  // ---- one resource ----

  method AddGatewayRoute(b: TopologyBuilder, r: ExternalResource, services: map<Key, Service>, external: set<ExternalKey>,
                         grants: seq<ExternalResource>, watched: string, ghost c: Cluster)
    requires LooksUp(c, services, external, grants) && watched == c.watchNamespace
    modifies b
    ensures b.Contents() == old(b.Contents()).Plus(GatewayRoutePiece(c, r))
  {
    ghost var base := b.Contents();
    var id := GatewayRouteID(r.kind, r.key);
    var parents := AddParents(b, r, external, watched, c);
    var backends := AddBackends(b, r, services, grants, watched, c);
    b.AddNode(id, GatewayRouteInfo(r, parents, backends));
    b.AddHosts(r.hostnames, id);
    Plus4(base, Sum(r.parents, ParentPiece(c, r)), Sum(r.backends, BackendPiece(c, r)), GatewayRouteNode(c, r),
          Sum(r.hostnames, DNSPiece(id)));
  }

  method AddGatewayAddress(b: TopologyBuilder, r: ExternalResource, i: nat, ghost base: Graph)
    requires i < |r.addresses| && b.Contents() == base.Plus(Sum(r.addresses[..i], GatewayAddressPiece(r)))
    modifies b
    ensures b.Contents() == base.Plus(Sum(r.addresses[..i + 1], GatewayAddressPiece(r)))
  {
    var address := r.addresses[i];
    SumStep(base, r.addresses, GatewayAddressPiece(r), i);
    var id, info := GatewayLBID(r.key, Text.SafeID(address)), AddressInfo(r.key, address, "Gateway API");
    PlusAssociative(b.Contents(), OneNode(id, info), OneEdge(id, GatewayID(r.key), Fronts, "Gateway status"));
    b.AddNode(id, info);
    b.AddEdge(id, GatewayID(r.key), Fronts, "Gateway status");
  }

  method AddGatewayAddresses(b: TopologyBuilder, r: ExternalResource)
    modifies b
    ensures b.Contents() == old(b.Contents()).Plus(Sum(r.addresses, GatewayAddressPiece(r)))
  {
    ghost var base := b.Contents();
    PlusEmpty(base);
    for i := 0 to |r.addresses|
      invariant b.Contents() == base.Plus(Sum(r.addresses[..i], GatewayAddressPiece(r)))
    {
      AddGatewayAddress(b, r, i, base);
    }
    WholePrefix(r.addresses);
  }

  method AddGateway(b: TopologyBuilder, r: ExternalResource, external: set<ExternalKey>, ghost c: Cluster)
    requires external == ExternalKeys(c)
    modifies b
    ensures b.Contents() == old(b.Contents()).Plus(GatewayPiece(c, r))
  {
    ghost var base := b.Contents();
    var id := GatewayID(r.key);
    b.AddNode(id, GatewayInfo(r));
    PlusEmpty(b.Contents());
    if r.className != "" && ExternalKey(GatewayClass, Key("", r.className)) in external {
      b.AddEdge(GatewayClassControllerID(r.className), id, Controls, "GatewayClass");
    }
    AddGatewayAddresses(b, r);
    b.AddHosts(r.hostnames, id);
    Plus4(base, OneNode(id, GatewayInfo(r)), GatewayClassEdge(c, r), Sum(r.addresses, GatewayAddressPiece(r)),
          Sum(r.hostnames, DNSPiece(id)));
  }

  method AddF5Backend(b: TopologyBuilder, r: ExternalResource, backend: BackendRef, services: map<Key, Service>, ghost c: Cluster)
    requires services == Services(c)
    modifies b
    ensures b.Contents() == old(b.Contents()).Plus(F5BackendPiece(c, r)(backend))
  {
    PlusEmpty(b.Contents());
    if !IsServiceBackend(backend) {
      return;
    }
    var key := Key(if backend.namespace == "" then r.key.namespace else backend.namespace, backend.name);
    if key !in services {
      return;
    }
    b.AddEdge(ExternalLBID(r.kind, r.key), ServiceID(key), Balances, r.kind.Text());
  }

  method AddF5Backends(b: TopologyBuilder, r: ExternalResource, services: map<Key, Service>, ghost c: Cluster)
    requires services == Services(c)
    modifies b
    ensures b.Contents() == old(b.Contents()).Plus(Sum(r.backends, F5BackendPiece(c, r)))
  {
    ghost var base := b.Contents();
    PlusEmpty(base);
    for i := 0 to |r.backends|
      invariant b.Contents() == base.Plus(Sum(r.backends[..i], F5BackendPiece(c, r)))
    {
      SumStep(base, r.backends, F5BackendPiece(c, r), i);
      AddF5Backend(b, r, r.backends[i], services, c);
    }
    WholePrefix(r.backends);
  }

  /** servicesMatchingSelector */
  method ServicesMatchingSelector(services: map<Key, Service>, r: ExternalResource) returns (matches: set<NodeID>)
    ensures matches == set k | k in services && ResourceSelects(r, services[k]) :: ServiceID(k)
  {
    matches := {};
    if r.selector == map[] {
      return;
    }
    var left := services.Keys;
    while left != {}
      invariant left <= services.Keys
      invariant matches == set k | k in services && k !in left && ResourceSelects(r, services[k]) :: ServiceID(k)
      decreases left
    {
      var k :| k in left;
      left := left - {k};
      if r.key.namespace != "" && services[k].key.namespace != r.key.namespace {
        continue;
      }
      if SelectorMatches(services[k].labels, r.selector) {
        matches := matches + {ServiceID(k)};
      }
    }
  }

  method AddF5(b: TopologyBuilder, r: ExternalResource, services: map<Key, Service>, ghost c: Cluster)
    requires services == Services(c)
    modifies b
    ensures b.Contents() == old(b.Contents()).Plus(F5Piece(c, r))
  {
    ghost var base := b.Contents();
    var id := ExternalLBID(r.kind, r.key);
    b.AddNode(id, ExternalLBInfo(r));
    b.AddHosts(r.hostnames, id);
    AddF5Backends(b, r, services, c);
    var selected := ServicesMatchingSelector(services, r);
    b.AddFan(id, selected, Balances, r.kind.Text());
    Plus4(base, OneNode(id, ExternalLBInfo(r)), Sum(r.hostnames, DNSPiece(id)), Sum(r.backends, F5BackendPiece(c, r)),
          Fan(id, selected, Balances, r.kind.Text()));
  }

  method AddExternalResource(b: TopologyBuilder, r: ExternalResource, services: map<Key, Service>, external: set<ExternalKey>,
                             grants: seq<ExternalResource>, watched: string, ghost c: Cluster)
    requires LooksUp(c, services, external, grants) && watched == c.watchNamespace
    modifies b
    ensures b.Contents() == old(b.Contents()).Plus(ExternalPiece(c)(r))
  {
    PlusEmpty(b.Contents());
    if r.kind == GatewayClass {
      var controller := if "controllerName" in r.properties then r.properties["controllerName"] else "";
      if controller == "" {
        controller := "GatewayClass";
      }
      b.AddNode(GatewayClassControllerID(r.key.name), ControllerInfo(r.key.name, controller, "GatewayClass", "Configured"));
    } else if r.kind == Gateway {
      AddGateway(b, r, external, c);
    } else if r.kind.IsRoute() {
      AddGatewayRoute(b, r, services, external, grants, watched, c);
    } else if r.kind.IsF5() {
      AddF5(b, r, services, c);
    }
  }

  method AddExternalResources(b: TopologyBuilder, rs: seq<ExternalResource>, services: map<Key, Service>, external: set<ExternalKey>,
                              grants: seq<ExternalResource>, watched: string, ghost c: Cluster)
    requires LooksUp(c, services, external, grants) && watched == c.watchNamespace
    modifies b
    ensures b.Contents() == old(b.Contents()).Plus(Sum(rs, ExternalPiece(c)))
  {
    ghost var base := b.Contents();
    PlusEmpty(base);
    for i := 0 to |rs|
      invariant b.Contents() == base.Plus(Sum(rs[..i], ExternalPiece(c)))
    {
      SumStep(base, rs, ExternalPiece(c), i);
      AddExternalResource(b, rs[i], services, external, grants, watched, c);
    }
    WholePrefix(rs);
  }
}
