/** The published DNS names, addresses, F5 resources and endpoints outside Pods,
    told by the objects of the cluster. */
module PublishedNames {
  import opened Collections
  import opened Kube
  import opened NodeIDs
  import opened EndpointModel
  import opened Topology
  import opened Builder
  import opened DrawnEndpoints
  import opened DrawnEdges
  import opened DrawnNodes
  import opened GraphShapes
  import opened Scoping
  import opened ScopedPruning
  import opened PublishedTraffic
  import opened PublishedCluster
  import opened PublishedExposure
  import ControllerModel
  import ControllerFields
  import Sorting
  import Text

  // ---- one kind of node at a time, in the graph ----

  lemma ToName(e: Edge, a: NodeID, id: NodeID)
    requires Typed(e) && Follows(e, a.Kind(), a, id) && id.DNSID?
    ensures e == Edge(id, a, Resolves)
  {
  }

  lemma FromNamed(e: Edge)
    requires Typed(e) && e.kind == Resolves
    ensures Resolves in FollowsIn(e.target.Kind())
  {
  }

  /** A DNS name is shown exactly when it resolves to a shown node. */
  lemma NameShown(g: Graph, shown: set<NodeID>, id: NodeID)
    requires Shaped(g) && IsShown(g, shown) && id.DNSID? && id in g.nodes
    ensures id in shown <==> exists t :: t in shown && Edge(id, t, Resolves) in g.edges
  {
    if id in shown {
      var a, e := ReachedBy(g, shown, id);
      ToName(e, a, id);
    }
    if t :| t in shown && Edge(id, t, Resolves) in g.edges {
      FromNamed(Edge(id, t, Resolves));
      StepBack(g, shown, id, t, Resolves);
    }
  }

  lemma ToBalancer(e: Edge, a: NodeID, id: NodeID)
    requires Typed(e) && Follows(e, a.Kind(), a, id) && id.ExternalLBID?
    ensures e == Edge(a, id, Resolves) && a.DNSID?
  {
  }

  /** An F5 resource is shown exactly when it is a root or a shown name resolves to
      it. */
  lemma BalancerShown(g: Graph, shown: set<NodeID>, id: NodeID)
    requires Shaped(g) && IsShown(g, shown) && id.ExternalLBID? && id in g.nodes
    ensures id in shown <==> RootID(g, id) || exists h :: DNSID(h) in shown && Edge(DNSID(h), id, Resolves) in g.edges
  {
    if id in shown && !RootID(g, id) {
      var a, e := ReachedBy(g, shown, id);
      ToBalancer(e, a, id);
      assert DNSID(a.host) in shown;
    }
    if RootID(g, id) {
      assert Reached(g, shown, id);
    }
    if h :| DNSID(h) in shown && Edge(DNSID(h), id, Resolves) in g.edges {
      StepFrom(g, shown, DNSID(h), id, Resolves);
    }
  }

  /** An address in front of an Ingress or a Gateway is shown when that is. */
  lemma AddressShown(g: Graph, shown: set<NodeID>, id: NodeID, front: NodeID)
    requires IsShown(g, shown) && id in g.nodes && front in shown && (front.IngressID? || front.GatewayID?)
    requires Edge(id, front, Fronts) in g.edges
    ensures id in shown
  {
    StepBack(g, shown, id, front, Fronts);
  }

  predicate Outside(id: NodeID) { id.SliceEndpointID? || id.LegacyEndpointID? || id.ExternalNameID? }

  lemma ToOutside(e: Edge, a: NodeID, id: NodeID)
    requires Typed(e) && Follows(e, a.Kind(), a, id) && Outside(id)
    ensures e == Edge(a, id, e.kind) && a.ServiceID? && e.kind in {SliceEdge, EndpointEdge, ExternalNameEdge}
  {
  }

  lemma NoRootOutside(g: Graph, id: NodeID)
    requires Outside(id)
    ensures !RootID(g, id)
  {
  }

  /** An endpoint outside the Pods is shown exactly when a Service with an edge to
      it is. */
  lemma OutsideShown(g: Graph, shown: set<NodeID>, id: NodeID)
    requires Shaped(g) && IsShown(g, shown) && Outside(id) && id in g.nodes
    ensures id in shown <==> LedTo(g, shown, id, {SliceEdge, EndpointEdge, ExternalNameEdge})
  {
    if id in shown {
      NoRootOutside(g, id);
      var a, e := ReachedBy(g, shown, id);
      ToOutside(e, a, id);
      assert LeadsTo(g, shown, a, id, e.kind);
    }
    if LedTo(g, shown, id, {SliceEdge, EndpointEdge, ExternalNameEdge}) {
      var a, kind :| LeadsTo(g, shown, a, id, kind) && kind in {SliceEdge, EndpointEdge, ExternalNameEdge};
      FromService(Edge(a, id, kind));
      StepFrom(g, shown, a, id, kind);
    }
  }

  lemma FromService(e: Edge)
    requires Typed(e) && e.kind in {SliceEdge, EndpointEdge, ExternalNameEdge}
    ensures e.kind in FollowsOut(e.source.Kind())
  {
  }

  // ---- names in the cluster ----

  /** A rule of the Ingress names the host. */
  ghost predicate IngressNamesHost(i: Ingress, h: string) {
    h != "" && exists rule: Rule :: rule in i.rules && rule.host == h
  }

  lemma SortedHosts(i: Ingress, h: string)
    ensures h in IngressHosts(i) <==> h in FlatMap(i.rules, RuleHost)
  {
    var hosts := FlatMap(i.rules, RuleHost);
    Sorting.SameMembers(Sorting.SortStrings(hosts), hosts);
  }

  lemma RuleNames(rule: Rule, h: string)
    requires h != ""
    ensures h in RuleHost(rule) <==> rule.host == h
  {
  }

  lemma HostsOfIngress(i: Ingress, h: string)
    ensures h != "" && h in IngressHosts(i) <==> IngressNamesHost(i, h)
  {
    SortedHosts(i, h);
    FlatMapMember(i.rules, RuleHost);
    if h != "" {
      forall rule: Rule ensures h in RuleHost(rule) <==> rule.host == h {
        RuleNames(rule, h);
      }
    }
  }

  /** The kinds whose hostnames are drawn, with their node. */
  function ExternalID(r: ExternalResource): Option<NodeID> {
    if r.kind == Gateway then Some(GatewayID(r.key))
    else if r.kind.IsRoute() then Some(GatewayRouteID(r.kind, r.key))
    else if r.kind.IsF5() then Some(ExternalLBID(r.kind, r.key))
    else None
  }

  ghost predicate NamesHost(r: ExternalResource, h: string) { h != "" && h in r.hostnames }

  /** Something of the cluster lets the host name resolve to the node. */
  ghost predicate ResolvesTo(c: Cluster, h: string, t: NodeID) {
    || (exists i :: i in c.ingresses && IngressNamesHost(i, h) && t == IngressID(i.key))
    || (exists r :: r in c.external && NamesHost(r, h) && ExternalID(r) == Some(t))
  }

  lemma OnlyTrafficResolves(c: Cluster, e: Edge)
    requires Drawn(c, e) && e.kind in {Resolves, Fronts}
    ensures TrafficDrawn(c, e)
  {
    if WorkloadDrawn(c, e) {
      WorkloadKinds(c, e);
    } else if ExposureDrawn(c, e) {
      ExposureKinds(c, e);
    } else if BackendsDrawn(c, e) {
      BackendsKinds(c, e);
    }
  }

  lemma IngressResolves(c: Cluster, i: Ingress, e: Edge)
    requires e.kind == Resolves
    ensures IngressDrawn(c, i, e) <==> HostResolves(IngressHosts(i), IngressID(i.key), e)
  {
    if SomeRouteDrawn(c, i, e) {
      RouteKinds(c, i, e);
    }
  }

  lemma ExternalResolves(c: Cluster, r: ExternalResource, e: Edge)
    requires e.kind == Resolves
    ensures ExternalDrawn(c, r, e) <==> ExternalID(r).Some? && HostResolves(r.hostnames, ExternalID(r).value, e)
  {
  }

  /** Exactly which names resolve to which nodes. */
  lemma ResolvesExactly(c: Cluster, h: string, t: NodeID)
    ensures Drawn(c, Edge(DNSID(h), t, Resolves)) <==> ResolvesTo(c, h, t)
  {
    var e := Edge(DNSID(h), t, Resolves);
    forall i ensures IngressDrawn(c, i, e) <==> IngressNamesHost(i, h) && t == IngressID(i.key) {
      IngressResolves(c, i, e);
      HostsOfIngress(i, h);
    }
    forall r ensures ExternalDrawn(c, r, e) <==> NamesHost(r, h) && ExternalID(r) == Some(t) {
      ExternalResolves(c, r, e);
    }
    if Drawn(c, e) {
      OnlyTrafficResolves(c, e);
    }
    if ResolvesTo(c, h, t) {
      assert TrafficDrawn(c, e);
    }
  }

  /** An F5 resource that is published names the host. */
  ghost predicate NamedByF5(c: Cluster, shown: set<NodeID>, h: string) {
    exists r :: r in c.external && r.kind.IsF5() && NamesHost(r, h) && ExternalLBID(r.kind, r.key) in shown
  }

  /** An Ingress rule, a Gateway or a Gateway API route names the host. */
  ghost predicate NamedByTraffic(c: Cluster, h: string) {
    || (exists i :: i in c.ingresses && IngressNamesHost(i, h))
    || (exists r :: r in c.external && (r.kind == Gateway || r.kind.IsRoute()) && NamesHost(r, h))
  }

  lemma TargetInBuild(c: Cluster, g: Graph, h: string, t: NodeID)
    requires IsBuild(c, g) && ResolvesTo(c, h, t)
    ensures DNSID(h) in g.nodes && t in g.nodes
  {
    if i :| i in c.ingresses && IngressNamesHost(i, h) && t == IngressID(i.key) {
      HostsOfIngress(i, h);
      InIngress(c, g, i, DNSID(h));
      InIngress(c, g, i, t);
    } else {
      var r :| r in c.external && NamesHost(r, h) && ExternalID(r) == Some(t);
      InExternal(c, g, r, DNSID(h));
      InExternal(c, g, r, t);
    }
  }

  lemma InIngress(c: Cluster, g: Graph, i: Ingress, id: NodeID)
    requires IsBuild(c, g) && i in c.ingresses && IngressNode(i, id)
    ensures id in g.nodes
  {
    assert TrafficNode(c, id);
  }

  lemma InExternal(c: Cluster, g: Graph, r: ExternalResource, id: NodeID)
    requires IsBuild(c, g) && r in c.external && ExternalNode(r, id)
    ensures id in g.nodes
  {
    assert TrafficNode(c, id);
  }

  /** A DNS name is published exactly when an Ingress rule, a Gateway, a Gateway API
      route or a published F5 resource names it. */
  lemma NamePublished(c: Cluster, g: Graph, shown: set<NodeID>, h: string)
    requires IsBuild(c, g) && Shaped(g) && IsShown(g, shown)
    ensures DNSID(h) in shown <==> NamedByTraffic(c, h) || NamedByF5(c, shown, h)
  {
    var id := DNSID(h);
    if id in shown {
      NameShown(g, shown, id);
      var t :| t in shown && Edge(id, t, Resolves) in g.edges;
      EdgeIsDrawn(c, g, Edge(id, t, Resolves));
      ResolvesExactly(c, h, t);
    }
    if NamedByTraffic(c, h) || NamedByF5(c, shown, h) {
      var t := TargetOf(c, shown, h);
      TargetInBuild(c, g, h, t);
      ShownThrough(c, g, shown, h, t);
    }
  }

  lemma TargetOf(c: Cluster, shown: set<NodeID>, h: string) returns (t: NodeID)
    requires NamedByTraffic(c, h) || NamedByF5(c, shown, h)
    ensures ResolvesTo(c, h, t) && (t.ExternalLBID? ==> t in shown)
  {
    if i :| i in c.ingresses && IngressNamesHost(i, h) {
      t := IngressID(i.key);
    } else if r :| r in c.external && (r.kind == Gateway || r.kind.IsRoute()) && NamesHost(r, h) {
      t := ExternalID(r).value;
    } else {
      var r :| r in c.external && r.kind.IsF5() && NamesHost(r, h) && ExternalLBID(r.kind, r.key) in shown;
      t := ExternalID(r).value;
    }
  }

  lemma ShownThrough(c: Cluster, g: Graph, shown: set<NodeID>, h: string, t: NodeID)
    requires IsBuild(c, g) && Shaped(g) && IsShown(g, shown) && ResolvesTo(c, h, t) && (t.ExternalLBID? ==> t in shown)
    requires DNSID(h) in g.nodes && t in g.nodes
    ensures DNSID(h) in shown
  {
    ResolvesExactly(c, h, t);
    EdgeIsDrawn(c, g, Edge(DNSID(h), t, Resolves));
    if !t.ExternalLBID? {
      TrafficShown(g, shown, t);
    }
    NameShown(g, shown, DNSID(h));
  }

  // ---- F5 resources ----

  /** Gateway API and F5 objects are unique by kind, namespace and name. */
  ghost predicate UniqueExternals(c: Cluster) {
    forall r, t :: r in c.external && t in c.external && ExternalResourceKey(r) == ExternalResourceKey(t) ==> r == t
  }

  /** The resource's provider reads F5, which it does unless it says otherwise. */
  predicate SaysF5(r: ExternalResource) {
    "provider" in r.properties ==> Text.EqualFold(r.properties["provider"], "F5")
  }

  /** F5 nodes carry their resource. */
  ghost predicate CarriesF5(c: Cluster, g: Graph) {
    forall r :: r in c.external && r.kind.IsF5() && ExternalLBID(r.kind, r.key) in g.nodes ==>
      g.nodes[ExternalLBID(r.kind, r.key)] == ExternalLBInfo(r)
  }

  lemma BalancerIsRoot(c: Cluster, g: Graph, r: ExternalResource)
    requires CarriesF5(c, g) && r in c.external && r.kind.IsF5() && ExternalLBID(r.kind, r.key) in g.nodes
    ensures RootID(g, ExternalLBID(r.kind, r.key)) <==> SaysF5(r)
  {
  }

  lemma BalancerInBuild(c: Cluster, g: Graph, r: ExternalResource)
    requires IsBuild(c, g) && r in c.external && r.kind.IsF5()
    ensures ExternalLBID(r.kind, r.key) in g.nodes
  {
    InExternal(c, g, r, ExternalLBID(r.kind, r.key));
  }

  /** A published name is one of the resource's hostnames. */
  ghost predicate NamedPublished(shown: set<NodeID>, r: ExternalResource) {
    exists h :: NamesHost(r, h) && DNSID(h) in shown
  }

  /** An F5 resource is published exactly when its provider reads F5 or one of its
      host names is published. */
  lemma BalancerPublished(c: Cluster, g: Graph, shown: set<NodeID>, r: ExternalResource)
    requires IsBuild(c, g) && Shaped(g) && IsShown(g, shown) && CarriesF5(c, g) && UniqueExternals(c)
    requires r in c.external && r.kind.IsF5()
    ensures ExternalLBID(r.kind, r.key) in shown <==> SaysF5(r) || NamedPublished(shown, r)
  {
    var id := ExternalLBID(r.kind, r.key);
    BalancerInBuild(c, g, r);
    BalancerIsRoot(c, g, r);
    BalancerShown(g, shown, id);
    forall h ensures Edge(DNSID(h), id, Resolves) in g.edges <==> NamesHost(r, h) {
      EdgeIsDrawn(c, g, Edge(DNSID(h), id, Resolves));
      ResolvesExactly(c, h, id);
      OnlyResource(c, r, h, id);
    }
  }

  lemma OnlyResource(c: Cluster, r: ExternalResource, h: string, id: NodeID)
    requires UniqueExternals(c) && r in c.external && r.kind.IsF5() && id == ExternalLBID(r.kind, r.key)
    ensures ResolvesTo(c, h, id) <==> NamesHost(r, h)
  {
  }

  lemma F5Info(c: Cluster, r: ExternalResource, id: NodeID)
    requires r.kind.IsF5() && id == ExternalLBID(r.kind, r.key)
    ensures id in F5Piece(c, r).nodes && F5Piece(c, r).nodes[id] == ExternalLBInfo(r)
  {
    var self, hosts := OneNode(id, ExternalLBInfo(r)), Sum(r.hostnames, DNSPiece(id));
    var backends, fan := Sum(r.backends, F5BackendPiece(c, r)), Fan(id, SelectedServices(c, r), Balances, r.kind.Text());
    NamesOnly(r.hostnames, id);
    NoBackendNodes(c, r, id);
    InfoOf(self, hosts, id);
    InfoOf(self.Plus(hosts), backends, id);
    InfoOf(self.Plus(hosts).Plus(backends), fan, id);
  }

  lemma NamesOnly(hosts: seq<string>, id: NodeID)
    requires !id.DNSID?
    ensures id !in Sum(hosts, DNSPiece(id)).nodes
  {
    SumNodes(hosts, DNSPiece(id), id);
  }

  lemma NoBackendNodes(c: Cluster, r: ExternalResource, id: NodeID)
    ensures id !in Sum(r.backends, F5BackendPiece(c, r)).nodes
  {
    SumNodes(r.backends, F5BackendPiece(c, r), id);
  }

  lemma OnlyF5Node(x: ExternalResource, id: NodeID)
    requires id.ExternalLBID? && ExternalNode(x, id)
    ensures x.kind.IsF5() && id == ExternalLBID(x.kind, x.key)
  {
  }

  lemma F5Kind(c: Cluster, r: ExternalResource)
    requires r.kind.IsF5()
    ensures ExternalPiece(c)(r) == F5Piece(c, r)
  {
  }

  lemma OnlyF5Piece(c: Cluster, r: ExternalResource, x: ExternalResource, id: NodeID)
    requires UniqueExternals(c) && r in c.external && r.kind.IsF5() && id == ExternalLBID(r.kind, r.key)
    requires x in c.external && id in ExternalPiece(c)(x).nodes
    ensures x == r
  {
    ExternalNodes(c, x, ExternalPiece(c)(x), id);
    OnlyF5Node(x, id);
    assert ExternalResourceKey(x) == ExternalResourceKey(r);
  }

  lemma ExternalsInfo(c: Cluster, r: ExternalResource, id: NodeID)
    requires UniqueExternals(c) && r in c.external && r.kind.IsF5() && id == ExternalLBID(r.kind, r.key)
    ensures var all := Sum(c.external, ExternalPiece(c)); id in all.nodes && all.nodes[id] == ExternalLBInfo(r)
  {
    F5Info(c, r, id);
    F5Kind(c, r);
    SumHasNode(c.external, ExternalPiece(c), r, id);
    var x := SumNode(c.external, ExternalPiece(c), id);
    OnlyF5Piece(c, r, x, id);
  }

  lemma F5InBuild(c: Cluster, g: Graph, r: ExternalResource, id: NodeID)
    requires g == Build(c) && UniqueExternals(c) && r in c.external && r.kind.IsF5() && id == ExternalLBID(r.kind, r.key)
    ensures id in g.nodes && g.nodes[id] == ExternalLBInfo(r)
  {
    var front := ControllerNodes(c).Plus(Workloads(c)).Plus(Exposure(c));
    ExternalsInfo(c, r, id);
    NoEndpointBalancer(c, id);
    InfoOf(Sum(c.ingresses, IngressPiece(c)), Sum(c.external, ExternalPiece(c)), id);
    InfoOf(front, Traffic(c), id);
    InfoOf(front.Plus(Traffic(c)), Backends(c), id);
  }

  lemma NoEndpointBalancer(c: Cluster, id: NodeID)
    requires id.ExternalLBID?
    ensures id !in Backends(c).nodes
  {
    BackendsNodes(c, id);
  }

  lemma BuildCarriesF5(c: Cluster, g: Graph)
    requires g == Build(c) && UniqueExternals(c)
    ensures CarriesF5(c, g)
  {
    forall r | r in c.external && r.kind.IsF5() && ExternalLBID(r.kind, r.key) in g.nodes
      ensures g.nodes[ExternalLBID(r.kind, r.key)] == ExternalLBInfo(r)
    {
      F5InBuild(c, g, r, ExternalLBID(r.kind, r.key));
    }
  }

  // ---- addresses ----

  /** A status address of the Ingress has this ID text. */
  ghost predicate HasStatus(i: Ingress, text: string) {
    exists x :: ControllerFields.IngressAt(i, x) && text == Text.SafeID(x)
  }

  lemma StatusExactly(i: Ingress, id: NodeID)
    ensures Among(ControllerModel.IngressAddresses(i), IngressAddressID(i.key), id) <==>
              id.IngressLBID? && id.ingress == i.key && HasStatus(i, id.address)
  {
    var addresses, name := ControllerModel.IngressAddresses(i), IngressAddressID(i.key);
    if Among(addresses, name, id) {
      var x :| x in addresses && id == name(x);
      ControllerFields.IngressAtExactly(i, x);
    }
    if id.IngressLBID? && id.ingress == i.key && HasStatus(i, id.address) {
      var x :| ControllerFields.IngressAt(i, x) && id.address == Text.SafeID(x);
      ControllerFields.IngressAtExactly(i, x);
      assert id == name(x);
    }
  }

  lemma IngressLBNode(i: Ingress, id: NodeID)
    requires id.IngressLBID?
    ensures IngressNode(i, id) <==> Among(ControllerModel.IngressAddresses(i), IngressAddressID(i.key), id)
  {
  }

  lemma NotExternalLB(r: ExternalResource, id: NodeID)
    requires id.IngressLBID?
    ensures !ExternalNode(r, id)
  {
  }

  lemma FrontDrawn(c: Cluster, i: Ingress, id: NodeID)
    requires i in c.ingresses && Among(ControllerModel.IngressAddresses(i), IngressAddressID(i.key), id)
    ensures Drawn(c, Edge(id, IngressID(i.key), Fronts))
  {
    assert IngressFronted(i, Edge(id, IngressID(i.key), Fronts));
    assert IngressDrawn(c, i, Edge(id, IngressID(i.key), Fronts));
    assert TrafficDrawn(c, Edge(id, IngressID(i.key), Fronts));
  }

  lemma AddressBuilt(c: Cluster, id: NodeID) returns (i: Ingress)
    requires DrawnNode(c, id) && id.IngressLBID?
    ensures i in c.ingresses && IngressNode(i, id)
  {
    if EndpointNode(c, id) {
      EndpointIs(c, id);
    }
    if r :| r in c.external && ExternalNode(r, id) {
      NotExternalLB(r, id);
    }
    assert TrafficNode(c, id);
    i :| i in c.ingresses && IngressNode(i, id);
  }

  /** Every status address of an Ingress is published, and no other. */
  lemma IngressAddressPublished(c: Cluster, g: Graph, shown: set<NodeID>, key: Key, text: string)
    requires IsBuild(c, g) && Shaped(g) && IsShown(g, shown)
    ensures IngressLBID(key, text) in shown <==> exists i :: i in c.ingresses && i.key == key && HasStatus(i, text)
  {
    var id := IngressLBID(key, text);
    if id in shown {
      NodeIsDrawn(c, g, id);
      var i := AddressBuilt(c, id);
      IngressLBNode(i, id);
      StatusExactly(i, id);
    }
    if i :| i in c.ingresses && i.key == key && HasStatus(i, text) {
      StatusExactly(i, id);
      IngressLBNode(i, id);
      InIngress(c, g, i, id);
      IngressInBuild(c, g, i);
      FrontDrawn(c, i, id);
      EdgeIsDrawn(c, g, Edge(id, IngressID(i.key), Fronts));
      TrafficShown(g, shown, IngressID(i.key));
      AddressShown(g, shown, id, IngressID(i.key));
    }
  }

  ghost predicate GatewayHasAddress(r: ExternalResource, text: string) {
    exists a :: a in r.addresses && text == Text.SafeID(a)
  }

  lemma GatewayAddressExactly(r: ExternalResource, id: NodeID)
    ensures Among(r.addresses, GatewayAddressID(r.key), id) <==>
              id.GatewayLBID? && id.gateway == r.key && GatewayHasAddress(r, id.address)
  {
    if Among(r.addresses, GatewayAddressID(r.key), id) {
      var x :| x in r.addresses && id == GatewayAddressID(r.key)(x);
    }
    if id.GatewayLBID? && id.gateway == r.key && GatewayHasAddress(r, id.address) {
      var x :| x in r.addresses && id.address == Text.SafeID(x);
      assert id == GatewayAddressID(r.key)(x);
    }
  }

  lemma GatewayLBNode(r: ExternalResource, id: NodeID)
    requires id.GatewayLBID?
    ensures ExternalNode(r, id) <==> r.kind == Gateway && Among(r.addresses, GatewayAddressID(r.key), id)
  {
  }

  lemma NotIngressLB(i: Ingress, id: NodeID)
    requires id.GatewayLBID?
    ensures !IngressNode(i, id)
  {
  }

  lemma GatewayFrontDrawn(c: Cluster, r: ExternalResource, id: NodeID)
    requires r in c.external && r.kind == Gateway && Among(r.addresses, GatewayAddressID(r.key), id)
    ensures Drawn(c, Edge(id, GatewayID(r.key), Fronts))
  {
    assert GatewayFronted(r, Edge(id, GatewayID(r.key), Fronts));
    assert GatewayDrawn(c, r, Edge(id, GatewayID(r.key), Fronts));
    assert ExternalDrawn(c, r, Edge(id, GatewayID(r.key), Fronts));
    assert TrafficDrawn(c, Edge(id, GatewayID(r.key), Fronts));
  }

  lemma GatewayAddressBuilt(c: Cluster, id: NodeID) returns (r: ExternalResource)
    requires DrawnNode(c, id) && id.GatewayLBID?
    ensures r in c.external && ExternalNode(r, id)
  {
    if EndpointNode(c, id) {
      EndpointIs(c, id);
    }
    if i :| i in c.ingresses && IngressNode(i, id) {
      NotIngressLB(i, id);
    }
    assert TrafficNode(c, id);
    r :| r in c.external && ExternalNode(r, id);
  }

  /** Every address of a Gateway is published, and no other. */
  lemma GatewayAddressPublished(c: Cluster, g: Graph, shown: set<NodeID>, key: Key, text: string)
    requires IsBuild(c, g) && Shaped(g) && IsShown(g, shown)
    ensures GatewayLBID(key, text) in shown <==>
              exists r :: r in c.external && r.kind == Gateway && r.key == key && GatewayHasAddress(r, text)
  {
    var id := GatewayLBID(key, text);
    if id in shown {
      NodeIsDrawn(c, g, id);
      var r := GatewayAddressBuilt(c, id);
      GatewayLBNode(r, id);
      GatewayAddressExactly(r, id);
    }
    if r :| r in c.external && r.kind == Gateway && r.key == key && GatewayHasAddress(r, text) {
      GatewayAddressExactly(r, id);
      GatewayLBNode(r, id);
      InExternal(c, g, r, id);
      GatewayInBuild(c, g, r);
      GatewayFrontDrawn(c, r, id);
      EdgeIsDrawn(c, g, Edge(id, GatewayID(r.key), Fronts));
      TrafficShown(g, shown, GatewayID(r.key));
      AddressShown(g, shown, id, GatewayID(r.key));
    }
  }

  // ---- endpoints outside the Pods ----

  /** The Service that an outside endpoint belongs to. */
  function OwnerOf(id: NodeID): Key
    requires Outside(id)
  {
    match id
    case SliceEndpointID(service, _, _) => service
    case LegacyEndpointID(service, _) => service
    case ExternalNameID(service) => service
  }

  lemma SliceTarget(c: Cluster, s: EndpointSlice, service: Key, e: Edge)
    requires SliceDrawn(c, s, service, e) && Outside(e.target)
    ensures OwnerOf(e.target) == service
  {
    var endpoint, a :| DrawnFor(c, s, service, e, endpoint, a);
  }

  lemma LegacyTarget(c: Cluster, endpoints: Endpoints, e: Edge)
    requires LegacyDrawn(c, endpoints, e) && Outside(e.target)
    ensures OwnerOf(e.target) == endpoints.key
  {
    var a :| a in LegacyAddresses(endpoints) && e == LegacyEdge(c, endpoints, a);
  }

  lemma BackendOwner(c: Cluster, e: Edge)
    requires BackendsDrawn(c, e) && Outside(e.target)
    ensures e.source == ServiceID(OwnerOf(e.target))
  {
    if s, service :| s in c.slices && SliceDrawn(c, s, service, e) {
      SliceTyped(c, s, service, e);
      SliceTarget(c, s, service, e);
    } else if endpoints :| endpoints in c.endpoints && LegacyDrawn(c, endpoints, e) {
      LegacyTyped(c, endpoints, e);
      LegacyTarget(c, endpoints, e);
    }
  }

  lemma WorkloadOwner(c: Cluster, e: Edge)
    requires WorkloadDrawn(c, e) && Outside(e.target)
    ensures e.source == ServiceID(OwnerOf(e.target))
  {
  }

  lemma OwnerLeads(c: Cluster, e: Edge)
    requires Drawn(c, e) && Outside(e.target)
    ensures e.source == ServiceID(OwnerOf(e.target))
  {
    DrawnTyped(c, e);
    if e.kind == ExternalNameEdge {
      OnlyWorkloads(c, e);
      WorkloadOwner(c, e);
    } else {
      OnlyBackends(c, e);
      BackendOwner(c, e);
    }
  }

  lemma SliceNodeEdge(c: Cluster, s: EndpointSlice, id: NodeID)
    requires s in c.slices && SliceHasNode(c, s, id)
    ensures id.SliceEndpointID? && Drawn(c, Edge(ServiceID(id.service), id, SliceEdge))
  {
    var service := SliceService(s).value;
    var e, a :| SliceNode(c, s, service, e, a, id);
    var edge := Edge(ServiceID(service), id, SliceEdge);
    assert DrawnFor(c, s, service, edge, e, a);
    assert SliceDrawn(c, s, service, edge);
    assert BackendsDrawn(c, edge);
  }

  lemma LegacyNodeEdge(c: Cluster, endpoints: Endpoints, id: NodeID)
    requires endpoints in c.endpoints && LegacyHasNode(c, endpoints, id)
    ensures id.LegacyEndpointID? && Drawn(c, Edge(ServiceID(id.service), id, EndpointEdge))
  {
    var a :| LegacyNode(c, endpoints, a, id);
    var edge := Edge(ServiceID(endpoints.key), id, EndpointEdge);
    assert LegacyDrawn(c, endpoints, edge);
    assert BackendsDrawn(c, edge);
  }

  lemma NameNodeEdge(c: Cluster, key: Key)
    requires HasExternalName(c, key)
    ensures Drawn(c, Edge(ServiceID(key), ExternalNameID(key), ExternalNameEdge))
  {
    var s :| s in c.services && s.key == key && s.kind == ExternalName && s.externalName != "";
    assert NamedOutside(s, Edge(ServiceID(key), ExternalNameID(key), ExternalNameEdge));
    assert WorkloadDrawn(c, Edge(ServiceID(key), ExternalNameID(key), ExternalNameEdge));
  }

  lemma NoTrafficOutside(c: Cluster, id: NodeID)
    requires Outside(id)
    ensures !TrafficNode(c, id)
  {
    if i :| i in c.ingresses && IngressNode(i, id) {
      NoIngressOutside(i, id);
    }
    if r :| r in c.external && ExternalNode(r, id) {
      NoExternalOutside(r, id);
    }
  }

  lemma NoIngressOutside(i: Ingress, id: NodeID)
    requires Outside(id)
    ensures !IngressNode(i, id)
  {
  }

  lemma NoExternalOutside(r: ExternalResource, id: NodeID)
    requires Outside(id)
    ensures !ExternalNode(r, id)
  {
  }

  lemma OwnerEdge(c: Cluster, id: NodeID) returns (kind: EdgeKind)
    requires DrawnNode(c, id) && Outside(id)
    ensures kind in {SliceEdge, EndpointEdge, ExternalNameEdge} && Drawn(c, Edge(ServiceID(OwnerOf(id)), id, kind))
  {
    NoTrafficOutside(c, id);
    if id.ExternalNameID? {
      NameOnly(c, id);
      NameNodeEdge(c, id.service);
      kind := ExternalNameEdge;
    } else {
      EndpointOnly(c, id);
      if s :| s in c.slices && SliceHasNode(c, s, id) {
        SliceNodeEdge(c, s, id);
        kind := SliceEdge;
      } else {
        var e :| e in c.endpoints && LegacyHasNode(c, e, id);
        LegacyNodeEdge(c, e, id);
        kind := EndpointEdge;
      }
    }
  }

  lemma NameOnly(c: Cluster, id: NodeID)
    requires DrawnNode(c, id) && id.ExternalNameID? && !TrafficNode(c, id)
    ensures HasExternalName(c, id.service)
  {
    if EndpointNode(c, id) {
      EndpointIs(c, id);
    }
  }

  lemma EndpointOnly(c: Cluster, id: NodeID)
    requires DrawnNode(c, id) && (id.SliceEndpointID? || id.LegacyEndpointID?) && !TrafficNode(c, id)
    ensures EndpointNode(c, id)
  {
  }

  /** An endpoint outside the Pods, or an external name, is published exactly when
      its Service is. */
  lemma OutsidePublished(c: Cluster, g: Graph, shown: set<NodeID>, id: NodeID)
    requires IsBuild(c, g) && Shaped(g) && IsShown(g, shown) && Outside(id) && id in g.nodes
    ensures id in shown <==> ServiceID(OwnerOf(id)) in shown
  {
    OutsideShown(g, shown, id);
    var kind := OwnerEdge(c, id);
    EdgeIsDrawn(c, g, Edge(ServiceID(OwnerOf(id)), id, kind));
    if LedTo(g, shown, id, {SliceEdge, EndpointEdge, ExternalNameEdge}) {
      var a, k :| LeadsTo(g, shown, a, id, k) && k in {SliceEdge, EndpointEdge, ExternalNameEdge};
      EdgeIsDrawn(c, g, Edge(a, id, k));
      OwnerLeads(c, Edge(a, id, k));
    }
    if ServiceID(OwnerOf(id)) in shown {
      assert LeadsTo(g, shown, ServiceID(OwnerOf(id)), id, kind);
    }
  }

  // ---- names and F5 resources together ----

  /** A set of host names and F5 resources that traffic names and roots start and
      that naming extends. */
  ghost predicate NamesClosed(c: Cluster, ids: set<NodeID>) {
    && (forall h :: NamedByTraffic(c, h) ==> DNSID(h) in ids)
    && (forall r :: r in c.external && r.kind.IsF5() && SaysF5(r) ==> ExternalLBID(r.kind, r.key) in ids)
    && (forall h :: NamedByF5(c, ids, h) ==> DNSID(h) in ids)
    && (forall r :: r in c.external && r.kind.IsF5() && NamedPublished(ids, r) ==> ExternalLBID(r.kind, r.key) in ids)
  }

  predicate Named(id: NodeID) { id.DNSID? || id.ExternalLBID? }

  /** Only what is reached from traffic and roots is published: names and F5
      resources do not hold each other up. */
  lemma NamesAreLeast(c: Cluster, g: Graph, shown: set<NodeID>, ids: set<NodeID>)
    requires IsBuild(c, g) && Shaped(g) && IsShown(g, shown) && IsLeast(g, shown) && CarriesF5(c, g) && UniqueExternals(c)
    requires NamesClosed(c, ids)
    ensures forall id :: id in shown && Named(id) ==> id in ids
  {
    var hidden := set id | id in g.nodes && Named(id) && id !in ids;
    forall id | id in hidden ensures !RootID(g, id) {
      NoHiddenRoot(c, g, ids, id);
    }
    forall a, b | a in shown && a !in hidden && GraphStep(g, a, b) ensures b !in hidden {
      if b in hidden {
        StepToNamed(c, g, ids, a, b);
      }
    }
    Unreachable(g, shown, hidden);
  }

  lemma DrawnF5(c: Cluster, id: NodeID) returns (r: ExternalResource)
    requires DrawnNode(c, id) && id.ExternalLBID?
    ensures r in c.external && r.kind.IsF5() && id == ExternalLBID(r.kind, r.key)
  {
    if EndpointNode(c, id) {
      EndpointIs(c, id);
    }
    if i :| i in c.ingresses && IngressNode(i, id) {
      NoIngressF5(i, id);
    }
    assert TrafficNode(c, id);
    r :| r in c.external && ExternalNode(r, id);
    OnlyF5Node(r, id);
  }

  lemma BalancerOf(c: Cluster, g: Graph, id: NodeID) returns (r: ExternalResource)
    requires IsBuild(c, g) && id in g.nodes && id.ExternalLBID?
    ensures r in c.external && r.kind.IsF5() && id == ExternalLBID(r.kind, r.key)
  {
    NodeIsDrawn(c, g, id);
    r := DrawnF5(c, id);
  }

  lemma NoIngressF5(i: Ingress, id: NodeID)
    requires id.ExternalLBID?
    ensures !IngressNode(i, id)
  {
  }

  lemma NoHiddenRoot(c: Cluster, g: Graph, ids: set<NodeID>, id: NodeID)
    requires IsBuild(c, g) && CarriesF5(c, g) && NamesClosed(c, ids) && id in g.nodes && Named(id) && id !in ids
    ensures !RootID(g, id)
  {
    if id.ExternalLBID? {
      var r := BalancerOf(c, g, id);
      BalancerIsRoot(c, g, r);
    }
  }

  /** A step to a host name or an F5 resource outside a closed set starts at
      another one outside it. */
  lemma StepToNamed(c: Cluster, g: Graph, ids: set<NodeID>, a: NodeID, b: NodeID)
    requires IsBuild(c, g) && Shaped(g) && UniqueExternals(c) && NamesClosed(c, ids)
    requires GraphStep(g, a, b) && Named(b) && b !in ids
    ensures a in g.nodes && Named(a) && a !in ids
  {
    var e :| e in g.edges && Follows(e, a.Kind(), a, b);
    EdgeIsDrawn(c, g, e);
    if b.DNSID? {
      ToName(e, a, b);
      ResolvesExactly(c, b.host, a);
      NameHidden(c, ids, b.host, a);
    } else {
      ToBalancer(e, a, b);
      ResolvesExactly(c, a.host, b);
      BalancerHides(c, ids, a.host, b);
    }
  }

  lemma NameHidden(c: Cluster, ids: set<NodeID>, h: string, t: NodeID)
    requires NamesClosed(c, ids) && ResolvesTo(c, h, t) && DNSID(h) !in ids
    ensures Named(t) && t !in ids
  {
    if i :| i in c.ingresses && IngressNamesHost(i, h) && t == IngressID(i.key) {
      assert NamedByTraffic(c, h);
    } else {
      var r :| r in c.external && NamesHost(r, h) && ExternalID(r) == Some(t);
      assert !(r.kind == Gateway || r.kind.IsRoute());
      assert t in ids ==> NamedByF5(c, ids, h);
    }
  }

  lemma BalancerHides(c: Cluster, ids: set<NodeID>, h: string, id: NodeID)
    requires NamesClosed(c, ids) && ResolvesTo(c, h, id) && id.ExternalLBID? && id !in ids
    ensures DNSID(h) !in ids
  {
    var r :| r in c.external && NamesHost(r, h) && ExternalID(r) == Some(id);
    assert DNSID(h) in ids ==> NamedPublished(ids, r);
  }
}
