/** The published graph of a build, every kind of node and the edges, told by the
    objects of the cluster. */
module PublishedGraph {
  import opened Collections
  import opened Kube
  import opened NodeIDs
  import opened EndpointModel
  import opened EndpointFields
  import opened RouteVerdicts
  import opened Topology
  import opened Builder
  import opened DrawnNodes
  import opened GraphShapes
  import opened Scoping
  import opened ScopedPruning
  import opened PublishedTraffic
  import opened PublishedCluster
  import opened PublishedExposure
  import opened PublishedServices
  import opened PublishedNames
  import opened IngressFields
  import ReferenceGrants
  import PrunedFields
  import DrawnEdges
  import Sorting

  // ---- the remaining kinds of nodes ----

  ghost predicate NamesRight(c: Cluster, shown: set<NodeID>) {
    forall h :: DNSID(h) in shown <==> NamedByTraffic(c, h) || NamedByF5(c, shown, h)
  }

  ghost predicate BalancersRight(c: Cluster, shown: set<NodeID>) {
    forall r :: r in c.external && r.kind.IsF5() ==>
      (ExternalLBID(r.kind, r.key) in shown <==> SaysF5(r) || NamedPublished(shown, r))
  }

  ghost predicate NamesLeast(c: Cluster, shown: set<NodeID>) {
    forall ids :: NamesClosed(c, ids) ==> forall id :: id in shown && PublishedNames.Named(id) ==> id in ids
  }

  ghost predicate AddressesRight(c: Cluster, shown: set<NodeID>) {
    && (forall key, text :: IngressLBID(key, text) in shown <==>
          exists i :: i in c.ingresses && i.key == key && HasStatus(i, text))
    && (forall key, text :: GatewayLBID(key, text) in shown <==>
          exists r :: r in c.external && r.kind == Gateway && r.key == key && GatewayHasAddress(r, text))
  }

  ghost predicate OutsideRight(c: Cluster, shown: set<NodeID>) {
    forall id :: Outside(id) ==> (id in shown <==> DrawnNode(c, id) && ServiceID(OwnerOf(id)) in shown)
  }

  ghost predicate GatewayClassesRight(c: Cluster, shown: set<NodeID>) {
    forall name :: GatewayClassControllerID(name) in shown <==>
      DrawnNode(c, GatewayClassControllerID(name)) && ControlsGateway(c, name)
  }

  lemma NamesAreRight(c: Cluster, g: Graph, shown: set<NodeID>)
    requires Publishes(c, g, shown)
    ensures NamesRight(c, shown)
  {
    forall h ensures DNSID(h) in shown <==> NamedByTraffic(c, h) || NamedByF5(c, shown, h) {
      NamePublished(c, g, shown, h);
    }
  }

  lemma BalancersAreRight(c: Cluster, g: Graph, shown: set<NodeID>)
    requires Publishes(c, g, shown) && CarriesF5(c, g) && UniqueExternals(c)
    ensures BalancersRight(c, shown) && NamesLeast(c, shown)
  {
    forall r | r in c.external && r.kind.IsF5()
      ensures ExternalLBID(r.kind, r.key) in shown <==> SaysF5(r) || NamedPublished(shown, r)
    {
      BalancerPublished(c, g, shown, r);
    }
    forall ids | NamesClosed(c, ids) ensures forall id :: id in shown && PublishedNames.Named(id) ==> id in ids {
      NamesAreLeast(c, g, shown, ids);
    }
  }

  lemma AddressesAreRight(c: Cluster, g: Graph, shown: set<NodeID>)
    requires Publishes(c, g, shown)
    ensures AddressesRight(c, shown)
  {
    forall key, text ensures IngressLBID(key, text) in shown <==>
        exists i :: i in c.ingresses && i.key == key && HasStatus(i, text)
    {
      IngressAddressPublished(c, g, shown, key, text);
    }
    forall key, text ensures GatewayLBID(key, text) in shown <==>
        exists r :: r in c.external && r.kind == Gateway && r.key == key && GatewayHasAddress(r, text)
    {
      GatewayAddressPublished(c, g, shown, key, text);
    }
  }

  lemma OutsideIsRight(c: Cluster, g: Graph, shown: set<NodeID>)
    requires Publishes(c, g, shown)
    ensures OutsideRight(c, shown)
  {
    forall id | Outside(id) ensures id in shown <==> DrawnNode(c, id) && ServiceID(OwnerOf(id)) in shown {
      NodeIsDrawn(c, g, id);
      if id in g.nodes {
        OutsidePublished(c, g, shown, id);
      }
    }
  }

  lemma GatewayClassesAreRight(c: Cluster, g: Graph, shown: set<NodeID>)
    requires Publishes(c, g, shown)
    ensures GatewayClassesRight(c, shown)
  {
    forall name ensures GatewayClassControllerID(name) in shown <==>
        DrawnNode(c, GatewayClassControllerID(name)) && ControlsGateway(c, name)
    {
      NodeIsDrawn(c, g, GatewayClassControllerID(name));
      if GatewayClassControllerID(name) in g.nodes {
        GatewayClassPublished(c, g, shown, name);
      }
    }
  }

  ghost predicate OnlyDrawn(c: Cluster, shown: set<NodeID>) { forall id :: id in shown ==> DrawnNode(c, id) }

  lemma ShownIsDrawn(c: Cluster, g: Graph, shown: set<NodeID>)
    requires Publishes(c, g, shown)
    ensures OnlyDrawn(c, shown)
  {
    forall id | id in shown ensures DrawnNode(c, id) {
      NodeIsDrawn(c, g, id);
    }
  }

  /** Together with `PublishedServices.PublishedExactly`, what is published of every
      kind of node; nothing is published that no object accounts for. */
  lemma OthersPublishedExactly(c: Cluster, g: Graph, order: IDOrder, shown: set<NodeID>)
    requires g == Build(c) && shown == PublishedNodes(g, order) && UniqueExternals(c)
    ensures NamesRight(c, shown) && BalancersRight(c, shown) && NamesLeast(c, shown)
    ensures AddressesRight(c, shown) && OutsideRight(c, shown) && GatewayClassesRight(c, shown) && OnlyDrawn(c, shown)
  {
    BuildPublishes(c, g, order);
    BuildCarriesF5(c, g);
    OthersRight(c, g, shown);
  }

  lemma OthersRight(c: Cluster, g: Graph, shown: set<NodeID>)
    requires Publishes(c, g, shown) && CarriesF5(c, g) && UniqueExternals(c)
    ensures NamesRight(c, shown) && BalancersRight(c, shown) && NamesLeast(c, shown)
    ensures AddressesRight(c, shown) && OutsideRight(c, shown) && GatewayClassesRight(c, shown) && OnlyDrawn(c, shown)
  {
    NamesAreRight(c, g, shown);
    BalancersAreRight(c, g, shown);
    AddressesAreRight(c, g, shown);
    OutsideIsRight(c, g, shown);
    GatewayClassesAreRight(c, g, shown);
    ShownIsDrawn(c, g, shown);
  }

  // ---- edges ----

  ghost predicate ShowsEdgeAs(s: Snapshot, e: Edge, text: string) {
    exists l :: l in s.edges && l.edge == e && l.text == text
  }

  lemma {:induction false} LabelledMembers(edges: seq<Edge>, labels: map<Edge, string>, e: Edge, text: string)
    requires forall x :: x in edges ==> x in labels
    ensures LabelledEdge(e, text) in Labelled(edges, labels) <==> e in edges && labels[e] == text
  {
    if edges != [] {
      LabelledMembers(edges[..|edges| - 1], labels, e, text);
      assert edges == edges[..|edges| - 1] + [edges[|edges| - 1]];
    }
  }

  lemma RenderedEdge(g: Graph, order: IDOrder, e: Edge, text: string)
    ensures LabelledEdge(e, text) in Render(g, order).edges <==> e in g.edges && g.edges[e] == text
  {
    Sorting.OrderedMembers(g.edges.Keys, order.edges);
    LabelledMembers(Sorting.Ordered(g.edges.Keys, order.edges), g.edges, e, text);
  }

  /** The published edges are exactly those of the build whose ends are published,
      with their labels. */
  lemma EdgesPublishedExactly(g: Graph, order: IDOrder, e: Edge, text: string)
    ensures ShowsEdgeAs(Scope(Render(g, order)), e, text) <==>
              && e in g.edges && g.edges[e] == text
              && e.source in PublishedNodes(g, order) && e.target in PublishedNodes(g, order)
  {
    var s := Render(g, order);
    RenderedEdge(g, order, e, text);
    FilterMember(s.edges, ShowsEdge(Visible(s)));
    assert LabelledEdge(e, text).edge == e;
  }

  // ---- Pods ----

  lemma SelectsExactly(c: Cluster, service: Key, pod: Key)
    ensures SelectsPod(c, service, pod) <==>
            exists s, p :: s in c.services && s.key == service && p in c.pods && p.key == pod && Chosen(s, p)
  {
    forall s, p ensures p in SelectedPods(c.pods, s) <==> p in c.pods && Chosen(s, p) {
      ChosenExactly(c, s);
      FilterMember(c.pods, PicksFor(s));
    }
  }

  /** The Service has no selector and lists the Pod in its slices, or, without any,
      in its Endpoints. */
  ghost predicate Lists(c: Cluster, service: Key, pod: Key) {
    if Sliced(c.slices, service) then
      exists s :: s in c.slices && SliceBelongs(s, service) && SliceLists(c.pods, s, pod)
    else
      exists e, s: Subset :: e in c.endpoints && e.key == service && s in e.subsets && SubsetLists(c.pods, service.namespace, s, pod)
  }

  lemma SubsetStands(c: Cluster, namespace: string, s: Subset, pod: Key)
    ensures (exists a :: a in SubsetAddresses(s) && pod in LegacyAddressPods(namespace, IndexPods(c.pods))(a)) <==>
            SubsetLists(c.pods, namespace, s, pod)
  {
    SubsetListsExactly(c.pods, namespace, s, pod);
    CollectMember(SubsetAddresses(s), LegacyAddressPods(namespace, IndexPods(c.pods)));
  }

  lemma LegacyExactly(c: Cluster, e: Endpoints, pod: Key)
    ensures pod in LegacyPods(e, IndexPods(c.pods)) <==>
            exists s :: s in e.subsets && SubsetLists(c.pods, e.key.namespace, s, pod)
  {
    var f := LegacyAddressPods(e.key.namespace, IndexPods(c.pods));
    CollectMember(LegacyAddresses(e), f);
    FlatMapMember(e.subsets, SubsetAddresses);
    if pod in LegacyPods(e, IndexPods(c.pods)) {
      var a :| a in LegacyAddresses(e) && pod in f(a);
      var s :| s in e.subsets && a in SubsetAddresses(s);
      SubsetStands(c, e.key.namespace, s, pod);
    }
    if s :| s in e.subsets && SubsetLists(c.pods, e.key.namespace, s, pod) {
      SubsetStands(c, e.key.namespace, s, pod);
      var a :| a in SubsetAddresses(s) && pod in f(a);
      assert a in LegacyAddresses(e);
    }
  }

  lemma SelectorlessExactly(c: Cluster, service: Key)
    requires UniqueServices(c.services)
    ensures Selectorless(c, service) <==> exists s :: s in c.services && s.key == service && s.selector == map[]
  {
    IndexMember(c.services, ServiceKey);
  }

  /** Which Pods a Service without a selector stands for. */
  lemma ListsExactly(c: Cluster, service: Key, pod: Key)
    requires UniqueServices(c.services)
    ensures ListsPod(c, service, pod) <==>
            (exists s :: s in c.services && s.key == service && s.selector == map[]) && Lists(c, service, pod)
  {
    SelectorlessExactly(c, service);
    SlicedExactly(c.slices, service);
    forall s: EndpointSlice ensures SliceListsPod(c, s, service, pod) <==> SliceBelongs(s, service) && SliceLists(c.pods, s, pod) {
      BelongsExactly(s, service);
      SliceListsExactly(c.pods, s, pod);
    }
    forall e: Endpoints
      ensures LegacyListsPod(c, e, service, pod) <==>
              e.key == service && exists s :: s in e.subsets && SubsetLists(c.pods, service.namespace, s, pod)
    {
      LegacyExactly(c, e, pod);
    }
  }

  // ---- Services ----

  ghost predicate RoutesTo(c: Cluster, k: Key, r: ExternalResource, b: BackendRef) {
    && r in c.external && r.kind.IsRoute() && b in r.backends && ReferenceGrants.NamesCoreService(r, b, k)
    && ReferenceGrants.MayRefer(c, r, k)
  }

  /** When a Gateway API route leads to a Service that exists. */
  lemma NamedByGatewayExactly(c: Cluster, k: Key)
    requires k in Services(c)
    ensures NamedByGateway(c, k) <==> exists r, b :: RoutesTo(c, k, r, b)
  {
    ReferenceGrants.ListedServices(c, k);
    if r, b :| r in c.external && PublishedServices.ResolvesTo(c, r, b, k) {
      ReferenceGrants.BackendExactly(c, r, b, k);
      assert RoutesTo(c, k, r, b);
    }
    if r, b :| RoutesTo(c, k, r, b) {
      ReferenceGrants.BackendExactly(c, r, b, k);
      assert PublishedServices.ResolvesTo(c, r, b, k);
    }
  }

  /** When an F5 resource balances to a Service that exists: it names it or selects
      it. */
  lemma BalancesExactly(c: Cluster, r: ExternalResource, k: Key, s: Service)
    requires UniqueServices(c.services) && s in c.services && s.key == k
    ensures DrawnEdges.BalancesTo(c, r, k) <==>
              (exists b :: PrunedFields.RefersTo(r, b, k)) || PrunedFields.SelectsService(r, s)
  {
    IndexMember(c.services, ServiceKey);
    PrunedFields.SelectsExactly(r, s);
    forall b: BackendRef ensures IsServiceBackend(b) && BackendKey(b, r) == k <==> ReferenceGrants.NamesCoreService(r, b, k) {
      ReferenceGrants.CoreServiceExactly(r, b, k);
    }
    if b :| b in r.backends && IsServiceBackend(b) && BackendKey(b, r) == k {
      assert PrunedFields.RefersTo(r, b, k);
    }
    if b :| PrunedFields.RefersTo(r, b, k) {
      assert b in r.backends && IsServiceBackend(b) && BackendKey(b, r) == k;
    }
  }
}
