/** BuildTopologyWithOptions: the whole build over one builder, and what the
    watcher makes of it. */
module TopologyBuild {
  import opened Collections
  import opened Kube
  import opened NodeIDs
  import opened EndpointModel
  import opened ControllerModel
  import opened Overlaps
  import opened Topology
  import opened Builder
  import opened GraphBuilding
  import opened ControllerInference
  import opened ExternalResources
  import opened IngressBuild
  import EndpointCollection
  import OverlapCollection
  import Sorting

  // ---- indexes ----

  function ByNamespace(pods: seq<Pod>): map<string, seq<Pod>> {
    if pods == [] then map[]
    else
      var earlier, pod := ByNamespace(pods[..|pods| - 1]), pods[|pods| - 1];
      var ns := pod.key.namespace;
      earlier[ns := (if ns in earlier then earlier[ns] else []) + [pod]]
  }

  function InNamespace(ns: string): Pod -> bool {
    (pod: Pod) => pod.key.namespace == ns
  }

  function PodsIn(m: map<string, seq<Pod>>, ns: string): seq<Pod> {
    if ns in m then m[ns] else []
  }

  lemma {:induction false} ByNamespaceFilters(pods: seq<Pod>, ns: string)
    ensures PodsIn(ByNamespace(pods), ns) == Filter(pods, InNamespace(ns))
  {
    if pods != [] {
      ByNamespaceFilters(pods[..|pods| - 1], ns);
    }
  }

  method IndexAllPods(pods: seq<Pod>) returns (index: PodIndex, byNamespace: map<string, seq<Pod>>)
    ensures index == IndexPods(pods) && byNamespace == ByNamespace(pods)
  {
    var byName: map<Key, Pod>, byIP: map<Key, Pod> := map[], map[];
    byNamespace := map[];
    for n := 0 to |pods|
      invariant byName == IndexBy(pods[..n], PodKey) && byIP == IndexBy(pods[..n], PodAddress)
      invariant byNamespace == ByNamespace(pods[..n])
    {
      Extend(pods, n);
      var pod := pods[n];
      byNamespace := byNamespace[pod.key.namespace := PodsIn(byNamespace, pod.key.namespace) + [pod]];
      byName := byName[pod.key := pod];
      if pod.podIP != "" {
        byIP := byIP[Key(pod.key.namespace, pod.podIP) := pod];
      }
    }
    WholePrefix(pods);
    index := PodIndex(byName, byIP);
  }

  /** matchingPodsForService */
  method MatchingPodsForService(s: Service, byNamespace: map<string, seq<Pod>>, ghost pods: seq<Pod>) returns (matches: seq<Pod>)
    requires byNamespace == ByNamespace(pods)
    ensures matches == SelectedPods(pods, s)
  {
    matches := [];
    if s.selector == map[] {
      return;
    }
    var here := PodsIn(byNamespace, s.key.namespace);
    for n := 0 to |here|
      invariant matches == Filter(here[..n], SelectedBy(s))
    {
      FilterStep(here, SelectedBy(s), n);
      HereInNamespace(pods, s.key.namespace, here[n]);
      if SelectorSelects(s.selector, here[n].labels) {
        matches := matches + [here[n]];
      }
    }
    WholePrefix(here);
    ByNamespaceFilters(pods, s.key.namespace);
    FilterKept(pods, SelectedBy(s), InNamespace(s.key.namespace));
  }

  lemma HereInNamespace(pods: seq<Pod>, ns: string, pod: Pod)
    requires pod in PodsIn(ByNamespace(pods), ns)
    ensures pod.key.namespace == ns
  {
    ByNamespaceFilters(pods, ns);
    FilterMember(pods, InNamespace(ns));
  }

  ghost predicate CachesPods(cache: map<Key, seq<Pod>>, services: map<Key, Service>, pods: seq<Pod>) {
    && cache.Keys == services.Keys
    && forall k :: k in cache ==> cache[k] == SelectedPods(pods, services[k])
  }

  method IndexExternal(rs: seq<ExternalResource>) returns (keys: set<ExternalKey>, grants: seq<ExternalResource>)
    ensures keys == Collect(rs, ExternalSet) && grants == Filter(rs, IsGrant)
  {
    keys, grants := {}, [];
    for n := 0 to |rs|
      invariant keys == Collect(rs[..n], ExternalSet) && grants == Filter(rs[..n], IsGrant)
    {
      CollectStep(rs, ExternalSet, n);
      FilterStep(rs, IsGrant, n);
      keys := keys + {ExternalResourceKey(rs[n])};
      if rs[n].kind == ReferenceGrant {
        grants := grants + [rs[n]];
      }
    }
    WholePrefix(rs);
  }

  // ---- the passes in order ----

  method AddClasses(b: TopologyBuilder, classes: seq<IngressClass>) returns (byName: Classes)
    modifies b
    ensures b.Contents() == old(b.Contents()).Plus(Sum(classes, ClassPiece))
    ensures byName == IndexBy(classes, ClassName)
  {
    ghost var base := b.Contents();
    PlusEmpty(base);
    byName := map[];
    for n := 0 to |classes|
      invariant b.Contents() == base.Plus(Sum(classes[..n], ClassPiece))
      invariant byName == IndexBy(classes[..n], ClassName)
    {
      Extend(classes, n);
      SumStep(base, classes, ClassPiece, n);
      byName := byName[classes[n].name := classes[n]];
      b.AddNode(ClassControllerID(classes[n].name),
                ControllerInfo(classes[n].name, classes[n].controller, "IngressClass", "Configured"));
    }
    WholePrefix(classes);
  }

  /** Classes known only by annotation join the others for inference. */
  function WithNames(classes: Classes, names: seq<string>): Classes {
    classes + map name | name in names :: IngressClass(name, "", "")
  }

  lemma WithNamesStep(classes: Classes, names: seq<string>, n: nat)
    requires n < |names|
    ensures WithNames(classes, names[..n + 1]) == WithNames(classes, names[..n])[names[n] := IngressClass(names[n], "", "")]
  {
    Extend(names, n);
  }

  method AddAnnotationController(b: TopologyBuilder, name: string)
    modifies b
    ensures b.Contents() == old(b.Contents()).Plus(AnnotationPiece(name))
  {
    b.AddNode(ClassControllerID(name), ControllerInfo(name, "", "kubernetes.io/ingress.class annotation", "Inferred"));
  }

  method AddAnnotationClasses(b: TopologyBuilder, names: seq<string>, classes: Classes) returns (inference: Classes)
    modifies b
    ensures b.Contents() == old(b.Contents()).Plus(Sum(names, AnnotationPiece))
    ensures inference == WithNames(classes, names)
  {
    ghost var base := b.Contents();
    PlusEmpty(base);
    inference := classes;
    for n := 0 to |names|
      invariant b.Contents() == base.Plus(Sum(names[..n], AnnotationPiece))
      invariant inference == WithNames(classes, names[..n])
    {
      WithNamesStep(classes, names, n);
      SumStep(base, names, AnnotationPiece, n);
      inference := inference[names[n] := IngressClass(names[n], "", "")];
      AddAnnotationController(b, names[n]);
    }
    WholePrefix(names);
  }

  method AddMachines(b: TopologyBuilder, machines: seq<Machine>) returns (names: set<string>)
    modifies b
    ensures b.Contents() == old(b.Contents()).Plus(Sum(machines, MachinePiece))
    ensures names == Collect(machines, MachineName)
  {
    ghost var base := b.Contents();
    PlusEmpty(base);
    names := {};
    for n := 0 to |machines|
      invariant b.Contents() == base.Plus(Sum(machines[..n], MachinePiece))
      invariant names == Collect(machines[..n], MachineName)
    {
      CollectStep(machines, MachineName, n);
      SumStep(base, machines, MachinePiece, n);
      names := names + {machines[n].name};
      b.AddNode(MachineID(machines[n].name), MachineInfo(machines[n]));
    }
    WholePrefix(machines);
  }

  method AddPods(b: TopologyBuilder, pods: seq<Pod>, machines: set<string>, ghost c: Cluster)
    requires pods == c.pods && machines == MachineNames(c)
    modifies b
    ensures b.Contents() == old(b.Contents()).Plus(Sum(c.pods, PodPiece(c)))
  {
    ghost var base := b.Contents();
    PlusEmpty(base);
    for n := 0 to |pods|
      invariant b.Contents() == base.Plus(Sum(pods[..n], PodPiece(c)))
    {
      SumStep(base, pods, PodPiece(c), n);
      b.AddPod(pods[n], machines, c);
    }
    WholePrefix(pods);
  }

  method AddServices(b: TopologyBuilder, services: seq<Service>, byNamespace: map<string, seq<Pod>>, ghost pods: seq<Pod>)
    returns (byKey: map<Key, Service>, cache: map<Key, seq<Pod>>)
    requires byNamespace == ByNamespace(pods)
    modifies b
    ensures b.Contents() == old(b.Contents()).Plus(Sum(services, ServicePiece))
    ensures byKey == IndexBy(services, ServiceKey) && CachesPods(cache, byKey, pods)
  {
    ghost var base := b.Contents();
    PlusEmpty(base);
    byKey, cache := map[], map[];
    for n := 0 to |services|
      invariant b.Contents() == base.Plus(Sum(services[..n], ServicePiece))
      invariant byKey == IndexBy(services[..n], ServiceKey) && CachesPods(cache, byKey, pods)
    {
      Extend(services, n);
      SumStep(base, services, ServicePiece, n);
      var s := services[n];
      byKey := byKey[s.key := s];
      b.AddService(s);
      var matches := MatchingPodsForService(s, byNamespace, pods);
      cache := cache[s.key := matches];
    }
    WholePrefix(services);
  }

  method AddExposures(b: TopologyBuilder, services: seq<Service>, x: Lookups, owners: set<Key>, ghost c: Cluster)
    requires services == c.services && Faithful(x, c) && Owns(owners, c.ingresses, ByStatus(c))
    modifies b
    ensures b.Contents() == old(b.Contents()).Plus(Sum(c.services, ExposurePiece(c)))
  {
    ghost var base := b.Contents();
    PlusEmpty(base);
    for n := 0 to |services|
      invariant b.Contents() == base.Plus(Sum(services[..n], ExposurePiece(c)))
    {
      SumStep(base, services, ExposurePiece(c), n);
      var target := TargetOf(services[n], x, owners, c);
      b.AddExposure(services[n], target, c);
    }
    WholePrefix(services);
  }

  method TargetOf(s: Service, x: Lookups, owners: set<Key>, ghost c: Cluster) returns (target: NodeID)
    requires Faithful(x, c) && Owns(owners, c.ingresses, ByStatus(c))
    ensures target == ExposureTarget(c, s)
  {
    OwnersExactly(owners, c, s.key);
    var name := MatchingIngressClassName(s, PodsAt(x.servicePods, s.key), x.inference);
    if name.Some? {
      return ClassControllerID(name.value);
    }
    if s.key in owners {
      return StatusControllerID(s.key);
    }
    return ServiceID(s.key);
  }

  lemma OwnersExactly(owners: set<Key>, c: Cluster, k: Key)
    requires Owns(owners, c.ingresses, ByStatus(c))
    ensures k in owners <==> OwnedByStatus(c, k)
  {
    if k in owners {
      var i :| i in c.ingresses && ByStatus(c)(i) == Some(StatusControllerID(k));
      assert StatusController(c, i) == Some(StatusControllerID(k));
    }
    if OwnedByStatus(c, k) {
      var i :| i in c.ingresses && StatusController(c, i) == Some(StatusControllerID(k));
      assert ByStatus(c)(i) == Some(StatusControllerID(k));
    }
  }

  // ---- Service to Pod and endpoint edges ----

  function PodIDSet(pods: seq<Pod>): set<NodeID> {
    set p | p in pods :: PodID(p.key)
  }

  method AddSelections(b: TopologyBuilder, services: seq<Service>, byNamespace: map<string, seq<Pod>>, ghost c: Cluster)
    requires services == c.services && byNamespace == ByNamespace(c.pods)
    modifies b
    ensures b.Contents() == old(b.Contents()).Plus(Sum(c.services, SelectPiece(c)))
  {
    ghost var base := b.Contents();
    PlusEmpty(base);
    for n := 0 to |services|
      invariant b.Contents() == base.Plus(Sum(services[..n], SelectPiece(c)))
    {
      SumStep(base, services, SelectPiece(c), n);
      AddSelection(b, services[n], byNamespace, c);
    }
    WholePrefix(services);
  }

  method AddSelection(b: TopologyBuilder, s: Service, byNamespace: map<string, seq<Pod>>, ghost c: Cluster)
    requires byNamespace == ByNamespace(c.pods)
    modifies b
    ensures b.Contents() == old(b.Contents()).Plus(SelectPiece(c)(s))
  {
    var matches := MatchingPodsForService(s, byNamespace, c.pods);
    assert PodIDSet(matches) == PodIDs(PodKeys(matches)) by {
      forall id | id in PodIDSet(matches) ensures id in PodIDs(PodKeys(matches)) {
        var p :| p in matches && PodID(p.key) == id;
        assert p.key in PodKeys(matches);
      }
    }
    b.AddFan(ServiceID(s.key), PodIDSet(matches), Selects, "Selector");
  }

  method AddSlicePods(b: TopologyBuilder, s: EndpointSlice, service: Key, index: PodIndex)
    modifies b
    ensures b.Contents() == old(b.Contents()).Plus(Fan(ServiceID(service), PodIDs(SlicePods(s, index)), SliceEdge, "EndpointSlice"))
  {
    var pods := EndpointCollection.EndpointSlicePods(s, index);
    b.AddFan(ServiceID(service), PodIDs(pods.Keys), SliceEdge, "EndpointSlice");
  }

  method AddSliceEndpoint(b: TopologyBuilder, s: EndpointSlice, e: SliceEndpoint, service: Key, index: PodIndex, ghost c: Cluster)
    requires index == IndexPods(c.pods)
    modifies b
    ensures b.Contents() == old(b.Contents()).Plus(SliceEndpointPiece(c, s, service)(e))
  {
    ghost var base := b.Contents();
    PlusEmpty(base);
    for n := 0 to |e.addresses|
      invariant b.Contents() == base.Plus(Sum(e.addresses[..n], SliceAddressPiece(c, s, e, service)))
    {
      SumStep(base, e.addresses, SliceAddressPiece(c, s, e, service), n);
      b.AddSliceAddress(s, e, service, e.addresses[n], index, c);
    }
    WholePrefix(e.addresses);
  }

  method AddSliceEndpoints(b: TopologyBuilder, s: EndpointSlice, service: Key, index: PodIndex, ghost c: Cluster)
    requires index == IndexPods(c.pods)
    modifies b
    ensures b.Contents() == old(b.Contents()).Plus(Sum(s.endpoints, SliceEndpointPiece(c, s, service)))
  {
    ghost var base := b.Contents();
    PlusEmpty(base);
    for n := 0 to |s.endpoints|
      invariant b.Contents() == base.Plus(Sum(s.endpoints[..n], SliceEndpointPiece(c, s, service)))
    {
      SumStep(base, s.endpoints, SliceEndpointPiece(c, s, service), n);
      AddSliceEndpoint(b, s, s.endpoints[n], service, index, c);
    }
    WholePrefix(s.endpoints);
  }

  method AddSlice(b: TopologyBuilder, s: EndpointSlice, services: map<Key, Service>, index: PodIndex, ghost c: Cluster)
    requires services == Services(c) && index == IndexPods(c.pods)
    modifies b
    ensures b.Contents() == old(b.Contents()).Plus(SlicePiece(c)(s))
  {
    ghost var base := b.Contents();
    PlusEmpty(base);
    if s.service == "" {
      return;
    }
    var service := Key(s.namespace, s.service);
    if service !in services || services[service].selector != map[] {
      return;
    }
    AddSlicePods(b, s, service, index);
    AddSliceEndpoints(b, s, service, index, c);
    PlusAssociative(base, Fan(ServiceID(service), PodIDs(SlicePods(s, index)), SliceEdge, "EndpointSlice"),
                    Sum(s.endpoints, SliceEndpointPiece(c, s, service)));
  }

  method AddSlices(b: TopologyBuilder, slices: seq<EndpointSlice>, services: map<Key, Service>, index: PodIndex, ghost c: Cluster)
    requires slices == c.slices && services == Services(c) && index == IndexPods(c.pods)
    modifies b
    ensures b.Contents() == old(b.Contents()).Plus(Sum(c.slices, SlicePiece(c)))
  {
    ghost var base := b.Contents();
    PlusEmpty(base);
    for n := 0 to |slices|
      invariant b.Contents() == base.Plus(Sum(slices[..n], SlicePiece(c)))
    {
      SumStep(base, slices, SlicePiece(c), n);
      AddSlice(b, slices[n], services, index, c);
    }
    WholePrefix(slices);
  }

  method AddLegacyAddresses(b: TopologyBuilder, e: Endpoints, index: PodIndex, ghost c: Cluster)
    requires index == IndexPods(c.pods)
    modifies b
    ensures b.Contents() == old(b.Contents()).Plus(Sum(LegacyAddresses(e), LegacyAddressPiece(c, e)))
  {
    ghost var base := b.Contents();
    PlusEmpty(base);
    var addresses := LegacyAddresses(e);
    for n := 0 to |addresses|
      invariant b.Contents() == base.Plus(Sum(addresses[..n], LegacyAddressPiece(c, e)))
    {
      SumStep(base, addresses, LegacyAddressPiece(c, e), n);
      b.AddLegacyAddress(e, addresses[n], index, c);
    }
    WholePrefix(addresses);
  }

  method AddLegacy(b: TopologyBuilder, e: Endpoints, services: map<Key, Service>, sliced: set<Key>, index: PodIndex, ghost c: Cluster)
    requires services == Services(c) && index == IndexPods(c.pods) && forall k :: k in sliced <==> HasSlice(c.slices, k)
    modifies b
    ensures b.Contents() == old(b.Contents()).Plus(LegacyPiece(c)(e))
  {
    ghost var base := b.Contents();
    PlusEmpty(base);
    if e.key !in services || services[e.key].selector != map[] {
      return;
    }
    if e.key in sliced {
      return;
    }
    var addresses := LegacyAddresses(e);
    var pods := EndpointCollection.LegacyEndpointPods(addresses, e.key.namespace, index);
    b.AddFan(ServiceID(e.key), PodIDs(pods.Keys), EndpointEdge, "Endpoints");
    AddLegacyAddresses(b, e, index, c);
    PlusAssociative(base, Fan(ServiceID(e.key), PodIDs(LegacyPods(e, index)), EndpointEdge, "Endpoints"),
                    Sum(addresses, LegacyAddressPiece(c, e)));
  }

  method AddAllLegacy(b: TopologyBuilder, endpoints: seq<Endpoints>, services: map<Key, Service>, sliced: set<Key>, index: PodIndex,
                      ghost c: Cluster)
    requires endpoints == c.endpoints && services == Services(c) && index == IndexPods(c.pods)
    requires forall k :: k in sliced <==> HasSlice(c.slices, k)
    modifies b
    ensures b.Contents() == old(b.Contents()).Plus(Sum(c.endpoints, LegacyPiece(c)))
  {
    ghost var base := b.Contents();
    PlusEmpty(base);
    for n := 0 to |endpoints|
      invariant b.Contents() == base.Plus(Sum(endpoints[..n], LegacyPiece(c)))
    {
      SumStep(base, endpoints, LegacyPiece(c), n);
      AddLegacy(b, endpoints[n], services, sliced, index, c);
    }
    WholePrefix(endpoints);
  }

  // ---- the whole build ----

  lemma InferenceFromNames(c: Cluster)
    ensures WithNames(ClassesByName(c), AnnotationNames(c)) == InferenceClasses(c.ingresses, ClassesByName(c))
  {
    Sorting.OrderedMembers(AnnotationClasses(c.ingresses, ClassesByName(c)), Sorting.Before);
  }

  method AddControllers(b: TopologyBuilder, c: Cluster) returns (classes: Classes, inference: Classes)
    modifies b
    ensures b.Contents() == old(b.Contents()).Plus(ControllerNodes(c))
    ensures classes == ClassesByName(c) && inference == InferenceClasses(c.ingresses, ClassesByName(c))
  {
    ghost var base := b.Contents();
    classes := AddClasses(b, c.classes);
    var names := AnnotationOnlyIngressClasses(c.ingresses, classes);
    inference := AddAnnotationClasses(b, names, classes);
    InferenceFromNames(c);
    PlusAssociative(base, Sum(c.classes, ClassPiece), Sum(names, AnnotationPiece));
  }

  method AddWorkloads(b: TopologyBuilder, c: Cluster, byNamespace: map<string, seq<Pod>>)
    returns (byKey: map<Key, Service>, cache: map<Key, seq<Pod>>)
    requires byNamespace == ByNamespace(c.pods)
    modifies b
    ensures b.Contents() == old(b.Contents()).Plus(Workloads(c))
    ensures byKey == Services(c) && CachesPods(cache, byKey, c.pods)
  {
    ghost var base := b.Contents();
    var machines := AddMachines(b, c.machines);
    AddPods(b, c.pods, machines, c);
    byKey, cache := AddServices(b, c.services, byNamespace, c.pods);
    Plus3(base, Sum(c.machines, MachinePiece), Sum(c.pods, PodPiece(c)), Sum(c.services, ServicePiece));
  }

  method AddAllExposure(b: TopologyBuilder, c: Cluster, x: Lookups) returns (byIngress: map<Key, NodeID>)
    requires Faithful(x, c) && UniqueInputs(c)
    modifies b
    ensures b.Contents() == old(b.Contents()).Plus(Exposure(c))
    ensures Records(byIngress, c.ingresses, ByStatus(c))
  {
    ghost var base := b.Contents();
    var addresses := ServicesByLoadBalancerAddress(c.services);
    var owners;
    byIngress, owners := InferStatusControllers(b, c.ingresses, x, addresses, c);
    AddExposures(b, c.services, x, owners, c);
    PlusAssociative(base, Sum(c.ingresses, StatusPiece(c)), Sum(c.services, ExposurePiece(c)));
  }

  method AddTraffic(b: TopologyBuilder, c: Cluster, x: Lookups, byIngress: map<Key, NodeID>)
    requires Faithful(x, c) && UniqueInputs(c) && Records(byIngress, c.ingresses, ByStatus(c))
    modifies b
    ensures b.Contents() == old(b.Contents()).Plus(Traffic(c))
  {
    ghost var base := b.Contents();
    var controllers := ControllersByIngress(c.ingresses, x, byIngress, c);
    var overlaps := OverlapCollection.CollectRouteOverlaps(c.ingresses, controllers);
    AddIngresses(b, c.ingresses, x, byIngress, overlaps, c);
    var external, grants := IndexExternal(c.external);
    AddExternalResources(b, c.external, x.services, external, grants, c.watchNamespace, c);
    PlusAssociative(base, Sum(c.ingresses, IngressPiece(c)), Sum(c.external, ExternalPiece(c)));
  }

  method AddAllBackends(b: TopologyBuilder, c: Cluster, services: map<Key, Service>, index: PodIndex,
                        byNamespace: map<string, seq<Pod>>, sliced: set<Key>)
    requires services == Services(c) && index == IndexPods(c.pods) && byNamespace == ByNamespace(c.pods)
    requires forall k :: k in sliced <==> HasSlice(c.slices, k)
    modifies b
    ensures b.Contents() == old(b.Contents()).Plus(Backends(c))
  {
    ghost var base := b.Contents();
    AddSelections(b, c.services, byNamespace, c);
    AddSlices(b, c.slices, services, index, c);
    AddAllLegacy(b, c.endpoints, services, sliced, index, c);
    Plus3(base, Sum(c.services, SelectPiece(c)), Sum(c.slices, SlicePiece(c)), Sum(c.endpoints, LegacyPiece(c)));
  }

  lemma CacheIsPods(c: Cluster, cache: map<Key, seq<Pod>>)
    requires CachesPods(cache, Services(c), c.pods)
    ensures forall k :: PodsAt(cache, k) == ServicePods(c, k)
  {
  }

  /** BuildTopologyWithOptions, up to the sorted lists of its result. */
  method BuildTopology(c: Cluster) returns (b: TopologyBuilder)
    requires UniqueInputs(c)
    ensures fresh(b) && b.Contents() == Build(c)
  {
    b := new TopologyBuilder();
    PlusEmpty(EMPTY_GRAPH);
    var index, byNamespace := IndexAllPods(c.pods);
    var stats := EndpointCollection.EndpointStatsByService(c.slices, c.endpoints);
    var sliced := EndpointCollection.ServicesWithEndpointSlices(c.slices);
    var portPods := EndpointCollection.EndpointPodsByService(c.slices, c.endpoints, index);
    var classes, inference := AddControllers(b, c);
    var byKey, cache := AddWorkloads(b, c, byNamespace);
    CacheIsPods(c, cache);
    var x := Lookups(byKey, index, cache, classes, inference, stats, portPods);
    var byIngress := AddAllExposure(b, c, x);
    AddTraffic(b, c, x, byIngress);
    AddAllBackends(b, c, byKey, index, byNamespace, sliced);
    Plus5(EMPTY_GRAPH, ControllerNodes(c), Workloads(c), Exposure(c), Traffic(c), Backends(c));
    PlusEmpty(Build(c));
  }
}
