/** Every lookup a build makes on behalf of a kept Service gives the same answer
    on the pruned inputs. */
module PrunedIndexes {
  import opened Collections
  import opened Kube
  import opened EndpointModel
  import opened Topology
  import opened Builder
  import opened Pruning

  lemma SameService(c: Cluster, k: Key)
    requires k in ServiceKeys(c)
    ensures Lookup(Services(Prune(c)), k) == Lookup(Services(c), k)
  {
    LookupKept(c.services, ServiceKey, KeepService(ServiceKeys(c)), k);
  }

  lemma OnlyKeptServices(c: Cluster, k: Key)
    requires k in Services(Prune(c))
    ensures k in ServiceKeys(c)
  {
    IndexMember(Prune(c).services, ServiceKey);
    FilterMember(c.services, KeepService(ServiceKeys(c)));
  }

  lemma SelectsMeansMatches(selector: Labels, labels: Labels)
    requires SelectorSelects(selector, labels)
    ensures SelectorMatches(labels, selector)
  {
  }

  /** Pods a kept Service selects are kept, in order. */
  lemma SameSelectedPods(c: Cluster, s: Service)
    requires s in c.services && s.key in ServiceKeys(c)
    ensures SelectedPods(Prune(c).pods, s) == SelectedPods(c.pods, s)
  {
    var refs := ScopedRefs(c, ServiceKeys(c));
    FilterMember(c.services, KeepService(ServiceKeys(c)));
    if s.selector != map[] {
      forall pod | pod in c.pods && SelectedBy(s)(pod) ensures KeepPod(refs)(pod) {
        SelectsMeansMatches(s.selector, pod.labels);
      }
      FilterKept(c.pods, SelectedBy(s), KeepPod(refs));
    }
  }

  lemma SameServicePods(c: Cluster, k: Key)
    requires k in ServiceKeys(c)
    ensures ServicePods(Prune(c), k) == ServicePods(c, k)
  {
    SameService(c, k);
    IndexMember(c.services, ServiceKey);
    if k in Services(c) {
      SameSelectedPods(c, Services(c)[k]);
    }
  }

  lemma SameHasSlice(c: Cluster, k: Key)
    requires k in ServiceKeys(c)
    ensures HasSlice(Prune(c).slices, k) == HasSlice(c.slices, k)
    ensures HasLegacy(Prune(c).endpoints, k) == HasLegacy(c.endpoints, k)
  {
    FilterMember(c.slices, KeepSlice(ServiceKeys(c)));
    FilterMember(c.endpoints, KeepEndpoints(ServiceKeys(c)));
  }

  lemma SameStats(c: Cluster, k: Key)
    requires k in ServiceKeys(c)
    ensures ServiceStats(Prune(c).slices, Prune(c).endpoints, k) == ServiceStats(c.slices, c.endpoints, k)
  {
    SameHasSlice(c, k);
    SumStatsKept(c.slices, StatsFor(k), KeepSlice(ServiceKeys(c)));
    SumStatsKept(c.endpoints, LegacyStatsFor(k), KeepEndpoints(ServiceKeys(c)));
  }

  /** A reference or address that the kept endpoint objects mention resolves to
      the same Pod, by name and by IP, whatever Pods share it. */
  lemma SameResolution(c: Cluster, target: Option<TargetRef>, namespace: string, address: string)
    requires
      var refs := ScopedRefs(c, ServiceKeys(c));
      && TargetSet(target, namespace) <= refs.pods
      && (address == "" || Key(namespace, address) in refs.addresses)
    ensures ResolvePod(target, namespace, address, IndexPods(Prune(c).pods))
         == ResolvePod(target, namespace, address, IndexPods(c.pods))
  {
    var keep := KeepPod(ScopedRefs(c, ServiceKeys(c)));
    if TargetKey(target, namespace).Some? {
      LookupKept(c.pods, PodKey, keep, TargetKey(target, namespace).value);
    }
    LookupKept(c.pods, PodAddress, keep, Key(namespace, address));
  }

  lemma SliceRefs(c: Cluster, s: EndpointSlice, e: SliceEndpoint, address: string)
    requires s in Prune(c).slices && e in s.endpoints && address in e.addresses
    ensures
      var refs := ScopedRefs(c, ServiceKeys(c));
      TargetSet(e.target, s.namespace) <= refs.pods && Key(s.namespace, address) in refs.addresses
  {
    CollectMember(Prune(c).slices, SliceTargets);
    CollectMember(s.endpoints, EndpointTargets(s.namespace));
    CollectMember(Prune(c).slices, SliceAddresses);
    CollectMember(s.endpoints, EndpointAddressKeys(s.namespace));
    CollectMember(e.addresses, AddressKey(s.namespace));
    assert Key(s.namespace, address) in AddressKey(s.namespace)(address);
    assert Key(s.namespace, address) in EndpointAddressKeys(s.namespace)(e);
    assert Key(s.namespace, address) in SliceAddresses(s);
    forall k | k in TargetSet(e.target, s.namespace) ensures k in SliceTargets(s) {
      assert k in EndpointTargets(s.namespace)(e);
    }
  }

  lemma LegacyRefs(c: Cluster, e: Endpoints, a: LegacyAddress)
    requires e in Prune(c).endpoints && a in LegacyAddresses(e)
    ensures
      var refs := ScopedRefs(c, ServiceKeys(c));
      && TargetSet(a.address.target, e.key.namespace) <= refs.pods
      && (a.address.ip == "" || Key(e.key.namespace, a.address.ip) in refs.addresses)
  {
    CollectMember(Prune(c).endpoints, LegacyTargets);
    CollectMember(LegacyAddresses(e), LegacyTarget(e.key.namespace));
    CollectMember(Prune(c).endpoints, LegacyAddressKeys);
    CollectMember(LegacyAddresses(e), LegacyAddressKey(e.key.namespace));
    forall k | k in TargetSet(a.address.target, e.key.namespace) ensures k in LegacyTargets(e) {
      assert k in LegacyTarget(e.key.namespace)(a);
    }
    if a.address.ip != "" {
      var k := Key(e.key.namespace, a.address.ip);
      assert k in LegacyAddressKey(e.key.namespace)(a);
      assert k in LegacyAddressKeys(e);
    }
  }

  lemma SameSliceResolution(c: Cluster, s: EndpointSlice, e: SliceEndpoint, address: string)
    requires s in Prune(c).slices && e in s.endpoints && address in e.addresses
    ensures ResolvePod(e.target, s.namespace, address, IndexPods(Prune(c).pods))
         == ResolvePod(e.target, s.namespace, address, IndexPods(c.pods))
  {
    SliceRefs(c, s, e, address);
    SameResolution(c, e.target, s.namespace, address);
  }

  lemma SameLegacyResolution(c: Cluster, e: Endpoints, a: LegacyAddress)
    requires e in Prune(c).endpoints && a in LegacyAddresses(e)
    ensures ResolvePod(a.address.target, e.key.namespace, a.address.ip, IndexPods(Prune(c).pods))
         == ResolvePod(a.address.target, e.key.namespace, a.address.ip, IndexPods(c.pods))
  {
    LegacyRefs(c, e, a);
    SameResolution(c, a.address.target, e.key.namespace, a.address.ip);
  }

  lemma SameSlicePods(c: Cluster, s: EndpointSlice)
    requires s in Prune(c).slices
    ensures SlicePods(s, IndexPods(Prune(c).pods)) == SlicePods(s, IndexPods(c.pods))
  {
    var small, large := IndexPods(Prune(c).pods), IndexPods(c.pods);
    forall e | e in s.endpoints ensures EndpointPods(s.namespace, small)(e) == EndpointPods(s.namespace, large)(e) {
      forall a | a in e.addresses
        ensures AddressPods(e, s.namespace, small)(a) == AddressPods(e, s.namespace, large)(a)
      {
        SameSliceResolution(c, s, e, a);
      }
      CollectSame(e.addresses, AddressPods(e, s.namespace, small), AddressPods(e, s.namespace, large));
    }
    CollectSame(s.endpoints, EndpointPods(s.namespace, small), EndpointPods(s.namespace, large));
  }

  lemma SameAddressPods(c: Cluster, e: Endpoints, addresses: seq<LegacyAddress>)
    requires e in Prune(c).endpoints
    requires forall a :: a in addresses ==> a in LegacyAddresses(e)
    ensures Collect(addresses, LegacyAddressPods(e.key.namespace, IndexPods(Prune(c).pods)))
         == Collect(addresses, LegacyAddressPods(e.key.namespace, IndexPods(c.pods)))
  {
    var small := LegacyAddressPods(e.key.namespace, IndexPods(Prune(c).pods));
    var large := LegacyAddressPods(e.key.namespace, IndexPods(c.pods));
    forall a | a in addresses ensures small(a) == large(a) {
      SameLegacyResolution(c, e, a);
    }
    CollectSame(addresses, small, large);
  }

  lemma SameSlicePortPods(c: Cluster, k: Key, port: string)
    requires k in ServiceKeys(c)
    ensures Collect(Prune(c).slices, SlicePortPods(k, port, IndexPods(Prune(c).pods)))
         == Collect(c.slices, SlicePortPods(k, port, IndexPods(c.pods)))
  {
    var small, large := SlicePortPods(k, port, IndexPods(Prune(c).pods)), SlicePortPods(k, port, IndexPods(c.pods));
    var keep := KeepSlice(ServiceKeys(c));
    FilterMember(c.slices, keep);
    forall s | s in c.slices && keep(s) ensures large(s) == small(s) {
      SameSlicePods(c, s);
    }
    CollectKept(c.slices, large, small, keep);
  }

  lemma SameSubsetPortPods(c: Cluster, e: Endpoints, port: string)
    requires e in Prune(c).endpoints
    ensures Collect(e.subsets, SubsetPortPods(e.key.namespace, port, IndexPods(Prune(c).pods)))
         == Collect(e.subsets, SubsetPortPods(e.key.namespace, port, IndexPods(c.pods)))
  {
    var small := SubsetPortPods(e.key.namespace, port, IndexPods(Prune(c).pods));
    var large := SubsetPortPods(e.key.namespace, port, IndexPods(c.pods));
    FlatMapMember(e.subsets, SubsetAddresses);
    forall s | s in e.subsets ensures small(s) == large(s) {
      SameAddressPods(c, e, SubsetAddresses(s));
    }
    CollectSame(e.subsets, small, large);
  }

  lemma SameLegacyPortPods(c: Cluster, k: Key, port: string)
    requires k in ServiceKeys(c)
    ensures Collect(Prune(c).endpoints, LegacyPortPods(k, port, IndexPods(Prune(c).pods)))
         == Collect(c.endpoints, LegacyPortPods(k, port, IndexPods(c.pods)))
  {
    var small, large := LegacyPortPods(k, port, IndexPods(Prune(c).pods)), LegacyPortPods(k, port, IndexPods(c.pods));
    var keep := KeepEndpoints(ServiceKeys(c));
    FilterMember(c.endpoints, keep);
    forall e | e in c.endpoints && keep(e) ensures large(e) == small(e) {
      SameSubsetPortPods(c, e, port);
    }
    CollectKept(c.endpoints, large, small, keep);
  }

  lemma SamePortPods(c: Cluster, k: Key, port: string)
    requires k in ServiceKeys(c)
    ensures PortPods(Prune(c).slices, Prune(c).endpoints, IndexPods(Prune(c).pods), k, port)
         == PortPods(c.slices, c.endpoints, IndexPods(c.pods), k, port)
  {
    SameHasSlice(c, k);
    SameSlicePortPods(c, k, port);
    SameLegacyPortPods(c, k, port);
  }
}
