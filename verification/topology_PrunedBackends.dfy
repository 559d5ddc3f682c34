/** Services, the Pods they select and the endpoints they list: pruning drops
    only what hangs off Services that carry no traffic. */
module PrunedBackends {
  import opened Collections
  import opened Kube
  import opened NodeIDs
  import opened EndpointModel
  import opened Topology
  import opened Builder
  import opened Pruning
  import opened PrunedIndexes
  import opened PrunedGraph
  import opened PrunedTraffic
  import Text

  /** Every Pod the pruned indexes resolve to is a kept one. */
  lemma ResolvedKept(c: Cluster, target: Option<TargetRef>, namespace: string, address: string)
    ensures PodSet(ResolvePod(target, namespace, address, IndexPods(Prune(c).pods))) <= KeptBy(c).pods
  {
    IndexMember(Prune(c).pods, PodKey);
    IndexMember(Prune(c).pods, PodAddress);
  }

  lemma SlicePodsKept(c: Cluster, s: EndpointSlice)
    ensures SlicePods(s, IndexPods(Prune(c).pods)) <= KeptBy(c).pods
  {
    var index := IndexPods(Prune(c).pods);
    CollectMember(s.endpoints, EndpointPods(s.namespace, index));
    forall k | k in SlicePods(s, index) ensures k in KeptBy(c).pods {
      var e :| e in s.endpoints && k in EndpointPods(s.namespace, index)(e);
      CollectMember(e.addresses, AddressPods(e, s.namespace, index));
      var a :| a in e.addresses && k in AddressPods(e, s.namespace, index)(a);
      ResolvedKept(c, e.target, s.namespace, a);
    }
  }

  lemma LegacyPodsKept(c: Cluster, e: Endpoints)
    ensures LegacyPods(e, IndexPods(Prune(c).pods)) <= KeptBy(c).pods
  {
    var index := IndexPods(Prune(c).pods);
    var pods := LegacyAddressPods(e.key.namespace, index);
    CollectMember(LegacyAddresses(e), pods);
    forall k | k in LegacyPods(e, index) ensures k in KeptBy(c).pods {
      var a :| a in LegacyAddresses(e) && k in pods(a);
      ResolvedKept(c, a.address.target, e.key.namespace, a.address.ip);
    }
  }

  lemma PodFanWithin(kept: Kept, service: Key, pods: set<Key>, kind: EdgeKind, text: string)
    requires service in kept.services && pods <= kept.pods
    ensures kept.Within(Fan(ServiceID(service), PodIDs(pods), kind, text))
  {
  }

  lemma FanOutside(kept: Kept, service: Key, targets: set<NodeID>, kind: EdgeKind, text: string)
    requires service !in kept.services
    ensures kept.Outside(Fan(ServiceID(service), targets, kind, text))
  {
  }

  lemma PlusOutside(kept: Kept, a: Graph, b: Graph)
    requires kept.Outside(a) && kept.Outside(b)
    ensures kept.Outside(a.Plus(b))
  {
  }

  // ---- selectors ----

  lemma KeepsSelected(c: Cluster, s: Service)
    requires s in c.services
    ensures KeptBy(c).Restrict(SelectPiece(c)(s)) ==
            if KeepService(ServiceKeys(c))(s) then SelectPiece(Prune(c))(s) else EMPTY_GRAPH
  {
    var kept := KeptBy(c);
    if s.key in ServiceKeys(c) {
      SameSelectedPods(c, s);
      FilterMember(Prune(c).pods, SelectedBy(s));
      PodFanWithin(kept, s.key, PodKeys(SelectedPods(Prune(c).pods, s)), Selects, "Selector");
      WithinRestrict(kept, SelectPiece(c)(s));
    } else {
      FanOutside(kept, s.key, PodIDs(PodKeys(SelectedPods(c.pods, s))), Selects, "Selector");
      OutsideRestrict(kept, SelectPiece(c)(s));
    }
  }

  // ---- EndpointSlices ----

  lemma SameSelectorless(c: Cluster, k: Key)
    requires k in ServiceKeys(c)
    ensures Selectorless(Prune(c), k) == Selectorless(c, k)
  {
    SameService(c, k);
  }

  /** A drawn endpoint's node and edge stay or go with its Service. */
  lemma SliceAddressSide(kept: Kept, c: Cluster, s: EndpointSlice, e: SliceEndpoint, service: Key, address: string)
    ensures service in kept.services ==> kept.Within(SliceAddressPiece(c, s, e, service)(address))
    ensures service !in kept.services ==> kept.Outside(SliceAddressPiece(c, s, e, service)(address))
  {
    var id, piece := SliceEndpointID(service, s.name, Text.SafeID(address)), SliceAddressPiece(c, s, e, service)(address);
    assert forall n :: n in piece.nodes ==> n == id;
    assert forall x :: x in piece.edges ==> x == Edge(ServiceID(service), id, SliceEdge);
  }

  lemma SliceEndpointSide(kept: Kept, c: Cluster, s: EndpointSlice, service: Key)
    ensures service in kept.services ==> kept.Within(Sum(s.endpoints, SliceEndpointPiece(c, s, service)))
    ensures service !in kept.services ==> kept.Outside(Sum(s.endpoints, SliceEndpointPiece(c, s, service)))
  {
    forall e | e in s.endpoints
      ensures service in kept.services ==> kept.Within(SliceEndpointPiece(c, s, service)(e))
      ensures service !in kept.services ==> kept.Outside(SliceEndpointPiece(c, s, service)(e))
    {
      forall a | a in e.addresses
        ensures service in kept.services ==> kept.Within(SliceAddressPiece(c, s, e, service)(a))
        ensures service !in kept.services ==> kept.Outside(SliceAddressPiece(c, s, e, service)(a))
      {
        SliceAddressSide(kept, c, s, e, service, a);
      }
      if service in kept.services {
        WithinSum(kept, e.addresses, SliceAddressPiece(c, s, e, service));
      } else {
        OutsideSum(kept, e.addresses, SliceAddressPiece(c, s, e, service));
      }
    }
    if service in kept.services {
      WithinSum(kept, s.endpoints, SliceEndpointPiece(c, s, service));
    } else {
      OutsideSum(kept, s.endpoints, SliceEndpointPiece(c, s, service));
    }
  }

  lemma SameSliceEndpoints(c: Cluster, s: EndpointSlice, service: Key)
    requires s in Prune(c).slices
    ensures Sum(s.endpoints, SliceEndpointPiece(Prune(c), s, service)) == Sum(s.endpoints, SliceEndpointPiece(c, s, service))
  {
    forall e | e in s.endpoints
      ensures SliceEndpointPiece(Prune(c), s, service)(e) == SliceEndpointPiece(c, s, service)(e)
    {
      forall a | a in e.addresses
        ensures SliceAddressPiece(Prune(c), s, e, service)(a) == SliceAddressPiece(c, s, e, service)(a)
      {
        SameSliceResolution(c, s, e, a);
      }
      SumSame(e.addresses, SliceAddressPiece(Prune(c), s, e, service), SliceAddressPiece(c, s, e, service));
    }
    SumSame(s.endpoints, SliceEndpointPiece(Prune(c), s, service), SliceEndpointPiece(c, s, service));
  }

  lemma KeepsKeptSlice(c: Cluster, s: EndpointSlice)
    requires s in c.slices && KeepSlice(ServiceKeys(c))(s)
    ensures SlicePiece(Prune(c))(s) == SlicePiece(c)(s)
    ensures KeptBy(c).Within(SlicePiece(c)(s))
  {
    var kept, service := KeptBy(c), SliceService(s).value;
    FilterMember(c.slices, KeepSlice(ServiceKeys(c)));
    SameSelectorless(c, service);
    SameSlicePods(c, s);
    SlicePodsKept(c, s);
    SameSliceEndpoints(c, s, service);
    SliceEndpointSide(kept, c, s, service);
    PodFanWithin(kept, service, SlicePods(s, IndexPods(c.pods)), SliceEdge, "EndpointSlice");
    WithinPlus(kept, Fan(ServiceID(service), PodIDs(SlicePods(s, IndexPods(c.pods))), SliceEdge, "EndpointSlice"),
               Sum(s.endpoints, SliceEndpointPiece(c, s, service)));
    EmptyWithin(kept);
  }

  lemma DropsSlice(kept: Kept, c: Cluster, s: EndpointSlice)
    requires SliceService(s).None? || SliceService(s).value !in kept.services
    ensures kept.Outside(SlicePiece(c)(s))
  {
    if SliceService(s).Some? {
      var service := SliceService(s).value;
      SliceEndpointSide(kept, c, s, service);
      FanOutside(kept, service, PodIDs(SlicePods(s, IndexPods(c.pods))), SliceEdge, "EndpointSlice");
      PlusOutside(kept, Fan(ServiceID(service), PodIDs(SlicePods(s, IndexPods(c.pods))), SliceEdge, "EndpointSlice"),
                  Sum(s.endpoints, SliceEndpointPiece(c, s, service)));
    }
  }

  lemma KeepsSlice(c: Cluster, s: EndpointSlice)
    requires s in c.slices
    ensures KeptBy(c).Restrict(SlicePiece(c)(s)) ==
            if KeepSlice(ServiceKeys(c))(s) then SlicePiece(Prune(c))(s) else EMPTY_GRAPH
  {
    if KeepSlice(ServiceKeys(c))(s) {
      KeepsKeptSlice(c, s);
      WithinRestrict(KeptBy(c), SlicePiece(c)(s));
    } else {
      DropsSlice(KeptBy(c), c, s);
      OutsideRestrict(KeptBy(c), SlicePiece(c)(s));
    }
  }

  // ---- legacy Endpoints ----

  lemma LegacySide(kept: Kept, c: Cluster, e: Endpoints)
    ensures e.key in kept.services ==> kept.Within(Sum(LegacyAddresses(e), LegacyAddressPiece(c, e)))
    ensures e.key !in kept.services ==> kept.Outside(Sum(LegacyAddresses(e), LegacyAddressPiece(c, e)))
  {
    forall a | a in LegacyAddresses(e)
      ensures e.key in kept.services ==> kept.Within(LegacyAddressPiece(c, e)(a))
      ensures e.key !in kept.services ==> kept.Outside(LegacyAddressPiece(c, e)(a))
    {
      var id, piece := LegacyEndpointID(e.key, Text.SafeID(a.address.ip)), LegacyAddressPiece(c, e)(a);
      assert forall n :: n in piece.nodes ==> n == id;
      assert forall x :: x in piece.edges ==> x == Edge(ServiceID(e.key), id, EndpointEdge);
    }
    if e.key in kept.services {
      WithinSum(kept, LegacyAddresses(e), LegacyAddressPiece(c, e));
    } else {
      OutsideSum(kept, LegacyAddresses(e), LegacyAddressPiece(c, e));
    }
  }

  lemma SameLegacyPieces(c: Cluster, e: Endpoints)
    requires e in Prune(c).endpoints
    ensures Sum(LegacyAddresses(e), LegacyAddressPiece(Prune(c), e)) == Sum(LegacyAddresses(e), LegacyAddressPiece(c, e))
    ensures LegacyPods(e, IndexPods(Prune(c).pods)) == LegacyPods(e, IndexPods(c.pods))
  {
    forall a | a in LegacyAddresses(e) ensures LegacyAddressPiece(Prune(c), e)(a) == LegacyAddressPiece(c, e)(a) {
      SameLegacyResolution(c, e, a);
    }
    SumSame(LegacyAddresses(e), LegacyAddressPiece(Prune(c), e), LegacyAddressPiece(c, e));
    SameAddressPods(c, e, LegacyAddresses(e));
  }

  lemma KeepsKeptEndpoints(c: Cluster, e: Endpoints)
    requires e in c.endpoints && e.key in ServiceKeys(c)
    ensures LegacyPiece(Prune(c))(e) == LegacyPiece(c)(e)
    ensures KeptBy(c).Within(LegacyPiece(c)(e))
  {
    var kept := KeptBy(c);
    FilterMember(c.endpoints, KeepEndpoints(ServiceKeys(c)));
    SameSelectorless(c, e.key);
    SameHasSlice(c, e.key);
    SameLegacyPieces(c, e);
    LegacyPodsKept(c, e);
    LegacySide(kept, c, e);
    PodFanWithin(kept, e.key, LegacyPods(e, IndexPods(c.pods)), EndpointEdge, "Endpoints");
    WithinPlus(kept, Fan(ServiceID(e.key), PodIDs(LegacyPods(e, IndexPods(c.pods))), EndpointEdge, "Endpoints"),
               Sum(LegacyAddresses(e), LegacyAddressPiece(c, e)));
    EmptyWithin(kept);
  }

  lemma KeepsEndpoints(c: Cluster, e: Endpoints)
    requires e in c.endpoints
    ensures KeptBy(c).Restrict(LegacyPiece(c)(e)) ==
            if KeepEndpoints(ServiceKeys(c))(e) then LegacyPiece(Prune(c))(e) else EMPTY_GRAPH
  {
    var kept := KeptBy(c);
    if e.key in ServiceKeys(c) {
      KeepsKeptEndpoints(c, e);
      WithinRestrict(kept, LegacyPiece(c)(e));
    } else {
      LegacySide(kept, c, e);
      FanOutside(kept, e.key, PodIDs(LegacyPods(e, IndexPods(c.pods))), EndpointEdge, "Endpoints");
      PlusOutside(kept, Fan(ServiceID(e.key), PodIDs(LegacyPods(e, IndexPods(c.pods))), EndpointEdge, "Endpoints"),
                  Sum(LegacyAddresses(e), LegacyAddressPiece(c, e)));
      OutsideRestrict(kept, LegacyPiece(c)(e));
    }
  }

  // ---- all of them ----

  lemma KeepsBackendSection(c: Cluster)
    ensures KeptBy(c).Restrict(Backends(c)) == Backends(Prune(c))
  {
    var kept := KeptBy(c);
    forall s | s in c.services
      ensures kept.Restrict(SelectPiece(c)(s)) == if KeepService(ServiceKeys(c))(s) then SelectPiece(Prune(c))(s) else EMPTY_GRAPH
    {
      KeepsSelected(c, s);
    }
    RestrictSum(kept, c.services, KeepService(ServiceKeys(c)), SelectPiece(c), SelectPiece(Prune(c)));
    forall s | s in c.slices
      ensures kept.Restrict(SlicePiece(c)(s)) == if KeepSlice(ServiceKeys(c))(s) then SlicePiece(Prune(c))(s) else EMPTY_GRAPH
    {
      KeepsSlice(c, s);
    }
    RestrictSum(kept, c.slices, KeepSlice(ServiceKeys(c)), SlicePiece(c), SlicePiece(Prune(c)));
    forall e | e in c.endpoints
      ensures kept.Restrict(LegacyPiece(c)(e)) == if KeepEndpoints(ServiceKeys(c))(e) then LegacyPiece(Prune(c))(e) else EMPTY_GRAPH
    {
      KeepsEndpoints(c, e);
    }
    RestrictSum(kept, c.endpoints, KeepEndpoints(ServiceKeys(c)), LegacyPiece(c), LegacyPiece(Prune(c)));
    RestrictPlus(kept, Sum(c.services, SelectPiece(c)), Sum(c.slices, SlicePiece(c)));
    RestrictPlus(kept, Sum(c.services, SelectPiece(c)).Plus(Sum(c.slices, SlicePiece(c))), Sum(c.endpoints, LegacyPiece(c)));
  }

  /** Pruning before the build is the same as dropping nodes and edges after
      it: no diagnosis, controller or endpoint of the kept part changes. */
  lemma PrunedBuildIsRestriction(c: Cluster)
    requires WellFormed(c)
    ensures Build(Prune(c)) == KeptBy(c).Restrict(Build(c))
  {
    var kept := KeptBy(c);
    KeepsControllers(c);
    KeepsWorkloads(c);
    KeepsExposure(c);
    KeepsTraffic(c);
    KeepsBackendSection(c);
    var a, b := ControllerNodes(c), Workloads(c);
    RestrictPlus(kept, a, b);
    RestrictPlus(kept, a.Plus(b), Exposure(c));
    RestrictPlus(kept, a.Plus(b).Plus(Exposure(c)), Traffic(c));
    RestrictPlus(kept, a.Plus(b).Plus(Exposure(c)).Plus(Traffic(c)), Backends(c));
  }
}
