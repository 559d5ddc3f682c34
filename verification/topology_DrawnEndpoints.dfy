/** Endpoint addresses of Services without a selector: each one is drawn once,
    as a Pod or as an endpoint. */
module DrawnEndpoints {
  import opened Collections
  import opened Kube
  import opened NodeIDs
  import opened EndpointModel
  import opened Overlaps
  import opened Topology
  import opened Builder
  import ControllerModel
  import Text

  // ---- one edge per address ----

  /** The edge an address of a slice stands for. */
  function AddressEdge(c: Cluster, s: EndpointSlice, e: SliceEndpoint, service: Key, a: string): Edge {
    match ResolvePod(e.target, s.namespace, a, IndexPods(c.pods))
    case Some(pod) => Edge(ServiceID(service), PodID(pod.key), SliceEdge)
    case None => Edge(ServiceID(service), SliceEndpointID(service, s.name, Text.SafeID(a)), SliceEdge)
  }

  function LegacyEdge(c: Cluster, e: Endpoints, a: LegacyAddress): Edge {
    match ResolvePod(a.address.target, e.key.namespace, a.address.ip, IndexPods(c.pods))
    case Some(pod) => Edge(ServiceID(e.key), PodID(pod.key), EndpointEdge)
    case None => Edge(ServiceID(e.key), LegacyEndpointID(e.key, Text.SafeID(a.address.ip)), EndpointEdge)
  }

  lemma SlicePodMember(s: EndpointSlice, index: PodIndex, k: Key)
    ensures k in SlicePods(s, index) <==>
            exists e, a :: e in s.endpoints && a in e.addresses && k in PodSet(ResolvePod(e.target, s.namespace, a, index))
  {
    CollectMember(s.endpoints, EndpointPods(s.namespace, index));
    forall e | e in s.endpoints
      ensures k in EndpointPods(s.namespace, index)(e) <==>
              exists a :: a in e.addresses && k in PodSet(ResolvePod(e.target, s.namespace, a, index))
    {
      CollectMember(e.addresses, AddressPods(e, s.namespace, index));
      forall a ensures AddressPods(e, s.namespace, index)(a) == PodSet(ResolvePod(e.target, s.namespace, a, index)) {
      }
    }
  }

  lemma SliceEndpointEdge(c: Cluster, s: EndpointSlice, e: SliceEndpoint, service: Key, address: string, edge: Edge)
    requires e in s.endpoints && address in e.addresses && edge in SliceAddressPiece(c, s, e, service)(address).edges
    ensures edge in Sum(s.endpoints, SliceEndpointPiece(c, s, service)).edges
  {
    SumHasEdge(e.addresses, SliceAddressPiece(c, s, e, service), address, edge);
    SumHasEdge(s.endpoints, SliceEndpointPiece(c, s, service), e, edge);
  }

  lemma SliceEndpointEdges(c: Cluster, s: EndpointSlice, service: Key, edge: Edge)
    ensures edge in Sum(s.endpoints, SliceEndpointPiece(c, s, service)).edges <==>
            exists e, a :: e in s.endpoints && a in e.addresses && edge in SliceAddressPiece(c, s, e, service)(a).edges
  {
    if edge in Sum(s.endpoints, SliceEndpointPiece(c, s, service)).edges {
      var e := SumEdge(s.endpoints, SliceEndpointPiece(c, s, service), edge);
      var a := SumEdge(e.addresses, SliceAddressPiece(c, s, e, service), edge);
    }
    forall e, a | e in s.endpoints && a in e.addresses && edge in SliceAddressPiece(c, s, e, service)(a).edges
      ensures edge in Sum(s.endpoints, SliceEndpointPiece(c, s, service)).edges
    {
      SliceEndpointEdge(c, s, e, service, a, edge);
    }
  }

  lemma UnresolvedEdge(c: Cluster, s: EndpointSlice, e: SliceEndpoint, service: Key, a: string, edge: Edge)
    ensures edge in SliceAddressPiece(c, s, e, service)(a).edges <==>
            ResolvePod(e.target, s.namespace, a, IndexPods(c.pods)).None? && edge == AddressEdge(c, s, e, service, a)
  {
  }

  lemma PodFanEdges(source: NodeID, pods: set<Key>, kind: EdgeKind, text: string, edge: Edge)
    ensures edge in Fan(source, PodIDs(pods), kind, text).edges <==>
            edge.source == source && edge.kind == kind && edge.target.PodID? && edge.target.pod in pods
  {
    if edge.source == source && edge.kind == kind && edge.target.PodID? && edge.target.pod in pods {
      assert edge == Edge(source, PodID(edge.target.pod), kind);
    }
  }

  lemma PlusEdges(a: Graph, b: Graph, e: Edge)
    ensures e in a.Plus(b).edges <==> e in a.edges || e in b.edges
  {
  }

  /** The edge is the one this listed address stands for. */
  ghost predicate DrawnFor(c: Cluster, s: EndpointSlice, service: Key, edge: Edge, e: SliceEndpoint, a: string) {
    e in s.endpoints && a in e.addresses && edge == AddressEdge(c, s, e, service, a)
  }

  lemma SlicePodEdges(c: Cluster, s: EndpointSlice, service: Key, edge: Edge)
    ensures edge in Fan(ServiceID(service), PodIDs(SlicePods(s, IndexPods(c.pods))), SliceEdge, "EndpointSlice").edges <==>
            exists e, a :: DrawnFor(c, s, service, edge, e, a) && edge.target.PodID?
  {
    var index := IndexPods(c.pods);
    PodFanEdges(ServiceID(service), SlicePods(s, index), SliceEdge, "EndpointSlice", edge);
    if edge.target.PodID? {
      SlicePodMember(s, index, edge.target.pod);
      forall e, a ensures edge == AddressEdge(c, s, e, service, a) <==>
          edge.source == ServiceID(service) && edge.kind == SliceEdge &&
          edge.target.pod in PodSet(ResolvePod(e.target, s.namespace, a, index))
      {
      }
      if edge.source == ServiceID(service) && edge.kind == SliceEdge && edge.target.pod in SlicePods(s, index) {
        var e, a :| e in s.endpoints && a in e.addresses && edge.target.pod in PodSet(ResolvePod(e.target, s.namespace, a, index));
        assert DrawnFor(c, s, service, edge, e, a);
      }
    }
  }

  lemma SliceExternalEdges(c: Cluster, s: EndpointSlice, service: Key, edge: Edge)
    ensures edge in Sum(s.endpoints, SliceEndpointPiece(c, s, service)).edges <==>
            exists e, a :: DrawnFor(c, s, service, edge, e, a) && !edge.target.PodID?
  {
    SliceEndpointEdges(c, s, service, edge);
    forall e, a ensures edge in SliceAddressPiece(c, s, e, service)(a).edges <==>
        edge == AddressEdge(c, s, e, service, a) && !edge.target.PodID?
    {
      UnresolvedEdge(c, s, e, service, a, edge);
    }
    if edge in Sum(s.endpoints, SliceEndpointPiece(c, s, service)).edges {
      var e, a :| e in s.endpoints && a in e.addresses && edge in SliceAddressPiece(c, s, e, service)(a).edges;
      assert DrawnFor(c, s, service, edge, e, a);
    }
  }

  /** A drawn slice gives exactly one edge for each endpoint address: to the Pod
      the Pod collector returns, or else to an external endpoint. */
  lemma SliceDrawsEachAddressOnce(c: Cluster, s: EndpointSlice, service: Key, edge: Edge)
    requires SliceService(s) == Some(service) && Selectorless(c, service)
    ensures edge in SlicePiece(c)(s).edges <==> exists e, a :: DrawnFor(c, s, service, edge, e, a)
  {
    var pods := Fan(ServiceID(service), PodIDs(SlicePods(s, IndexPods(c.pods))), SliceEdge, "EndpointSlice");
    var external := Sum(s.endpoints, SliceEndpointPiece(c, s, service));
    PlusEdges(pods, external, edge);
    SlicePodEdges(c, s, service, edge);
    SliceExternalEdges(c, s, service, edge);
  }

  lemma LegacyPodEdges(c: Cluster, e: Endpoints, edge: Edge)
    ensures edge in Fan(ServiceID(e.key), PodIDs(LegacyPods(e, IndexPods(c.pods))), EndpointEdge, "Endpoints").edges <==>
            exists a :: a in LegacyAddresses(e) && edge == LegacyEdge(c, e, a) && edge.target.PodID?
  {
    var resolved := LegacyAddressPods(e.key.namespace, IndexPods(c.pods));
    PodFanEdges(ServiceID(e.key), LegacyPods(e, IndexPods(c.pods)), EndpointEdge, "Endpoints", edge);
    CollectMember(LegacyAddresses(e), resolved);
    if edge.target.PodID? {
      forall a ensures edge == LegacyEdge(c, e, a) <==>
          edge.source == ServiceID(e.key) && edge.kind == EndpointEdge && edge.target.pod in resolved(a)
      {
      }
    }
  }

  lemma LegacyExternalEdges(c: Cluster, e: Endpoints, edge: Edge)
    ensures edge in Sum(LegacyAddresses(e), LegacyAddressPiece(c, e)).edges <==>
            exists a :: a in LegacyAddresses(e) && edge == LegacyEdge(c, e, a) && !edge.target.PodID?
  {
    var addresses, piece := LegacyAddresses(e), LegacyAddressPiece(c, e);
    forall a ensures edge in piece(a).edges <==> edge == LegacyEdge(c, e, a) && !edge.target.PodID? {
    }
    if edge in Sum(addresses, piece).edges {
      var a := SumEdge(addresses, piece, edge);
    }
    forall a | a in addresses && edge in piece(a).edges ensures edge in Sum(addresses, piece).edges {
      SumHasEdge(addresses, piece, a, edge);
    }
  }

  /** The same for legacy Endpoints of a Service without slices. */
  lemma LegacyDrawsEachAddressOnce(c: Cluster, e: Endpoints, edge: Edge)
    requires Selectorless(c, e.key) && !HasSlice(c.slices, e.key)
    ensures edge in LegacyPiece(c)(e).edges <==> exists a :: a in LegacyAddresses(e) && edge == LegacyEdge(c, e, a)
  {
    PlusEdges(Fan(ServiceID(e.key), PodIDs(LegacyPods(e, IndexPods(c.pods))), EndpointEdge, "Endpoints"),
              Sum(LegacyAddresses(e), LegacyAddressPiece(c, e)), edge);
    LegacyPodEdges(c, e, edge);
    LegacyExternalEdges(c, e, edge);
  }
}
