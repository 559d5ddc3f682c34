/** Which edges join a kept node and a dropped one: Pods hosted by a kept
    machine, and kept Pods behind a dropped Service. The search follows neither. */
module EdgeShapes {
  import opened Collections
  import opened Kube
  import opened NodeIDs
  import opened EndpointModel
  import opened Topology
  import opened Builder
  import opened Pruning
  import opened PrunedIndexes
  import opened PrunedGraph
  import opened PrunedTraffic
  import opened PrunedBackends

  ghost predicate Guarded(kept: Kept, e: Edge) {
    && (kept.Keeps(e.source) && !kept.Keeps(e.target) ==> e.source.MachineID?)
    && (kept.Keeps(e.target) && !kept.Keeps(e.source) ==> e.target.PodID? && e.kind != Hosts)
  }

  ghost predicate AllGuarded(kept: Kept, g: Graph) {
    forall e :: e in g.edges ==> Guarded(kept, e)
  }

  lemma WithinGuarded(kept: Kept, g: Graph)
    requires kept.Within(g)
    ensures AllGuarded(kept, g)
  {
  }

  lemma SumGuarded<T>(kept: Kept, xs: seq<T>, piece: T -> Graph)
    requires forall x :: x in xs ==> AllGuarded(kept, piece(x))
    ensures AllGuarded(kept, Sum(xs, piece))
  {
    forall e | e in Sum(xs, piece).edges ensures Guarded(kept, e) {
      var x := SumEdge(xs, piece, e);
    }
  }

  lemma PlusGuarded(kept: Kept, a: Graph, b: Graph)
    requires AllGuarded(kept, a) && AllGuarded(kept, b)
    ensures AllGuarded(kept, a.Plus(b))
  {
  }

  lemma PodGuarded(c: Cluster, pod: Pod)
    requires WellFormed(c) && pod in c.pods
    ensures AllGuarded(KeptBy(c), PodPiece(c)(pod))
  {
    KeptPodKeys(c, pod);
    if pod.key in KeptBy(c).pods && pod.nodeName != "" {
      KeptMachine(c, pod);
    }
    HostGuarded(KeptBy(c), c, pod);
  }

  lemma HostGuarded(kept: Kept, c: Cluster, pod: Pod)
    requires pod.key in kept.pods && pod.nodeName != "" ==> pod.nodeName in kept.machines
    ensures AllGuarded(kept, PodPiece(c)(pod))
  {
    assert forall e :: e in PodPiece(c)(pod).edges ==> e == Edge(MachineID(pod.nodeName), PodID(pod.key), Hosts) && pod.nodeName != "";
  }

  lemma ServiceGuarded(kept: Kept, s: Service)
    ensures AllGuarded(kept, ServicePiece(s))
  {
    assert forall e :: e in ServicePiece(s).edges ==> e == Edge(ServiceID(s.key), ExternalNameID(s.key), ExternalNameEdge);
  }

  lemma WorkloadsGuarded(c: Cluster)
    requires WellFormed(c)
    ensures AllGuarded(KeptBy(c), Workloads(c))
  {
    var kept := KeptBy(c);
    SumGuarded(kept, c.machines, MachinePiece);
    forall pod | pod in c.pods ensures AllGuarded(kept, PodPiece(c)(pod)) {
      PodGuarded(c, pod);
    }
    SumGuarded(kept, c.pods, PodPiece(c));
    forall s | s in c.services ensures AllGuarded(kept, ServicePiece(s)) {
      ServiceGuarded(kept, s);
    }
    SumGuarded(kept, c.services, ServicePiece);
    PlusGuarded(kept, Sum(c.machines, MachinePiece), Sum(c.pods, PodPiece(c)));
    PlusGuarded(kept, Sum(c.machines, MachinePiece).Plus(Sum(c.pods, PodPiece(c))), Sum(c.services, ServicePiece));
  }

  lemma ControllersGuarded(kept: Kept, c: Cluster)
    ensures AllGuarded(kept, ControllerNodes(c))
  {
    SumGuarded(kept, c.classes, ClassPiece);
    SumGuarded(kept, AnnotationNames(c), AnnotationPiece);
    PlusGuarded(kept, Sum(c.classes, ClassPiece), Sum(AnnotationNames(c), AnnotationPiece));
  }

  lemma ExposureGuarded(c: Cluster)
    ensures AllGuarded(KeptBy(c), Exposure(c))
  {
    var kept := KeptBy(c);
    SumGuarded(kept, c.ingresses, StatusPiece(c));
    forall s | s in c.services ensures AllGuarded(kept, ExposurePiece(c)(s)) {
      if s.Exposed() {
        KeepsExposed(c, s);
        WithinGuarded(kept, ExposurePiece(c)(s));
      }
    }
    SumGuarded(kept, c.services, ExposurePiece(c));
    PlusGuarded(kept, Sum(c.ingresses, StatusPiece(c)), Sum(c.services, ExposurePiece(c)));
  }

  lemma TrafficGuarded(c: Cluster)
    requires WellFormed(c)
    ensures AllGuarded(KeptBy(c), Traffic(c))
  {
    var kept := KeptBy(c);
    forall i | i in c.ingresses ensures AllGuarded(kept, IngressPiece(c)(i)) {
      KeepsIngress(c, i);
      WithinGuarded(kept, IngressPiece(c)(i));
    }
    SumGuarded(kept, c.ingresses, IngressPiece(c));
    forall r | r in c.external ensures AllGuarded(kept, ExternalPiece(c)(r)) {
      KeepsExternal(c, r);
      WithinGuarded(kept, ExternalPiece(c)(r));
    }
    SumGuarded(kept, c.external, ExternalPiece(c));
    PlusGuarded(kept, Sum(c.ingresses, IngressPiece(c)), Sum(c.external, ExternalPiece(c)));
  }

  /** Edges from a dropped Service lead to Pods or to its own endpoints. */
  lemma DroppedFanGuarded(kept: Kept, service: Key, pods: set<Key>, kind: EdgeKind, text: string)
    requires service !in kept.services && kind != Hosts
    ensures AllGuarded(kept, Fan(ServiceID(service), PodIDs(pods), kind, text))
  {
  }

  lemma OutsideEndpointsGuarded(kept: Kept, service: Key, g: Graph)
    requires service !in kept.services
    requires forall e :: e in g.edges ==> e.source == ServiceID(service) && !kept.Keeps(e.target)
    ensures AllGuarded(kept, g)
  {
  }

  lemma SelectGuarded(c: Cluster, s: Service)
    requires s in c.services
    ensures AllGuarded(KeptBy(c), SelectPiece(c)(s))
  {
    var kept := KeptBy(c);
    if s.key in ServiceKeys(c) {
      SameSelectedPods(c, s);
      FilterMember(Prune(c).pods, SelectedBy(s));
      PodFanWithin(kept, s.key, PodKeys(SelectedPods(Prune(c).pods, s)), Selects, "Selector");
      WithinGuarded(kept, SelectPiece(c)(s));
    } else {
      DroppedFanGuarded(kept, s.key, PodKeys(SelectedPods(c.pods, s)), Selects, "Selector");
    }
  }

  lemma SliceEndpointTargets(kept: Kept, c: Cluster, s: EndpointSlice, service: Key)
    requires service !in kept.services
    ensures AllGuarded(kept, Sum(s.endpoints, SliceEndpointPiece(c, s, service)))
  {
    forall e | e in s.endpoints ensures AllGuarded(kept, SliceEndpointPiece(c, s, service)(e)) {
      forall a | a in e.addresses ensures AllGuarded(kept, SliceAddressPiece(c, s, e, service)(a)) {
        var piece := SliceAddressPiece(c, s, e, service)(a);
        assert forall x :: x in piece.edges ==> x.source == ServiceID(service) && x.target.SliceEndpointID? && x.target.service == service;
        OutsideEndpointsGuarded(kept, service, piece);
      }
      SumGuarded(kept, e.addresses, SliceAddressPiece(c, s, e, service));
    }
    SumGuarded(kept, s.endpoints, SliceEndpointPiece(c, s, service));
  }

  lemma SliceGuarded(c: Cluster, s: EndpointSlice)
    requires s in c.slices
    ensures AllGuarded(KeptBy(c), SlicePiece(c)(s))
  {
    var kept := KeptBy(c);
    if KeepSlice(ServiceKeys(c))(s) {
      KeepsKeptSlice(c, s);
      WithinGuarded(kept, SlicePiece(c)(s));
    } else if SliceService(s).Some? {
      var service := SliceService(s).value;
      var pods := SlicePods(s, IndexPods(c.pods));
      DroppedFanGuarded(kept, service, pods, SliceEdge, "EndpointSlice");
      SliceEndpointTargets(kept, c, s, service);
      PlusGuarded(kept, Fan(ServiceID(service), PodIDs(pods), SliceEdge, "EndpointSlice"),
                  Sum(s.endpoints, SliceEndpointPiece(c, s, service)));
    }
  }

  lemma LegacyTargets(kept: Kept, c: Cluster, e: Endpoints)
    requires e.key !in kept.services
    ensures AllGuarded(kept, Sum(LegacyAddresses(e), LegacyAddressPiece(c, e)))
  {
    forall a | a in LegacyAddresses(e) ensures AllGuarded(kept, LegacyAddressPiece(c, e)(a)) {
      var piece := LegacyAddressPiece(c, e)(a);
      assert forall x :: x in piece.edges ==> x.source == ServiceID(e.key) && x.target.LegacyEndpointID? && x.target.service == e.key;
      OutsideEndpointsGuarded(kept, e.key, piece);
    }
    SumGuarded(kept, LegacyAddresses(e), LegacyAddressPiece(c, e));
  }

  lemma DroppedLegacyGuarded(kept: Kept, c: Cluster, e: Endpoints)
    requires e.key !in kept.services
    ensures AllGuarded(kept, LegacyPiece(c)(e))
  {
    var pods := LegacyPods(e, IndexPods(c.pods));
    DroppedFanGuarded(kept, e.key, pods, EndpointEdge, "Endpoints");
    LegacyTargets(kept, c, e);
    PlusGuarded(kept, Fan(ServiceID(e.key), PodIDs(pods), EndpointEdge, "Endpoints"),
                Sum(LegacyAddresses(e), LegacyAddressPiece(c, e)));
  }

  lemma LegacyGuarded(c: Cluster, e: Endpoints)
    requires e in c.endpoints
    ensures AllGuarded(KeptBy(c), LegacyPiece(c)(e))
  {
    if e.key in ServiceKeys(c) {
      KeepsKeptEndpoints(c, e);
      WithinGuarded(KeptBy(c), LegacyPiece(c)(e));
    } else {
      DroppedLegacyGuarded(KeptBy(c), c, e);
    }
  }

  lemma BackendsGuarded(c: Cluster)
    ensures AllGuarded(KeptBy(c), Backends(c))
  {
    var kept := KeptBy(c);
    forall s | s in c.services ensures AllGuarded(kept, SelectPiece(c)(s)) {
      SelectGuarded(c, s);
    }
    SumGuarded(kept, c.services, SelectPiece(c));
    forall s | s in c.slices ensures AllGuarded(kept, SlicePiece(c)(s)) {
      SliceGuarded(c, s);
    }
    SumGuarded(kept, c.slices, SlicePiece(c));
    forall e | e in c.endpoints ensures AllGuarded(kept, LegacyPiece(c)(e)) {
      LegacyGuarded(c, e);
    }
    SumGuarded(kept, c.endpoints, LegacyPiece(c));
    PlusGuarded(kept, Sum(c.services, SelectPiece(c)), Sum(c.slices, SlicePiece(c)));
    PlusGuarded(kept, Sum(c.services, SelectPiece(c)).Plus(Sum(c.slices, SlicePiece(c))), Sum(c.endpoints, LegacyPiece(c)));
  }

  lemma BuildGuarded(c: Cluster)
    requires WellFormed(c)
    ensures AllGuarded(KeptBy(c), Build(c))
  {
    var kept := KeptBy(c);
    ControllersGuarded(kept, c);
    WorkloadsGuarded(c);
    ExposureGuarded(c);
    TrafficGuarded(c);
    BackendsGuarded(c);
    var a, b := ControllerNodes(c), Workloads(c);
    PlusGuarded(kept, a, b);
    PlusGuarded(kept, a.Plus(b), Exposure(c));
    PlusGuarded(kept, a.Plus(b).Plus(Exposure(c)), Traffic(c));
    PlusGuarded(kept, a.Plus(b).Plus(Exposure(c)).Plus(Traffic(c)), Backends(c));
  }
}
