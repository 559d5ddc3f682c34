/** Building from the pruned inputs gives exactly the kept part of the graph
    built from the whole cluster. */
module PrunedGraph {
  import opened Collections
  import opened Kube
  import opened NodeIDs
  import opened EndpointModel
  import opened ControllerModel
  import opened Overlaps
  import opened Diagnosis
  import opened Topology
  import opened Builder
  import opened Pruning
  import opened PrunedIndexes

  lemma WithinRestrict(kept: Kept, g: Graph)
    requires kept.Within(g)
    ensures kept.Restrict(g) == g
  {
    assert kept.Restrict(g).nodes == g.nodes;
    assert kept.Restrict(g).edges == g.edges;
  }

  lemma OutsideRestrict(kept: Kept, g: Graph)
    requires kept.Outside(g)
    ensures kept.Restrict(g) == EMPTY_GRAPH
  {
    assert kept.Restrict(g).nodes == map[];
    assert kept.Restrict(g).edges == map[];
  }

  lemma WithinSum<T>(kept: Kept, xs: seq<T>, piece: T -> Graph)
    requires forall x :: x in xs ==> kept.Within(piece(x))
    ensures kept.Within(Sum(xs, piece))
  {
    forall id | id in Sum(xs, piece).nodes ensures kept.Keeps(id) {
      var x := SumNode(xs, piece, id);
    }
    forall e | e in Sum(xs, piece).edges ensures kept.KeepsEdge(e) {
      var x := SumEdge(xs, piece, e);
    }
  }

  lemma OutsideSum<T>(kept: Kept, xs: seq<T>, piece: T -> Graph)
    requires forall x :: x in xs ==> kept.Outside(piece(x))
    ensures kept.Outside(Sum(xs, piece))
  {
    forall id | id in Sum(xs, piece).nodes ensures !kept.Keeps(id) {
      var x := SumNode(xs, piece, id);
    }
    forall e | e in Sum(xs, piece).edges ensures !kept.KeepsEdge(e) {
      var x := SumEdge(xs, piece, e);
    }
  }

  lemma {:induction false} SumSame<T>(xs: seq<T>, a: T -> Graph, b: T -> Graph)
    requires forall x :: x in xs ==> a(x) == b(x)
    ensures Sum(xs, a) == Sum(xs, b)
  {
    if xs != [] {
      SumSame(xs[..|xs| - 1], a, b);
    }
  }

  // ---- controllers and workloads ----

  lemma KeepsControllers(c: Cluster)
    ensures KeptBy(c).Restrict(ControllerNodes(c)) == ControllerNodes(Prune(c))
  {
    var kept := KeptBy(c);
    WithinSum(kept, c.classes, ClassPiece);
    WithinSum(kept, AnnotationNames(c), AnnotationPiece);
    WithinRestrict(kept, ControllerNodes(c));
  }

  lemma KeepsMachines(c: Cluster)
    ensures KeptBy(c).Restrict(Sum(c.machines, MachinePiece)) == Sum(Prune(c).machines, MachinePiece)
  {
    RestrictSum(KeptBy(c), c.machines, KeepMachine(KeptBy(c).machines), MachinePiece, MachinePiece);
  }

  lemma KeptPodKeys(c: Cluster, pod: Pod)
    requires WellFormed(c) && pod in c.pods
    ensures pod.key in KeptBy(c).pods <==> KeepPod(ScopedRefs(c, ServiceKeys(c)))(pod)
    ensures pod.key in KeptBy(c).pods <==> pod in Prune(c).pods
  {
    FilterMember(c.pods, KeepPod(ScopedRefs(c, ServiceKeys(c))));
  }

  lemma KeptMachine(c: Cluster, pod: Pod)
    requires pod in Prune(c).pods && pod.nodeName != ""
    ensures pod.nodeName in KeptBy(c).machines
    ensures pod.nodeName in MachineNames(Prune(c)) <==> pod.nodeName in MachineNames(c)
  {
    CollectMember(c.machines, MachineName);
    CollectMember(Prune(c).machines, MachineName);
    CollectMember(Prune(c).pods, PodMachine);
    assert pod.nodeName in PodMachine(pod);
    FilterMember(c.machines, KeepMachine(KeptBy(c).machines));
  }

  lemma RestrictPod(kept: Kept, full: Cluster, pruned: Cluster, pod: Pod)
    requires pod.key in kept.pods && pod.nodeName != "" ==>
               pod.nodeName in kept.machines && (pod.nodeName in MachineNames(pruned) <==> pod.nodeName in MachineNames(full))
    ensures kept.Restrict(PodPiece(full)(pod)) == if pod.key in kept.pods then PodPiece(pruned)(pod) else EMPTY_GRAPH
  {
    var piece := PodPiece(full)(pod);
    assert piece.nodes.Keys == {PodID(pod.key)};
    assert forall e :: e in piece.edges ==> e == Edge(MachineID(pod.nodeName), PodID(pod.key), Hosts) && pod.nodeName != "";
    if pod.key in kept.pods {
      WithinRestrict(kept, piece);
    } else {
      OutsideRestrict(kept, piece);
    }
  }

  lemma KeepsPod(c: Cluster, pod: Pod)
    requires WellFormed(c) && pod in c.pods
    ensures KeptBy(c).Restrict(PodPiece(c)(pod)) ==
            if KeepPod(ScopedRefs(c, ServiceKeys(c)))(pod) then PodPiece(Prune(c))(pod) else EMPTY_GRAPH
  {
    KeptPodKeys(c, pod);
    if pod.key in KeptBy(c).pods && pod.nodeName != "" {
      KeptMachine(c, pod);
    }
    RestrictPod(KeptBy(c), c, Prune(c), pod);
  }

  lemma KeepsPods(c: Cluster)
    requires WellFormed(c)
    ensures KeptBy(c).Restrict(Sum(c.pods, PodPiece(c))) == Sum(Prune(c).pods, PodPiece(Prune(c)))
  {
    forall pod | pod in c.pods
      ensures KeptBy(c).Restrict(PodPiece(c)(pod)) ==
              if KeepPod(ScopedRefs(c, ServiceKeys(c)))(pod) then PodPiece(Prune(c))(pod) else EMPTY_GRAPH
    {
      KeepsPod(c, pod);
    }
    RestrictSum(KeptBy(c), c.pods, KeepPod(ScopedRefs(c, ServiceKeys(c))), PodPiece(c), PodPiece(Prune(c)));
  }

  lemma RestrictService(kept: Kept, s: Service)
    ensures kept.Restrict(ServicePiece(s)) == if s.key in kept.services then ServicePiece(s) else EMPTY_GRAPH
  {
    var piece := ServicePiece(s);
    assert forall id :: id in piece.nodes ==> id == ServiceID(s.key) || id == ExternalNameID(s.key);
    assert forall e :: e in piece.edges ==> e == Edge(ServiceID(s.key), ExternalNameID(s.key), ExternalNameEdge);
    if s.key in kept.services {
      WithinRestrict(kept, piece);
    } else {
      OutsideRestrict(kept, piece);
    }
  }

  lemma KeepsServices(c: Cluster)
    ensures KeptBy(c).Restrict(Sum(c.services, ServicePiece)) == Sum(Prune(c).services, ServicePiece)
  {
    forall s | s in c.services
      ensures KeptBy(c).Restrict(ServicePiece(s)) == if KeepService(ServiceKeys(c))(s) then ServicePiece(s) else EMPTY_GRAPH
    {
      RestrictService(KeptBy(c), s);
    }
    RestrictSum(KeptBy(c), c.services, KeepService(ServiceKeys(c)), ServicePiece, ServicePiece);
  }

  lemma KeepsWorkloads(c: Cluster)
    requires WellFormed(c)
    ensures KeptBy(c).Restrict(Workloads(c)) == Workloads(Prune(c))
  {
    KeepsMachines(c);
    KeepsPods(c);
    KeepsServices(c);
    RestrictPlus(KeptBy(c), Sum(c.machines, MachinePiece), Sum(c.pods, PodPiece(c)));
    RestrictPlus(KeptBy(c), Sum(c.machines, MachinePiece).Plus(Sum(c.pods, PodPiece(c))), Sum(c.services, ServicePiece));
  }

  // ---- controller inference and exposed Services ----

  lemma ExposedKept(c: Cluster, s: Service)
    requires s in c.services && s.Exposed()
    ensures s.key in ServiceKeys(c) && s in Prune(c).services
  {
    CollectMember(c.services, ExposedKey);
    assert s.key in ExposedKey(s);
    FilterMember(c.services, KeepService(ServiceKeys(c)));
  }

  lemma SameServiceClass(c: Cluster, s: Service)
    requires s in c.services && s.Exposed()
    ensures ServiceClass(Prune(c), s) == ServiceClass(c, s)
  {
    ExposedKept(c, s);
    SameServicePods(c, s.key);
  }

  lemma SameStatusService(c: Cluster, i: Ingress)
    ensures StatusService(i, Prune(c).services) == StatusService(i, c.services)
    ensures StatusService(i, c.services).Some? ==>
              StatusService(i, c.services).value in c.services && StatusService(i, c.services).value.Exposed()
  {
    FilterMember(c.services, KeepService(ServiceKeys(c)));
    forall s | s in c.services && s.Exposed() ensures s in Prune(c).services {
      ExposedKept(c, s);
    }
    assert StatusCandidates(i, Prune(c).services) == StatusCandidates(i, c.services);
    var r := StatusService(i, c.services);
    if r.Some? {
      assert r.value in StatusCandidates(i, c.services);
    }
  }

  lemma SameController(c: Cluster, i: Ingress)
    ensures StatusController(Prune(c), i) == StatusController(c, i)
    ensures ControllerOf(Prune(c), i) == ControllerOf(c, i)
  {
    SameStatusService(c, i);
    match StatusService(i, c.services)
    case Some(s) => SameServiceClass(c, s);
    case None =>
  }

  lemma SameOwned(c: Cluster, k: Key)
    ensures OwnedByStatus(Prune(c), k) == OwnedByStatus(c, k)
  {
    forall i ensures StatusController(Prune(c), i) == StatusController(c, i) {
      SameController(c, i);
    }
  }

  lemma KeepsStatus(c: Cluster)
    ensures KeptBy(c).Restrict(Sum(c.ingresses, StatusPiece(c))) == Sum(c.ingresses, StatusPiece(Prune(c)))
  {
    forall i | i in c.ingresses ensures KeptBy(c).Restrict(StatusPiece(c)(i)) == StatusPiece(Prune(c))(i) {
      SameController(c, i);
      WithinRestrict(KeptBy(c), StatusPiece(c)(i));
    }
    RestrictAll(KeptBy(c), c.ingresses, StatusPiece(c), StatusPiece(Prune(c)));
  }

  lemma SameExposureTarget(c: Cluster, s: Service)
    requires s in c.services && s.Exposed()
    ensures ExposureTarget(Prune(c), s) == ExposureTarget(c, s)
    ensures KeptBy(c).Keeps(ExposureTarget(c, s))
  {
    ExposedKept(c, s);
    SameServiceClass(c, s);
    SameOwned(c, s.key);
  }

  lemma WithinPlus(kept: Kept, a: Graph, b: Graph)
    requires kept.Within(a) && kept.Within(b)
    ensures kept.Within(a.Plus(b))
  {
  }

  lemma WithinPort(kept: Kept, c: Cluster, s: Service, port: ServicePort, target: NodeID)
    requires target == ExposureTarget(c, s) && kept.Keeps(target)
    ensures kept.Within(PortPiece(c, s)(port))
  {
    if port.nodePort != 0 {
      var id := NodePortID(s.key, port.NameForID());
      var self := OneNode(id, NodePortInfo(s, port));
      var exposes := if s.kind == LoadBalancer then OneEdge(ServiceLBID(s.key), id, Exposes, "LoadBalancer") else EMPTY_GRAPH;
      var forwards := OneEdge(id, target, Forwards, "NodePort");
      WithinPlus(kept, self, exposes);
      WithinPlus(kept, self.Plus(exposes), forwards);
      assert PortPiece(c, s)(port) == self.Plus(exposes).Plus(forwards);
    }
  }

  lemma SamePort(c: Cluster, d: Cluster, s: Service, port: ServicePort)
    requires ExposureTarget(c, s) == ExposureTarget(d, s)
    ensures PortPiece(c, s)(port) == PortPiece(d, s)(port)
  {
  }

  lemma KeepsPort(c: Cluster, s: Service, port: ServicePort)
    requires s in c.services && s.Exposed()
    ensures PortPiece(c, s)(port) == PortPiece(Prune(c), s)(port)
    ensures KeptBy(c).Within(PortPiece(c, s)(port))
  {
    SameExposureTarget(c, s);
    SamePort(c, Prune(c), s, port);
    WithinPort(KeptBy(c), c, s, port, ExposureTarget(c, s));
  }

  lemma KeepsPorts(c: Cluster, s: Service)
    requires s in c.services && s.Exposed()
    ensures Sum(s.ports, PortPiece(c, s)) == Sum(s.ports, PortPiece(Prune(c), s))
    ensures KeptBy(c).Within(Sum(s.ports, PortPiece(c, s)))
  {
    forall port | port in s.ports
      ensures PortPiece(c, s)(port) == PortPiece(Prune(c), s)(port) && KeptBy(c).Within(PortPiece(c, s)(port))
    {
      KeepsPort(c, s, port);
    }
    SumSame(s.ports, PortPiece(c, s), PortPiece(Prune(c), s));
    WithinSum(KeptBy(c), s.ports, PortPiece(c, s));
  }

  lemma WithinExposure(kept: Kept, c: Cluster, s: Service, target: NodeID)
    requires s.Exposed() && kept.Within(Sum(s.ports, PortPiece(c, s)))
    requires kept.Keeps(ServiceLBID(s.key)) && target == ExposureTarget(c, s) && kept.Keeps(target)
    ensures kept.Within(ExposurePiece(c)(s))
  {
    if s.kind == LoadBalancer {
      var self, ports := OneNode(ServiceLBID(s.key), ServiceLBInfo(s)), Sum(s.ports, PortPiece(c, s));
      var balances := if HasNodePort(s) then EMPTY_GRAPH else OneEdge(ServiceLBID(s.key), target, Balances, "LoadBalancer");
      WithinPlus(kept, self, ports);
      WithinPlus(kept, self.Plus(ports), balances);
      assert ExposurePiece(c)(s) == self.Plus(ports).Plus(balances);
    }
  }

  lemma SameExposure(c: Cluster, d: Cluster, s: Service)
    requires Sum(s.ports, PortPiece(c, s)) == Sum(s.ports, PortPiece(d, s)) && ExposureTarget(c, s) == ExposureTarget(d, s)
    ensures ExposurePiece(c)(s) == ExposurePiece(d)(s)
  {
  }

  lemma KeepsExposed(c: Cluster, s: Service)
    requires s in c.services && s.Exposed()
    ensures ExposurePiece(c)(s) == ExposurePiece(Prune(c))(s)
    ensures KeptBy(c).Within(ExposurePiece(c)(s))
  {
    var kept, d, target := KeptBy(c), Prune(c), ExposureTarget(c, s);
    SameExposureTarget(c, s);
    KeepsPorts(c, s);
    SameExposure(c, d, s);
    WithinExposure(kept, c, s, target);
  }

  lemma KeepsExposure(c: Cluster)
    ensures KeptBy(c).Restrict(Exposure(c)) == Exposure(Prune(c))
  {
    KeepsStatus(c);
    forall s | s in c.services
      ensures KeptBy(c).Restrict(ExposurePiece(c)(s)) ==
              if KeepService(ServiceKeys(c))(s) then ExposurePiece(Prune(c))(s) else EMPTY_GRAPH
    {
      if s.Exposed() {
        ExposedKept(c, s);
        KeepsExposed(c, s);
        WithinRestrict(KeptBy(c), ExposurePiece(c)(s));
      }
    }
    RestrictSum(KeptBy(c), c.services, KeepService(ServiceKeys(c)), ExposurePiece(c), ExposurePiece(Prune(c)));
    RestrictPlus(KeptBy(c), Sum(c.ingresses, StatusPiece(c)), Sum(c.services, ExposurePiece(c)));
  }
}
