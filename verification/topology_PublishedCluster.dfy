/** What NorthScope publishes of a cluster, told by the cluster's own objects:
    for every kind of node exactly which ones are shown. */
module PublishedCluster {
  import opened Collections
  import opened Kube
  import opened NodeIDs
  import opened EndpointModel
  import opened Overlaps
  import opened OverlapMembers
  import opened Topology
  import opened Builder
  import opened DrawnEndpoints
  import opened DrawnEdges
  import opened DrawnNodes
  import opened GraphShapes
  import opened Scoping
  import opened ScopedPruning
  import opened PublishedTraffic
  import Text

  // ---- the build and its published nodes ----

  /** The graph is the cluster's build, as far as its nodes and edges go. */
  ghost predicate IsBuild(c: Cluster, g: Graph) {
    && (forall e :: e in g.edges <==> Drawn(c, e))
    && (forall id :: id in g.nodes <==> DrawnNode(c, id))
  }

  ghost predicate GraphClosed(g: Graph, s: set<NodeID>) {
    && (forall id :: RootID(g, id) ==> id in s)
    && (forall a, b :: a in s && GraphStep(g, a, b) ==> b in s)
  }

  /** The set is below every set that holds the roots and is closed. */
  ghost predicate IsLeast(g: Graph, shown: set<NodeID>) {
    forall s :: GraphClosed(g, s) ==> shown <= s
  }

  lemma BuildIs(c: Cluster, g: Graph)
    requires g == Build(c)
    ensures IsBuild(c, g)
  {
    forall e ensures e in g.edges <==> Drawn(c, e) {
      EdgesExactly(c, e);
    }
    forall id ensures id in g.nodes <==> DrawnNode(c, id) {
      NodesExactly(c, id);
    }
  }

  lemma EdgeIsDrawn(c: Cluster, g: Graph, e: Edge)
    requires IsBuild(c, g)
    ensures e in g.edges <==> Drawn(c, e)
  {
  }

  lemma NodeIsDrawn(c: Cluster, g: Graph, id: NodeID)
    requires IsBuild(c, g)
    ensures id in g.nodes <==> DrawnNode(c, id)
  {
  }

  lemma ShownLeast(g: Graph, order: IDOrder)
    ensures IsLeast(g, PublishedNodes(g, order))
  {
    forall s | GraphClosed(g, s) ensures PublishedNodes(g, order) <= s {
      ClosedRendered(g, order, s);
      VisibleIsLeastClosed(Render(g, order));
    }
  }

  lemma ClosedRendered(g: Graph, order: IDOrder, s: set<NodeID>)
    requires GraphClosed(g, s)
    ensures Closed(Render(g, order), s)
  {
    forall n | n in Render(g, order).nodes && Root(n) ensures n.id in s {
      RootsOf(g, order, n.id);
    }
    forall a, b | a in s && Step(Render(g, order), a, b) ensures b in s {
      StepIsGraphStep(g, order, a, b);
    }
  }

  /** A set without roots that no edge enters from outside is not shown. */
  lemma Unreachable(g: Graph, shown: set<NodeID>, hidden: set<NodeID>)
    requires IsShown(g, shown) && IsLeast(g, shown)
    requires forall id :: id in hidden ==> !RootID(g, id)
    requires forall a, b :: a in shown && a !in hidden && GraphStep(g, a, b) ==> b !in hidden
    ensures shown !! hidden
  {
    var rest := shown - hidden;
    forall id | RootID(g, id) ensures id in rest {
      assert Reached(g, shown, id);
    }
    forall a, b | a in rest && GraphStep(g, a, b) ensures b in rest {
      assert Reached(g, shown, b);
    }
    assert GraphClosed(g, rest);
  }

  // ---- who draws an edge of a kind ----

  lemma WorkloadKinds(c: Cluster, e: Edge)
    requires WorkloadDrawn(c, e)
    ensures e.kind in {Hosts, ExternalNameEdge}
  {
  }

  lemma ExposureKinds(c: Cluster, e: Edge)
    requires ExposureDrawn(c, e)
    ensures e.kind in {Exposes, Forwards, Balances} && (e.source.ServiceLBID? || e.source.NodePortID?)
  {
  }

  lemma RouteKind(c: Cluster, i: Ingress, route: Route, e: Edge)
    requires RouteDrawn(c, i, route, e)
    ensures e.kind in {CanaryEdge, Defines, Routes}
  {
  }

  lemma RouteKinds(c: Cluster, i: Ingress, e: Edge)
    requires SomeRouteDrawn(c, i, e)
    ensures e.kind in {CanaryEdge, Defines, Routes}
  {
    var route :| route in IngressRoutes(i) && RouteDrawn(c, i, route, e);
    RouteKind(c, i, route, e);
  }

  lemma IngressKinds(c: Cluster, i: Ingress, e: Edge)
    requires IngressDrawn(c, i, e) && e.kind !in {CanaryEdge, Defines, Routes}
    ensures e.kind in {Resolves, Fronts, Controls} && e.target == IngressID(i.key)
    ensures e.kind == Controls <==> IngressControlled(c, i, e)
  {
    if SomeRouteDrawn(c, i, e) {
      RouteKinds(c, i, e);
    }
  }

  lemma IngressRouteKinds(c: Cluster, i: Ingress, e: Edge)
    requires IngressDrawn(c, i, e) && e.kind in {CanaryEdge, Defines, Routes}
    ensures SomeRouteDrawn(c, i, e)
  {
  }

  lemma ExternalKinds(c: Cluster, r: ExternalResource, e: Edge)
    requires ExternalDrawn(c, r, e)
    ensures e.kind in {Resolves, Fronts, Controls, Attaches, Rejected, Routes, Balances}
    ensures e.kind == Balances ==> r.kind.IsF5() && e.source == ExternalLBID(r.kind, r.key)
    ensures e.kind == Controls ==> r.kind == Gateway && ClassControls(c, r, e)
    ensures e.kind == Routes ==> r.kind.IsRoute()
  {
  }

  lemma BackendsKinds(c: Cluster, e: Edge)
    requires BackendsDrawn(c, e)
    ensures e.kind in {Selects, SliceEdge, EndpointEdge}
  {
    if s, service :| s in c.slices && SliceDrawn(c, s, service, e) {
      SliceTyped(c, s, service, e);
    } else if endpoints :| endpoints in c.endpoints && LegacyDrawn(c, endpoints, e) {
      LegacyTyped(c, endpoints, e);
    }
  }

  lemma TrafficKinds(c: Cluster, e: Edge)
    requires TrafficDrawn(c, e)
    ensures e.kind !in {Hosts, ExternalNameEdge, Exposes, Forwards, Selects, SliceEdge, EndpointEdge}
    ensures e.kind == Balances ==> e.source.ExternalLBID?
  {
    if i :| i in c.ingresses && IngressDrawn(c, i, e) {
      if e.kind !in {CanaryEdge, Defines, Routes} {
        IngressKinds(c, i, e);
      }
    } else {
      var r :| r in c.external && ExternalDrawn(c, r, e);
      ExternalKinds(c, r, e);
    }
  }

  lemma OnlyBackends(c: Cluster, e: Edge)
    requires Drawn(c, e) && e.kind in {Selects, SliceEdge, EndpointEdge}
    ensures BackendsDrawn(c, e)
  {
    if WorkloadDrawn(c, e) {
      WorkloadKinds(c, e);
    } else if ExposureDrawn(c, e) {
      ExposureKinds(c, e);
    } else if TrafficDrawn(c, e) {
      TrafficKinds(c, e);
    }
  }

  lemma OnlyWorkloads(c: Cluster, e: Edge)
    requires Drawn(c, e) && e.kind in {Hosts, ExternalNameEdge}
    ensures WorkloadDrawn(c, e)
  {
    if ExposureDrawn(c, e) {
      ExposureKinds(c, e);
    } else if TrafficDrawn(c, e) {
      TrafficKinds(c, e);
    } else if BackendsDrawn(c, e) {
      BackendsKinds(c, e);
    }
  }

  lemma OnlyExposure(c: Cluster, e: Edge)
    requires Drawn(c, e) && e.kind in {Exposes, Forwards, Balances} && !e.source.ExternalLBID?
    ensures ExposureDrawn(c, e)
  {
    if WorkloadDrawn(c, e) {
      WorkloadKinds(c, e);
    } else if TrafficDrawn(c, e) {
      TrafficKinds(c, e);
    } else if BackendsDrawn(c, e) {
      BackendsKinds(c, e);
    }
  }

  lemma OnlyTraffic(c: Cluster, e: Edge)
    requires Drawn(c, e) && (e.kind in {Controls, CanaryEdge, Routes} || (e.kind == Balances && e.source.ExternalLBID?))
    ensures TrafficDrawn(c, e)
  {
    if WorkloadDrawn(c, e) {
      WorkloadKinds(c, e);
    } else if ExposureDrawn(c, e) {
      ExposureKinds(c, e);
    } else if BackendsDrawn(c, e) {
      BackendsKinds(c, e);
    }
  }

  // ---- Pods ----

  /** A Service of this key selects a Pod of that key. */
  ghost predicate SelectsPod(c: Cluster, service: Key, pod: Key) {
    exists s, p :: s in c.services && s.key == service && p in SelectedPods(c.pods, s) && p.key == pod
  }

  /** The Service has no selector, and its slices, or its legacy Endpoints when
      it has no slices, list the Pod. */
  ghost predicate ListsPod(c: Cluster, service: Key, pod: Key) {
    && Selectorless(c, service)
    && ((exists s :: s in c.slices && SliceListsPod(c, s, service, pod))
        || (!HasSlice(c.slices, service) && exists e :: e in c.endpoints && LegacyListsPod(c, e, service, pod)))
  }

  predicate SliceListsPod(c: Cluster, s: EndpointSlice, service: Key, pod: Key) {
    SliceService(s) == Some(service) && pod in SlicePods(s, IndexPods(c.pods))
  }

  predicate LegacyListsPod(c: Cluster, e: Endpoints, service: Key, pod: Key) {
    e.key == service && pod in LegacyPods(e, IndexPods(c.pods))
  }

  lemma SelectsEdge(c: Cluster, service: Key, pod: Key)
    ensures BackendsDrawn(c, Edge(ServiceID(service), PodID(pod), Selects)) <==> SelectsPod(c, service, pod)
  {
    var e := Edge(ServiceID(service), PodID(pod), Selects);
    if BackendsDrawn(c, e) {
      SelectsOnly(c, e);
      var s, p :| s in c.services && Selected(c, s, p, e);
    }
    if s, p :| s in c.services && s.key == service && p in SelectedPods(c.pods, s) && p.key == pod {
      assert Selected(c, s, p, e);
    }
  }

  lemma SelectsOnly(c: Cluster, e: Edge)
    requires BackendsDrawn(c, e) && e.kind == Selects
    ensures exists s, pod :: s in c.services && Selected(c, s, pod, e)
  {
    if s, service :| s in c.slices && SliceDrawn(c, s, service, e) {
      SliceTyped(c, s, service, e);
    } else if endpoints :| endpoints in c.endpoints && LegacyDrawn(c, endpoints, e) {
      LegacyTyped(c, endpoints, e);
    }
  }

  lemma SliceEdgePod(c: Cluster, s: EndpointSlice, service: Key, pod: Key)
    requires Selectorless(c, service)
    ensures SliceDrawn(c, s, service, Edge(ServiceID(service), PodID(pod), SliceEdge)) <==> SliceListsPod(c, s, service, pod)
  {
    var edge := Edge(ServiceID(service), PodID(pod), SliceEdge);
    SlicePodEdges(c, s, service, edge);
    PodFanEdges(ServiceID(service), SlicePods(s, IndexPods(c.pods)), SliceEdge, "EndpointSlice", edge);
  }

  lemma LegacyEdgePod(c: Cluster, e: Endpoints, pod: Key)
    requires Selectorless(c, e.key) && !HasSlice(c.slices, e.key)
    ensures LegacyDrawn(c, e, Edge(ServiceID(e.key), PodID(pod), EndpointEdge)) <==> LegacyListsPod(c, e, e.key, pod)
  {
    var edge := Edge(ServiceID(e.key), PodID(pod), EndpointEdge);
    LegacyPodEdges(c, e, edge);
    PodFanEdges(ServiceID(e.key), LegacyPods(e, IndexPods(c.pods)), EndpointEdge, "Endpoints", edge);
  }

  lemma SliceOnly(c: Cluster, service: Key, e: Edge)
    requires BackendsDrawn(c, e) && e.kind == SliceEdge && e.source == ServiceID(service)
    ensures exists s :: s in c.slices && SliceDrawn(c, s, service, e)
  {
    if endpoints :| endpoints in c.endpoints && LegacyDrawn(c, endpoints, e) {
      LegacyTyped(c, endpoints, e);
    } else if s, other :| s in c.slices && SliceDrawn(c, s, other, e) {
      SliceTyped(c, s, other, e);
    }
  }

  lemma LegacyOnly(c: Cluster, service: Key, e: Edge)
    requires BackendsDrawn(c, e) && e.kind == EndpointEdge && e.source == ServiceID(service)
    ensures exists endpoints :: endpoints in c.endpoints && LegacyDrawn(c, endpoints, e) && endpoints.key == service
  {
    if endpoints :| endpoints in c.endpoints && LegacyDrawn(c, endpoints, e) {
      LegacyTyped(c, endpoints, e);
    } else if s, other :| s in c.slices && SliceDrawn(c, s, other, e) {
      SliceTyped(c, s, other, e);
    }
  }

  ghost predicate DrawsTo(c: Cluster, service: Key, pod: Key, kind: EdgeKind) {
    BackendsDrawn(c, Edge(ServiceID(service), PodID(pod), kind))
  }

  lemma ListsEdge(c: Cluster, service: Key, pod: Key)
    ensures DrawsTo(c, service, pod, SliceEdge) || DrawsTo(c, service, pod, EndpointEdge) <==> ListsPod(c, service, pod)
  {
    if DrawsTo(c, service, pod, SliceEdge) {
      var e := Edge(ServiceID(service), PodID(pod), SliceEdge);
      SliceOnly(c, service, e);
      var s :| s in c.slices && SliceDrawn(c, s, service, e);
      SliceEdgePod(c, s, service, pod);
    }
    if DrawsTo(c, service, pod, EndpointEdge) {
      var e := Edge(ServiceID(service), PodID(pod), EndpointEdge);
      LegacyOnly(c, service, e);
      var endpoints :| endpoints in c.endpoints && LegacyDrawn(c, endpoints, e) && endpoints.key == service;
      LegacyEdgePod(c, endpoints, pod);
    }
    if ListsPod(c, service, pod) {
      ListedIsDrawn(c, service, pod);
    }
  }

  lemma ListedIsDrawn(c: Cluster, service: Key, pod: Key)
    requires ListsPod(c, service, pod)
    ensures DrawsTo(c, service, pod, SliceEdge) || DrawsTo(c, service, pod, EndpointEdge)
  {
    if s :| s in c.slices && SliceListsPod(c, s, service, pod) {
      SliceEdgePod(c, s, service, pod);
      assert SliceDrawn(c, s, service, Edge(ServiceID(service), PodID(pod), SliceEdge));
    } else {
      var e :| e in c.endpoints && LegacyListsPod(c, e, service, pod);
      LegacyEdgePod(c, e, pod);
      assert LegacyDrawn(c, e, Edge(ServiceID(service), PodID(pod), EndpointEdge));
    }
  }

  /** A published Service selects the Pod or, having no selector, lists it. */
  ghost predicate ServedBy(c: Cluster, shown: set<NodeID>, service: Key, pod: Key) {
    ServiceID(service) in shown && (SelectsPod(c, service, pod) || ListsPod(c, service, pod))
  }

  lemma PodLed(c: Cluster, g: Graph, shown: set<NodeID>, service: Key, pod: Key)
    requires IsBuild(c, g)
    ensures ServedBy(c, shown, service, pod) <==>
            exists kind :: kind in {Selects, SliceEdge, EndpointEdge} && LeadsTo(g, shown, ServiceID(service), PodID(pod), kind)
  {
    SelectsEdge(c, service, pod);
    ListsEdge(c, service, pod);
    forall kind | kind in {Selects, SliceEdge, EndpointEdge}
      ensures Edge(ServiceID(service), PodID(pod), kind) in g.edges <==> DrawsTo(c, service, pod, kind)
    {
      var e := Edge(ServiceID(service), PodID(pod), kind);
      if Drawn(c, e) {
        OnlyBackends(c, e);
      }
    }
    forall kind | kind in {Selects, SliceEdge, EndpointEdge}
      ensures LeadsTo(g, shown, ServiceID(service), PodID(pod), kind) <==>
              ServiceID(service) in shown && DrawsTo(c, service, pod, kind)
    {
    }
  }

  /** A Pod is published exactly when a published Service selects it or, having no
      selector, lists it as an endpoint. */
  lemma PodPublished(c: Cluster, g: Graph, shown: set<NodeID>, pod: Key)
    requires IsBuild(c, g) && Shaped(g) && IsShown(g, shown) && pod in PodKeys(c.pods)
    ensures PodID(pod) in shown <==> exists service :: ServedBy(c, shown, service, pod)
  {
    PodInBuild(c, g, pod);
    PodShown(g, shown, pod);
    if PodID(pod) in shown {
      var service := LedByService(g, shown, pod);
      PodLed(c, g, shown, service, pod);
    }
    if service :| ServedBy(c, shown, service, pod) {
      PodLed(c, g, shown, service, pod);
    }
  }

  lemma LedByService(g: Graph, shown: set<NodeID>, pod: Key) returns (service: Key)
    requires Shaped(g) && LedTo(g, shown, PodID(pod), {Selects, SliceEdge, EndpointEdge})
    ensures exists kind :: kind in {Selects, SliceEdge, EndpointEdge} && LeadsTo(g, shown, ServiceID(service), PodID(pod), kind)
  {
    var a, kind :| LeadsTo(g, shown, a, PodID(pod), kind) && kind in {Selects, SliceEdge, EndpointEdge};
    assert Typed(Edge(a, PodID(pod), kind));
    service := a.service;
    assert LeadsTo(g, shown, ServiceID(service), PodID(pod), kind);
  }

  lemma PodInBuild(c: Cluster, g: Graph, pod: Key)
    requires IsBuild(c, g) && pod in PodKeys(c.pods)
    ensures PodID(pod) in g.nodes
  {
    assert WorkloadNode(c, PodID(pod));
  }

  /** A machine is published exactly when it hosts a published Pod. */
  lemma MachinePublished(c: Cluster, g: Graph, shown: set<NodeID>, machine: string)
    requires IsBuild(c, g) && Shaped(g) && IsShown(g, shown) && machine in MachineNames(c)
    ensures MachineID(machine) in shown <==>
              machine != "" && exists pod :: pod in c.pods && pod.nodeName == machine && PodID(pod.key) in shown
  {
    assert WorkloadNode(c, MachineID(machine));
    MachineShown(g, shown, machine);
    forall key ensures Edge(MachineID(machine), PodID(key), Hosts) in g.edges <==>
        machine != "" && exists pod :: pod in c.pods && pod.nodeName == machine && pod.key == key
    {
      HostsEdge(c, machine, key);
    }
  }

  lemma HostsEdge(c: Cluster, machine: string, pod: Key)
    requires machine in MachineNames(c)
    ensures Drawn(c, Edge(MachineID(machine), PodID(pod), Hosts)) <==>
              machine != "" && exists p :: p in c.pods && p.nodeName == machine && p.key == pod
  {
    var e := Edge(MachineID(machine), PodID(pod), Hosts);
    if Drawn(c, e) {
      OnlyWorkloads(c, e);
    }
    if p :| machine != "" && p in c.pods && p.nodeName == machine && p.key == pod {
      assert Hosted(c, p, e);
      assert WorkloadDrawn(c, e);
    }
  }
}
