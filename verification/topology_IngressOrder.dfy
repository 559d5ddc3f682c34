/** The Ingress list of a cluster comes in any order; no route's controller,
    verdict or overlap property depends on it, and no node or edge of the build
    does. */
module IngressOrder {
  import opened Collections
  import opened Kube
  import opened NodeIDs
  import opened ControllerModel
  import opened Overlaps
  import opened OverlapRelation
  import opened OverlapOrder
  import opened Diagnosis
  import opened Topology
  import opened Builder
  import opened DrawnEndpoints
  import opened DrawnEdges
  import opened DrawnNodes
  import Sorting

  /** The same cluster with its Ingresses in another order. */
  ghost predicate Reordered(c: Cluster, d: Cluster) {
    && d == c.(ingresses := d.ingresses) && multiset(c.ingresses) == multiset(d.ingresses)
    && UniqueIngresses(c.ingresses) && UniqueIngresses(d.ingresses)
  }

  lemma SameServicesPods(c: Cluster, d: Cluster, service: Key)
    requires Reordered(c, d)
    ensures ServicePods(c, service) == ServicePods(d, service)
  {
  }

  lemma SameInference(c: Cluster, d: Cluster)
    requires Reordered(c, d)
    ensures InferenceClasses(c.ingresses, ClassesByName(c)) == InferenceClasses(d.ingresses, ClassesByName(d))
  {
    Sorting.SameMembers(c.ingresses, d.ingresses);
    var names := AnnotationOnly(ClassesByName(c));
    CollectMember(c.ingresses, names);
    CollectMember(d.ingresses, names);
    assert AnnotationClasses(c.ingresses, ClassesByName(c)) == AnnotationClasses(d.ingresses, ClassesByName(d));
  }

  lemma SameClassOf(c: Cluster, d: Cluster, s: Service)
    requires Reordered(c, d)
    ensures ServiceClass(c, s) == ServiceClass(d, s)
  {
    SameInference(c, d);
    SameServicesPods(c, d, s.key);
  }

  /** The controller of an Ingress does not depend on the order. */
  lemma OrderKeepsController(c: Cluster, d: Cluster, i: Ingress)
    requires Reordered(c, d)
    ensures StatusController(c, i) == StatusController(d, i) && ControllerOf(c, i) == ControllerOf(d, i)
  {
    match StatusService(i, c.services)
    case Some(s) => SameClassOf(c, d, s);
    case None =>
  }

  /** An index by names that are unique does not depend on the order. */
  lemma IndexReordered(xs: seq<Ingress>, ys: seq<Ingress>, f: Ingress -> Option<Key>)
    requires multiset(xs) == multiset(ys) && UniqueIngresses(xs)
    requires forall i :: f(i).Some? ==> f(i).value == i.key
    ensures IndexBy(xs, f) == IndexBy(ys, f)
  {
    Sorting.SameMembers(xs, ys);
    IndexMember(xs, f);
    IndexMember(ys, f);
    var a, b := IndexBy(xs, f), IndexBy(ys, f);
    forall k | k in a ensures k in b && a[k] == b[k] {
      SameKeySameIngress(xs, a[k], b[k]);
    }
    forall k | k in b ensures k in a {
      assert f(b[k]).Some?;
    }
  }

  lemma OrderKeepsControllers(c: Cluster, d: Cluster)
    requires Reordered(c, d)
    ensures IngressControllers(c) == IngressControllers(d)
  {
    forall i ensures ControllerOf(c, i) == ControllerOf(d, i) {
      OrderKeepsController(c, d, i);
    }
    IndexReordered(c.ingresses, d.ingresses, ControlledKey(c));
    IndexSame(d.ingresses, ControlledKey(c), ControlledKey(d));
  }

  lemma SameDiagnosis(c: Cluster, d: Cluster, i: Ingress, route: Route)
    requires Reordered(c, d)
    ensures RouteDiagnosis(c, i, route) == RouteDiagnosis(d, i, route)
  {
    OrderKeepsController(c, d, i);
    SameServicesPods(c, d, RouteService(i, route));
  }

  /** What a route node shows about overlaps. */
  ghost function ShownProperties(c: Cluster, i: Ingress, route: Route): map<PropertyName, string> {
    OverlapProperties(OverlapAt(ClusterOverlaps(c), IngressRouteID(i.key, route.id)), i.key, route)
  }

  /** The verdict a route node shows and its overlap properties do not depend on
      the order in which the Ingresses are listed. */
  lemma OrderKeepsRouteNode(c: Cluster, d: Cluster, i: Ingress, route: Route)
    requires Reordered(c, d)
    ensures ShownFinding(c, i, route) == ShownFinding(d, i, route)
    ensures ShownProperties(c, i, route) == ShownProperties(d, i, route)
  {
    OrderKeepsControllers(c, d);
    SameDiagnosis(c, d, i, route);
    OrderDoesNotShow(c.ingresses, d.ingresses, IngressControllers(c), i, route, RouteDiagnosis(c, i, route));
  }

  // ---- the whole build ----

  lemma SameIngresses(c: Cluster, d: Cluster, i: Ingress)
    requires Reordered(c, d)
    ensures i in c.ingresses <==> i in d.ingresses
  {
    Sorting.SameMembers(c.ingresses, d.ingresses);
  }

  lemma SameOwner(c: Cluster, d: Cluster, service: Key)
    requires Reordered(c, d)
    ensures OwnedByStatus(c, service) == OwnedByStatus(d, service)
  {
    forall i ensures i in c.ingresses <==> i in d.ingresses {
      SameIngresses(c, d, i);
    }
    forall i ensures StatusController(c, i) == StatusController(d, i) {
      OrderKeepsController(c, d, i);
    }
  }

  lemma SameTarget(c: Cluster, d: Cluster, s: Service)
    requires Reordered(c, d)
    ensures ExposureTarget(c, s) == ExposureTarget(d, s)
  {
    SameClassOf(c, d, s);
    SameOwner(c, d, s.key);
  }

  lemma SameServiceExposed(c: Cluster, d: Cluster, s: Service, e: Edge)
    requires Reordered(c, d)
    ensures ServiceExposed(c, s, e) == ServiceExposed(d, s, e)
  {
    SameTarget(c, d, s);
  }

  lemma SameExposure(c: Cluster, d: Cluster, e: Edge)
    requires Reordered(c, d)
    ensures ExposureDrawn(c, e) == ExposureDrawn(d, e)
  {
    forall s ensures ServiceExposed(c, s, e) == ServiceExposed(d, s, e) {
      SameServiceExposed(c, d, s, e);
    }
  }

  lemma SameCanaries(c: Cluster, d: Cluster, i: Ingress, route: Route)
    requires Reordered(c, d)
    ensures multiset(ShownCanaries(c, i, route)) == multiset(ShownCanaries(d, i, route))
  {
    OrderKeepsControllers(c, d);
    RouteOverlapRearranged(c.ingresses, d.ingresses, IngressControllers(c), IngressRouteID(i.key, route.id));
  }

  lemma SameCanaryDrawn(c: Cluster, d: Cluster, a: seq<CanaryLink>, b: seq<CanaryLink>, route: NodeID, e: Edge)
    requires Reordered(c, d) && multiset(a) == multiset(b)
    ensures CanaryDrawn(c, a, route, e) == CanaryDrawn(d, b, route, e)
  {
    Sorting.SameMembers(a, b);
    forall l ensures LinksService(c, l, e.target) == LinksService(d, l, e.target) {
    }
  }

  lemma SameRouteDrawn(c: Cluster, d: Cluster, i: Ingress, route: Route, e: Edge)
    requires Reordered(c, d)
    ensures RouteDrawn(c, i, route, e) == RouteDrawn(d, i, route, e)
  {
    SameCanaries(c, d, i, route);
    SameCanaryDrawn(c, d, ShownCanaries(c, i, route), ShownCanaries(d, i, route), IngressRouteID(i.key, route.id), e);
  }

  lemma SameRoutesDrawn(c: Cluster, d: Cluster, i: Ingress, e: Edge)
    requires Reordered(c, d)
    ensures SomeRouteDrawn(c, i, e) == SomeRouteDrawn(d, i, e)
  {
    forall route ensures RouteDrawn(c, i, route, e) == RouteDrawn(d, i, route, e) {
      SameRouteDrawn(c, d, i, route, e);
    }
  }

  lemma SameControlled(c: Cluster, d: Cluster, i: Ingress, e: Edge)
    requires Reordered(c, d)
    ensures IngressControlled(c, i, e) == IngressControlled(d, i, e)
  {
    OrderKeepsController(c, d, i);
  }

  lemma SameIngressDrawn(c: Cluster, d: Cluster, i: Ingress, e: Edge)
    requires Reordered(c, d)
    ensures IngressDrawn(c, i, e) == IngressDrawn(d, i, e)
  {
    SameControlled(c, d, i, e);
    SameRoutesDrawn(c, d, i, e);
  }

  lemma SameReferences(c: Cluster, d: Cluster, r: ExternalResource)
    requires Reordered(c, d)
    ensures forall p :: ParentReference(c, r)(p) == ParentReference(d, r)(p)
    ensures forall b :: BackendReference(c, r)(b) == BackendReference(d, r)(b)
  {
  }

  lemma SameExternalDrawn(c: Cluster, d: Cluster, r: ExternalResource, e: Edge)
    requires Reordered(c, d)
    ensures ExternalDrawn(c, r, e) == ExternalDrawn(d, r, e)
  {
    SameReferences(c, d, r);
    forall p ensures ParentAttached(c, r, p, e) == ParentAttached(d, r, p, e) {
    }
    forall b ensures BackendRouted(c, r, b, e) == BackendRouted(d, r, b, e) {
    }
  }

  lemma SameTraffic(c: Cluster, d: Cluster, e: Edge)
    requires Reordered(c, d)
    ensures TrafficDrawn(c, e) == TrafficDrawn(d, e)
  {
    forall i ensures (i in c.ingresses <==> i in d.ingresses) && IngressDrawn(c, i, e) == IngressDrawn(d, i, e) {
      SameIngresses(c, d, i);
      SameIngressDrawn(c, d, i, e);
    }
    forall r ensures ExternalDrawn(c, r, e) == ExternalDrawn(d, r, e) {
      SameExternalDrawn(c, d, r, e);
    }
  }

  lemma SameBackends(c: Cluster, d: Cluster, e: Edge)
    requires Reordered(c, d)
    ensures BackendsDrawn(c, e) == BackendsDrawn(d, e)
  {
    forall s, pod ensures Selected(c, s, pod, e) == Selected(d, s, pod, e) {
    }
    forall s, service ensures SliceDrawn(c, s, service, e) == SliceDrawn(d, s, service, e) {
      forall endpoint, a ensures DrawnFor(c, s, service, e, endpoint, a) == DrawnFor(d, s, service, e, endpoint, a) {
      }
    }
    forall endpoints ensures LegacyDrawn(c, endpoints, e) == LegacyDrawn(d, endpoints, e) {
      forall a ensures LegacyEdge(c, endpoints, a) == LegacyEdge(d, endpoints, a) {
      }
    }
  }

  lemma SameWorkloads(c: Cluster, d: Cluster, e: Edge)
    requires Reordered(c, d)
    ensures WorkloadDrawn(c, e) == WorkloadDrawn(d, e)
  {
  }

  lemma SameDrawn(c: Cluster, d: Cluster, e: Edge)
    requires Reordered(c, d)
    ensures Drawn(c, e) == Drawn(d, e)
  {
    SameWorkloads(c, d, e);
    SameExposure(c, d, e);
    SameTraffic(c, d, e);
    SameBackends(c, d, e);
  }

  /** No edge of the build depends on the order of the Ingresses. */
  lemma OrderKeepsEdges(c: Cluster, d: Cluster, e: Edge)
    requires Reordered(c, d)
    ensures e in Build(c).edges <==> e in Build(d).edges
  {
    EdgesExactly(c, e);
    EdgesExactly(d, e);
    SameDrawn(c, d, e);
  }

  lemma SameTrafficNode(c: Cluster, d: Cluster, id: NodeID)
    requires Reordered(c, d)
    ensures TrafficNode(c, id) == TrafficNode(d, id)
  {
    forall i ensures i in c.ingresses <==> i in d.ingresses {
      SameIngresses(c, d, i);
    }
  }

  lemma SameKnownClass(c: Cluster, d: Cluster, id: NodeID)
    requires Reordered(c, d)
    ensures KnownClass(c, id) == KnownClass(d, id)
  {
    SameInference(c, d);
  }

  lemma SameExposureNode(c: Cluster, d: Cluster, id: NodeID)
    requires Reordered(c, d)
    ensures ExposureNode(c, id) == ExposureNode(d, id)
  {
    if id.StatusControllerID? {
      SameOwner(c, d, id.service);
    }
  }

  lemma SameEndpointNode(c: Cluster, d: Cluster, id: NodeID)
    requires Reordered(c, d)
    ensures EndpointNode(c, id) == EndpointNode(d, id)
  {
    forall s, service, e, a ensures SliceNode(c, s, service, e, a, id) == SliceNode(d, s, service, e, a, id) {
    }
    forall e, a ensures LegacyNode(c, e, a, id) == LegacyNode(d, e, a, id) {
    }
  }

  lemma SameWorkloadNode(c: Cluster, d: Cluster, id: NodeID)
    requires Reordered(c, d)
    ensures WorkloadNode(c, id) == WorkloadNode(d, id)
  {
  }

  lemma SameNode(c: Cluster, d: Cluster, id: NodeID)
    requires Reordered(c, d)
    ensures DrawnNode(c, id) == DrawnNode(d, id)
  {
    SameWorkloadNode(c, d, id);
    SameKnownClass(c, d, id);
    SameExposureNode(c, d, id);
    SameTrafficNode(c, d, id);
    SameEndpointNode(c, d, id);
  }

  /** No node of the build depends on it either. */
  lemma OrderKeepsNodes(c: Cluster, d: Cluster, id: NodeID)
    requires Reordered(c, d)
    ensures id in Build(c).nodes <==> id in Build(d).nodes
  {
    NodesExactly(c, id);
    NodesExactly(d, id);
    SameNode(c, d, id);
  }
}
