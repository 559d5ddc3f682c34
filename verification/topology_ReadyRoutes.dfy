/** What "Backends ready" on an Ingress route promises about the cluster. */
module ReadyRoutes {
  import opened Collections
  import opened Kube
  import opened EndpointModel
  import opened EndpointCollection
  import opened Overlaps
  import opened OverlapRelation
  import opened CanaryRelation
  import opened Diagnosis
  import opened Builder
  import opened NodeIDs

  lemma FilterCount<T>(xs: seq<T>, keep: T -> bool)
    ensures |Filter(xs, keep)| > 0 <==> exists x :: x in xs && keep(x)
  {
    FilterMember(xs, keep);
    if |Filter(xs, keep)| > 0 {
      assert Filter(xs, keep)[0] in Filter(xs, keep);
    }
  }

  /** Some endpoint can take traffic and none is going away: over the Service's
      slices, or over its legacy Endpoints when it has no slice. */
  ghost predicate EndpointsServe(c: Cluster, service: Key) {
    if HasSlice(c.slices, service) then
      && (exists e :: e in ListedEndpoints(c.slices, service) && IsUsable(e))
      && (forall e :: e in ListedEndpoints(c.slices, service) ==> !IsTerminating(e))
    else
      exists a :: a in ListedAddresses(c.endpoints, service) && MarkedReady(a)
  }

  /** Every selected Pod that should get traffic is listed for the port. */
  ghost predicate SelectedPodsListed(c: Cluster, service: Key, port: string) {
    var listed := PortPods(c.slices, c.endpoints, IndexPods(c.pods), service, port);
    listed.Some? && forall pod :: pod in ServicePods(c, service) && ExpectsTraffic(pod) ==> pod.key in listed.value
  }

  lemma StatsServe(c: Cluster, service: Key)
    ensures
      var stats := ServiceStats(c.slices, c.endpoints, service);
      EndpointsServe(c, service) <==> stats.usable > 0 && stats.terminating == 0
  {
    StatsAreCounts(c.slices, c.endpoints, service);
    FilterCount(ListedEndpoints(c.slices, service), IsUsable);
    FilterCount(ListedEndpoints(c.slices, service), IsTerminating);
    FilterCount(ListedAddresses(c.endpoints, service), MarkedReady);
  }

  lemma {:induction false} SumNothing<T>(xs: seq<T>, f: T -> Stats)
    requires forall x :: x in xs ==> f(x) == NO_STATS
    ensures SumStats(xs, f) == NO_STATS
  {
    if xs != [] {
      var front, x := xs[..|xs| - 1], xs[|xs| - 1];
      assert x in xs && forall y :: y in front ==> y in xs;
      SumNothing(front, f);
      PlusNoStats(SumStats(front, f));
    }
  }

  /** The statistics and the endpoint-Pod index cover the same Services. */
  lemma SameDomain(c: Cluster, service: Key, port: string)
    requires ServiceStats(c.slices, c.endpoints, service).total > 0
    ensures PortPods(c.slices, c.endpoints, IndexPods(c.pods), service, port).Some?
  {
    if !HasSlice(c.slices, service) && !HasLegacy(c.endpoints, service) {
      SumNothing(c.endpoints, LegacyStatsFor(service));
    }
  }

  lemma ListedMeansNoneMissing(c: Cluster, service: Key, port: string)
    requires PortPods(c.slices, c.endpoints, IndexPods(c.pods), service, port).Some?
    ensures SelectedPodsListed(c, service, port) <==>
            NonEndpointPods(ServicePods(c, service), PortPods(c.slices, c.endpoints, IndexPods(c.pods), service, port)) == 0
  {
    var members := PortPods(c.slices, c.endpoints, IndexPods(c.pods), service, port).value;
    FilterCount(ServicePods(c, service), NotListed(members));
  }

  lemma {:induction false} PortNameFound(ports: seq<ServicePort>, backend: PortRef)
    ensures PortNameIn(ports, backend).Some? <==> exists p :: p in ports && PortMatches(p, backend)
  {
    if ports != [] {
      PortNameFound(ports[1..], backend);
      assert ports == [ports[0]] + ports[1..];
    }
  }

  /** Everything "Backends ready" stands for. */
  ghost predicate TrulyReady(c: Cluster, i: Ingress, route: Route) {
    var key := RouteService(i, route);
    && route.resourceKind == ""
    && key in Services(c)
    && ControllerOf(c, i).Some?
    && PortNameIn(Services(c)[key].ports, route.servicePort).Some?
    && (Services(c)[key].selector != map[] ==> exists pod :: pod in ServicePods(c, key) && PodIsReady(pod))
    && EndpointsServe(c, key)
    && SelectedPodsListed(c, key, PortNameIn(Services(c)[key].ports, route.servicePort).value)
  }

  /** For a Service that is not an ExternalName, the verdict is "Backends
      ready" exactly when the backends are. */
  lemma ReadyMeansReady(c: Cluster, i: Ingress, route: Route)
    requires RouteService(i, route) in Services(c) ==> Services(c)[RouteService(i, route)].kind != ExternalName
    ensures RouteDiagnosis(c, i, route).BackendsReady? <==> TrulyReady(c, i, route)
  {
    var key := RouteService(i, route);
    if key in Services(c) && PortNameIn(Services(c)[key].ports, route.servicePort).Some? {
      var s, port := Services(c)[key], PortNameIn(Services(c)[key].ports, route.servicePort).value;
      var pods, stats := ServicePods(c, key), ServiceStats(c.slices, c.endpoints, key);
      StatsServe(c, key);
      StatsAreBounded(c.slices, c.endpoints, key);
      FilterCount(pods, PodIsReady);
      PortNameFound(s.ports, route.servicePort);
      if stats.total > 0 {
        SameDomain(c, key, port);
        ListedMeansNoneMissing(c, key, port);
      }
      ReadyCascade(route, ControllerOf(c, i).Some?, s, pods, stats, RouteNonEndpointPods(c, i, route));
    } else if key in Services(c) {
      PortNameFound(Services(c)[key].ports, route.servicePort);
    }
  }

  /** The decision cascade reaches its last verdict exactly when no earlier
      branch applies. */
  lemma ReadyCascade(route: Route, hasController: bool, s: Service, pods: seq<Pod>, stats: Stats, missing: nat)
    requires s.kind != ExternalName && Bounded(stats) && HasBackendPort(s, route.servicePort)
    requires s.selector == map[] ==> pods == []
    ensures Diagnose(route, hasController, Some(s), pods, stats, missing).BackendsReady? <==>
            && route.resourceKind == "" && hasController
            && (s.selector != map[] ==> |Filter(pods, PodIsReady)| > 0)
            && stats.usable > 0 && stats.terminating == 0 && missing == 0
  {
    FilterCount(pods, PodIsReady);
  }

  ghost predicate NoOverlapFinding(overlap: Overlap) {
    overlap.hasSelf ==>
      if overlap.canary then overlap.primaries != [] && overlap.sharedService == [] && overlap.locationCanaries == []
      else overlap.primaries == []
  }

  /** An overlap never turns another verdict into "Backends ready". */
  lemma OverlapKeepsReady(finding: Finding, overlap: Overlap)
    ensures ApplyOverlap(finding, overlap).BackendsReady? <==> finding.BackendsReady? && NoOverlapFinding(overlap)
  {
  }

  /** A route node that shows "Backends ready" is ready and free of findings
      about other Ingresses. */
  lemma ShownReady(c: Cluster, i: Ingress, route: Route)
    requires RouteService(i, route) in Services(c) ==> Services(c)[RouteService(i, route)].kind != ExternalName
    ensures ShownFinding(c, i, route).BackendsReady? <==>
            TrulyReady(c, i, route) && NoOverlapFinding(OverlapAt(ClusterOverlaps(c), IngressRouteID(i.key, route.id)))
  {
    ReadyMeansReady(c, i, route);
    OverlapKeepsReady(RouteDiagnosis(c, i, route), OverlapAt(ClusterOverlaps(c), IngressRouteID(i.key, route.id)));
  }

  /** No other Ingress stands in the route's way: a primary has no rival, and a
      canary has a primary, no other canary for its location and none that
      shares its Service. */
  ghost predicate Unchallenged(ingresses: seq<Ingress>, controllers: Controllers, i: Ingress, route: Route) {
    var all := Members(ingresses, controllers);
    TakesPart(controllers, i, route) ==>
      if i.canaryRule.None? then !HasRival(ingresses, controllers, i, route)
      else
        && HasRival(ingresses, controllers, i, route)
        && NoCanaryAt(all, controllers, i, route) && NoSharing(all, controllers, i, route)
  }

  ghost predicate NoCanaryAt(all: seq<Member>, controllers: Controllers, i: Ingress, route: Route) {
    forall x :: !CanaryAt(all, controllers, i, route, x)
  }

  ghost predicate NoSharing(all: seq<Member>, controllers: Controllers, i: Ingress, route: Route) {
    forall x :: !SharesUpstream(all, controllers, i, route, x)
  }

  lemma NoFindingOf(o: Overlap, canary: bool, part: bool, rival: bool, alone: bool, unshared: bool)
    requires o.hasSelf ==> o.canary == canary
    requires canary ==> (o.hasSelf <==> part)
    requires o.primaries != [] <==> part && rival
    requires o.primaries != [] ==> o.hasSelf
    requires canary && part ==> (o.locationCanaries == [] <==> alone) && (o.sharedService == [] <==> unshared)
    ensures NoOverlapFinding(o) <==> (part ==> if canary then rival && alone && unshared else !rival)
  {
  }

  lemma NoFindingExactly(ingresses: seq<Ingress>, controllers: Controllers, i: Ingress, route: Route, all: seq<Member>,
                         o: Overlap)
    requires UniqueIngresses(ingresses) && i in ingresses && route in IngressRoutes(i)
    requires all == Members(ingresses, controllers) && o == NodeOverlap(all, i, route)
    ensures NoOverlapFinding(o) <==> Unchallenged(ingresses, controllers, i, route)
  {
    ListsKnowThemselves(ingresses, controllers, i, route, o);
    PrimariesShown(ingresses, controllers, i, route, all, o);
    if i.canaryRule.Some? {
      CanaryListsShown(ingresses, controllers, i, route, all, o);
    }
    NoFindingOf(o, i.canaryRule.Some?, TakesPart(controllers, i, route), HasRival(ingresses, controllers, i, route),
                NoCanaryAt(all, controllers, i, route), NoSharing(all, controllers, i, route));
  }

  lemma PrimariesShown(ingresses: seq<Ingress>, controllers: Controllers, i: Ingress, route: Route, all: seq<Member>,
                       o: Overlap)
    requires UniqueIngresses(ingresses) && i in ingresses && route in IngressRoutes(i)
    requires all == Members(ingresses, controllers) && o == NodeOverlap(all, i, route)
    ensures o.primaries != [] <==> TakesPart(controllers, i, route) && HasRival(ingresses, controllers, i, route)
    ensures o.primaries != [] ==> o.hasSelf
  {
    ConflictShownExactly(ingresses, controllers, i, route);
    OverlapKnowsItself(ingresses, controllers, i, route, o);
  }

  lemma CanaryListsShown(ingresses: seq<Ingress>, controllers: Controllers, i: Ingress, route: Route, all: seq<Member>,
                         o: Overlap)
    requires UniqueIngresses(ingresses) && i in ingresses && route in IngressRoutes(i)
    requires all == Members(ingresses, controllers) && o == NodeOverlap(all, i, route)
    ensures TakesPart(controllers, i, route) ==> (o.locationCanaries == [] <==> NoCanaryAt(all, controllers, i, route))
    ensures TakesPart(controllers, i, route) ==> (o.sharedService == [] <==> NoSharing(all, controllers, i, route))
  {
    NotEmptyMeans(o.locationCanaries);
    NotEmptyMeans(o.sharedService);
    forall x
      ensures x in o.locationCanaries <==> CanaryAt(all, controllers, i, route, x) && TakesPart(controllers, i, route)
    {
      LocationCanaryShownExactly(ingresses, controllers, i, route, x, all);
    }
    forall x
      ensures x in o.sharedService <==> SharesUpstream(all, controllers, i, route, x) && TakesPart(controllers, i, route)
    {
      SharedShownExactly(ingresses, controllers, i, route, x, all);
    }
  }

  /** A route node shows "Backends ready" exactly when its backends are and no
      other Ingress stands in its way. */
  lemma ShownReadyExactly(c: Cluster, i: Ingress, route: Route)
    requires UniqueIngresses(c.ingresses) && i in c.ingresses && route in IngressRoutes(i)
    requires RouteService(i, route) in Services(c) ==> Services(c)[RouteService(i, route)].kind != ExternalName
    ensures ShownFinding(c, i, route).BackendsReady? <==>
              TrulyReady(c, i, route) && Unchallenged(c.ingresses, IngressControllers(c), i, route)
  {
    ShownReady(c, i, route);
    var all := Members(c.ingresses, IngressControllers(c));
    NoFindingExactly(c.ingresses, IngressControllers(c), i, route, all, NodeOverlap(all, i, route));
  }
}
