/** The diagnosis of an Ingress route, verdict by verdict, told by the objects of
    the cluster. */
module RouteVerdicts {
  import opened Collections
  import opened Kube
  import opened EndpointModel
  import opened EndpointFields
  import EndpointCollection
  import opened DrawnEndpoints
  import opened Diagnosis
  import opened Builder

  // ---- the Pods a Service selects ----

  predicate Chosen(s: Service, pod: Pod) {
    && s.selector != map[] && pod.key.namespace == s.key.namespace
    && forall l :: l in s.selector ==> l in pod.labels && pod.labels[l] == s.selector[l]
  }

  lemma ChosenExactly(c: Cluster, s: Service)
    ensures SelectedPods(c.pods, s) == Filter(c.pods, PicksFor(s))
  {
    if s.selector == map[] {
      NonePass(c.pods, PicksFor(s));
    } else {
      FilterSame(c.pods, SelectedBy(s), PicksFor(s));
    }
  }

  function PicksFor(s: Service): Pod -> bool { (pod: Pod) => Chosen(s, pod) }

  lemma {:induction false} NonePass<T>(xs: seq<T>, keep: T -> bool)
    requires forall x :: x in xs ==> !keep(x)
    ensures Filter(xs, keep) == []
  {
    if xs != [] {
      NonePass(xs[..|xs| - 1], keep);
    }
  }

  // ---- the port ----

  predicate Fits(p: ServicePort, backend: PortRef) {
    (backend.name != "" && p.name == backend.name) || (backend.number != 0 && p.port == backend.number)
  }

  /** The name of the first port that fits. */
  ghost predicate FirstFit(ports: seq<ServicePort>, backend: PortRef, name: string) {
    exists k :: 0 <= k < |ports| && Fits(ports[k], backend) && ports[k].name == name && NoFitBefore(ports, backend, k)
  }

  predicate NoFitBefore(ports: seq<ServicePort>, backend: PortRef, k: nat)
    requires k <= |ports|
  {
    forall j :: 0 <= j < k ==> !Fits(ports[j], backend)
  }

  lemma {:induction false} FirstFitExactly(ports: seq<ServicePort>, backend: PortRef, name: string)
    ensures PortNameIn(ports, backend) == Some(name) <==> FirstFit(ports, backend, name)
  {
    if ports != [] {
      var rest := ports[1..];
      FirstFitExactly(rest, backend, name);
      if Fits(ports[0], backend) {
        assert NoFitBefore(ports, backend, 0);
      } else {
        if FirstFit(rest, backend, name) {
          var k :| 0 <= k < |rest| && Fits(rest[k], backend) && rest[k].name == name && NoFitBefore(rest, backend, k);
          assert ports[k + 1] == rest[k] && forall j :: 0 < j <= k ==> ports[j] == rest[j - 1];
          assert NoFitBefore(ports, backend, k + 1);
        }
        if FirstFit(ports, backend, name) {
          var k :| 0 <= k < |ports| && Fits(ports[k], backend) && ports[k].name == name && NoFitBefore(ports, backend, k);
          assert rest[k - 1] == ports[k] && forall j :: 0 <= j < k - 1 ==> rest[j] == ports[j + 1];
          assert NoFitBefore(rest, backend, k - 1);
        }
      }
    }
  }

  // ---- the Pods listed for a port ----

  /** The address stands for a Pod of that key. */
  ghost predicate StandsForKey(pods: seq<Pod>, target: Option<TargetRef>, namespace: string, address: string, key: Key) {
    exists pod: Pod :: pod.key == key && StandsFor(pods, target, namespace, address, pod)
  }

  /** Some address of the slice does. */
  ghost predicate SliceLists(pods: seq<Pod>, s: EndpointSlice, key: Key) {
    exists e: SliceEndpoint, a :: e in s.endpoints && a in e.addresses && StandsForKey(pods, e.target, s.namespace, a, key)
  }

  /** Some address of the subset, ready or not, stands for a Pod of that key. */
  ghost predicate SubsetLists(pods: seq<Pod>, namespace: string, s: Subset, key: Key) {
    exists a: EndpointAddress :: (a in s.addresses || a in s.notReady) && StandsForKey(pods, a.target, namespace, a.ip, key)
  }

  predicate NamesPort(s: EndpointSlice, port: string) {
    Some(port) in s.ports || (port == "" && None in s.ports)
  }

  /** The Pod is listed for the Service's port: by a slice with that port, or,
      without slices, by a subset with it. */
  ghost predicate ListedFor(c: Cluster, service: Key, port: string, key: Key) {
    if Sliced(c.slices, service) then
      exists s :: s in c.slices && SliceBelongs(s, service) && NamesPort(s, port) && SliceLists(c.pods, s, key)
    else
      exists e, s: Subset :: e in c.endpoints && e.key == service && s in e.subsets && port in s.ports
                     && SubsetLists(c.pods, service.namespace, s, key)
  }

  /** There is endpoint data for the Service, even if it lists nothing. */
  ghost predicate HasData(c: Cluster, service: Key) {
    Sliced(c.slices, service) || exists e :: e in c.endpoints && e.key == service
  }

  lemma StandsInSet(pods: seq<Pod>, target: Option<TargetRef>, namespace: string, address: string, key: Key)
    ensures key in PodSet(ResolvePod(target, namespace, address, IndexPods(pods))) <==>
            StandsForKey(pods, target, namespace, address, key)
  {
    var resolved := ResolvePod(target, namespace, address, IndexPods(pods));
    if resolved.Some? {
      ResolvesExactly(pods, target, namespace, address, resolved.value);
    }
    if pod: Pod :| pod.key == key && StandsFor(pods, target, namespace, address, pod) {
      ResolvesExactly(pods, target, namespace, address, pod);
    }
  }

  lemma SliceListsExactly(pods: seq<Pod>, s: EndpointSlice, key: Key)
    ensures key in SlicePods(s, IndexPods(pods)) <==> SliceLists(pods, s, key)
  {
    SlicePodMember(s, IndexPods(pods), key);
    if key in SlicePods(s, IndexPods(pods)) {
      var e, a :| e in s.endpoints && a in e.addresses && key in PodSet(ResolvePod(e.target, s.namespace, a, IndexPods(pods)));
      StandsInSet(pods, e.target, s.namespace, a, key);
      assert SliceLists(pods, s, key);
    }
    if SliceLists(pods, s, key) {
      var e, a :| e in s.endpoints && a in e.addresses && StandsForKey(pods, e.target, s.namespace, a, key);
      StandsInSet(pods, e.target, s.namespace, a, key);
      assert key in PodSet(ResolvePod(e.target, s.namespace, a, IndexPods(pods)));
      assert key in SlicePods(s, IndexPods(pods));
    }
  }

  lemma SubsetListsExactly(pods: seq<Pod>, namespace: string, s: Subset, key: Key)
    ensures key in Collect(SubsetAddresses(s), LegacyAddressPods(namespace, IndexPods(pods))) <==>
            SubsetLists(pods, namespace, s, key)
  {
    var all, f := SubsetAddresses(s), LegacyAddressPods(namespace, IndexPods(pods));
    CollectMember(all, f);
    SideMembers(s);
    if key in Collect(all, f) {
      var a :| a in all && key in f(a);
      StandsInSet(pods, a.address.target, namespace, a.address.ip, key);
      assert a.address in s.addresses || a.address in s.notReady;
    }
    if SubsetLists(pods, namespace, s, key) {
      var a: EndpointAddress :| (a in s.addresses || a in s.notReady) && StandsForKey(pods, a.target, namespace, a.ip, key);
      StandsInSet(pods, a.target, namespace, a.ip, key);
      var marked := LegacyAddress(a, a in s.addresses);
      assert marked in all && key in f(marked);
    }
  }

  lemma SideMembers(s: Subset)
    ensures forall a: LegacyAddress :: a in SubsetAddresses(s) <==> if a.ready then a.address in s.addresses else a.address in s.notReady
  {
    MarkedMembers(s.addresses, true);
    MarkedMembers(s.notReady, false);
  }

  lemma MarkedMembers(addresses: seq<EndpointAddress>, ready: bool)
    ensures forall a: LegacyAddress :: a in Marked(addresses, ready) <==> a.ready == ready && a.address in addresses
  {
    forall a: LegacyAddress | a.ready == ready && a.address in addresses ensures a in Marked(addresses, ready) {
      var k :| 0 <= k < |addresses| && addresses[k] == a.address;
      assert Marked(addresses, ready)[k] == a;
    }
  }

  /** The port's endpoint Pods are those listed for it, and there are none to ask
      for without endpoint data. */
  lemma ListedExactly(c: Cluster, service: Key, port: string, listed: Option<set<Key>>)
    requires listed == PortPods(c.slices, c.endpoints, IndexPods(c.pods), service, port)
    ensures listed.Some? <==> HasData(c, service)
    ensures listed.Some? ==> forall key :: key in listed.value <==> ListedFor(c, service, port, key)
  {
    SlicedExactly(c.slices, service);
    forall key | listed.Some? ensures key in listed.value <==> ListedFor(c, service, port, key) {
      if Sliced(c.slices, service) {
        SlicesListed(c, service, port, key);
      } else {
        SubsetsListed(c, service, port, key);
      }
    }
  }

  lemma SlicesListed(c: Cluster, service: Key, port: string, key: Key)
    requires Sliced(c.slices, service)
    ensures key in Collect(c.slices, SlicePortPods(service, port, IndexPods(c.pods))) <==> ListedFor(c, service, port, key)
  {
    var f := SlicePortPods(service, port, IndexPods(c.pods));
    CollectMember(c.slices, f);
    forall s ensures key in f(s) <==> SliceBelongs(s, service) && NamesPort(s, port) && SliceLists(c.pods, s, key) {
      BelongsExactly(s, service);
      PortServed(s, port);
      SliceListsExactly(c.pods, s, key);
    }
  }

  lemma PortServed(s: EndpointSlice, port: string)
    ensures ServesPort(s, port) <==> NamesPort(s, port)
  {
  }

  lemma SubsetsListed(c: Cluster, service: Key, port: string, key: Key)
    requires !Sliced(c.slices, service)
    ensures key in Collect(c.endpoints, LegacyPortPods(service, port, IndexPods(c.pods))) <==> ListedFor(c, service, port, key)
  {
    var f := LegacyPortPods(service, port, IndexPods(c.pods));
    var g := SubsetPortPods(service.namespace, port, IndexPods(c.pods));
    CollectMember(c.endpoints, f);
    forall e: Endpoints
      ensures key in f(e) <==>
              e.key == service && exists s :: s in e.subsets && port in s.ports && SubsetLists(c.pods, service.namespace, s, key)
    {
      CollectMember(e.subsets, g);
      forall s ensures key in g(s) <==> port in s.ports && SubsetLists(c.pods, service.namespace, s, key) {
        SubsetListsExactly(c.pods, service.namespace, s, key);
      }
    }
  }

  // ---- the Pods that should be listed and are not ----

  /** The Pod runs, has an address and is not going away. */
  predicate Runs(pod: Pod) { pod.podIP != "" && pod.phase == Running && !pod.deleting }

  /** The Service selects the Pod, which runs, and the port does not list it. */
  ghost predicate Unlisted(c: Cluster, s: Service, port: string, pod: Pod) {
    Chosen(s, pod) && Runs(pod) && !ListedFor(c, s.key, port, pod.key)
  }

  ghost function UnlistedFor(c: Cluster, s: Service, port: string): Pod -> bool {
    (pod: Pod) => Unlisted(c, s, port, pod)
  }

  /** How many Pods of the list that are. Without a fitting port, or without
      endpoint data, none is missed. */
  ghost function Missed(c: Cluster, s: Service, backend: PortRef): nat {
    if HasData(c, s.key) && exists port :: FirstFit(s.ports, backend, port) then
      var port :| FirstFit(s.ports, backend, port);
      |Places(c.pods, UnlistedFor(c, s, port))|
    else 0
  }

  lemma UnlistedCount(c: Cluster, s: Service, port: string, listed: Option<set<Key>>)
    requires listed == PortPods(c.slices, c.endpoints, IndexPods(c.pods), s.key, port) && listed.Some?
    ensures NonEndpointPods(SelectedPods(c.pods, s), listed) == |Places(c.pods, UnlistedFor(c, s, port))|
  {
    ChosenExactly(c, s);
    ListedExactly(c, s.key, port, listed);
    FilterFilter(c.pods, PicksFor(s), NotListed(listed.value), UnlistedFor(c, s, port));
    FilterPlaces(c.pods, UnlistedFor(c, s, port));
  }

  // ---- the backend Service ----

  /** The Service of the Ingress's namespace that the route names. */
  predicate IsBackend(c: Cluster, i: Ingress, route: Route, s: Service) {
    s in c.services && s.key.namespace == i.key.namespace && s.key.name == route.serviceName
  }

  /** No Service of the Ingress's namespace has the name. */
  ghost predicate Backless(c: Cluster, i: Ingress, route: Route) {
    forall s :: s in c.services ==> !IsBackend(c, i, route, s)
  }

  lemma BackendExactly(c: Cluster, i: Ingress, route: Route, s: Service)
    requires UniqueServices(c.services)
    ensures Lookup(Services(c), RouteService(i, route)) == Some(s) <==> IsBackend(c, i, route, s)
  {
    IndexMember(c.services, ServiceKey);
    assert RouteService(i, route) == Key(i.key.namespace, route.serviceName);
  }

  lemma NoBackend(c: Cluster, i: Ingress, route: Route)
    ensures RouteService(i, route) !in Services(c) <==> Backless(c, i, route)
  {
    IndexMember(c.services, ServiceKey);
    assert RouteService(i, route) == Key(i.key.namespace, route.serviceName);
    if RouteService(i, route) in Services(c) {
      assert IsBackend(c, i, route, Services(c)[RouteService(i, route)]);
    }
  }

  lemma MissedExactly(c: Cluster, i: Ingress, route: Route, s: Service)
    requires UniqueServices(c.services) && IsBackend(c, i, route, s)
    ensures RouteNonEndpointPods(c, i, route) == Missed(c, s, route.servicePort)
  {
    BackendExactly(c, i, route, s);
    var name := PortNameIn(s.ports, route.servicePort);
    forall port ensures name == Some(port) <==> FirstFit(s.ports, route.servicePort, port) {
      FirstFitExactly(s.ports, route.servicePort, port);
    }
    if name.Some? {
      var listed := PortPods(c.slices, c.endpoints, IndexPods(c.pods), s.key, name.value);
      ListedExactly(c, s.key, name.value, listed);
      if listed.Some? {
        UnlistedCount(c, s, name.value, listed);
      }
    }
  }

  // ---- its endpoints ----

  /** Some endpoint in the Service's slices passes. */
  ghost predicate SomeEndpoint(c: Cluster, service: Key, keep: SliceEndpoint -> bool) {
    exists s, e: SliceEndpoint :: s in c.slices && SliceBelongs(s, service) && e in s.endpoints && keep(e)
  }

  /** The Service's Endpoints list a ready, or another, address. */
  ghost predicate SomeAddress(c: Cluster, service: Key, ready: bool) {
    exists e, s: Subset :: e in c.endpoints && e.key == service && s in e.subsets && HasSide(s, ready)
  }

  predicate HasSide(s: Subset, ready: bool) { if ready then s.addresses != [] else s.notReady != [] }

  ghost predicate HasEndpoint(c: Cluster, service: Key) {
    if Sliced(c.slices, service) then SomeEndpoint(c, service, Any)
    else SomeAddress(c, service, true) || SomeAddress(c, service, false)
  }

  /** Some endpoint can take traffic. */
  ghost predicate CanServe(c: Cluster, service: Key) {
    if Sliced(c.slices, service) then SomeEndpoint(c, service, Usable) else SomeAddress(c, service, true)
  }

  /** How many endpoints are going away; legacy addresses never say so. */
  ghost function GoingAway(c: Cluster, service: Key): nat {
    if Sliced(c.slices, service) then |EndpointPlaces(c.slices, service, Terminating)| else 0
  }

  ghost function UsableCount(c: Cluster, service: Key): nat {
    if Sliced(c.slices, service) then |EndpointPlaces(c.slices, service, Usable)|
    else |AddressPlaces(c.endpoints, service, true)|
  }

  lemma SizeMeans<X(!new)>(s: set<X>)
    ensures |s| > 0 <==> exists x :: x in s
  {
    if |s| > 0 {
      var x :| x in s;
    }
  }

  lemma SpreadMeans<T, X(!new)>(xs: seq<T>, f: T -> set<X>)
    ensures |Spread(xs, f)| > 0 <==> exists x :: x in xs && |f(x)| > 0
  {
    SizeMeans(Spread(xs, f));
    if p :| p in Spread(xs, f) {
      assert xs[p.0] in xs && p.1 in f(xs[p.0]);
    }
    if x :| x in xs && |f(x)| > 0 {
      var j :| 0 <= j < |xs| && xs[j] == x;
      SizeMeans(f(x));
      var y :| y in f(x);
      assert (j, y) in Spread(xs, f);
    }
  }

  lemma PlacesMean<T>(xs: seq<T>, keep: T -> bool)
    ensures |Places(xs, keep)| > 0 <==> exists x :: x in xs && keep(x)
  {
    SizeMeans(Places(xs, keep));
    if k :| k in Places(xs, keep) {
      assert xs[k] in xs && keep(xs[k]);
    }
    if x :| x in xs && keep(x) {
      var j :| 0 <= j < |xs| && xs[j] == x;
      assert j in Places(xs, keep);
    }
  }

  lemma EndpointsMean(c: Cluster, service: Key, keep: SliceEndpoint -> bool)
    ensures |EndpointPlaces(c.slices, service, keep)| > 0 <==> SomeEndpoint(c, service, keep)
  {
    SpreadMeans(c.slices, PlacesIn(service, keep));
    forall s: EndpointSlice
      ensures |PlacesIn(service, keep)(s)| > 0 <==> SliceBelongs(s, service) && exists e :: e in s.endpoints && keep(e)
    {
      PlacesMean(s.endpoints, keep);
    }
  }

  lemma AddressesMean(c: Cluster, service: Key, ready: bool)
    ensures |AddressPlaces(c.endpoints, service, ready)| > 0 <==> SomeAddress(c, service, ready)
  {
    SpreadMeans(c.endpoints, AddressesIn(service, ready));
    forall e: Endpoints
      ensures |AddressesIn(service, ready)(e)| > 0 <==> e.key == service && exists s :: s in e.subsets && HasSide(s, ready)
    {
      SubsetsMean(e.subsets, ready);
    }
  }

  lemma SubsetsMean(subsets: seq<Subset>, ready: bool)
    ensures |Spread(subsets, SideOf(ready))| > 0 <==> exists s :: s in subsets && HasSide(s, ready)
  {
    SpreadMeans(subsets, SideOf(ready));
    forall s: Subset ensures |SideOf(ready)(s)| > 0 <==> HasSide(s, ready) {
      var side := if ready then s.addresses else s.notReady;
      PlacesMean(side, AnyAddress);
      if side != [] {
        assert side[0] in side && AnyAddress(side[0]);
      }
    }
  }

  /** What the statistics say. */
  lemma StatsSay(c: Cluster, service: Key, stats: Stats)
    requires stats == ServiceStats(c.slices, c.endpoints, service)
    ensures (stats.total > 0 <==> HasEndpoint(c, service)) && (stats.usable > 0 <==> CanServe(c, service))
    ensures stats.terminating == GoingAway(c, service) && stats.usable == UsableCount(c, service)
  {
    StatsExactly(c.slices, c.endpoints, service);
    EndpointsMean(c, service, Any);
    EndpointsMean(c, service, Usable);
    AddressesMean(c, service, true);
    AddressesMean(c, service, false);
  }

  // ---- the verdicts ----

  ghost predicate ChoosesSome(c: Cluster, s: Service) { exists pod :: pod in c.pods && Chosen(s, pod) }

  predicate ReadyPod(s: Service, pod: Pod) { Chosen(s, pod) && pod.ready == Some(true) }

  function ReadyFor(s: Service): Pod -> bool { (pod: Pod) => ReadyPod(s, pod) }

  ghost predicate ChoosesReady(c: Cluster, s: Service) { exists pod :: pod in c.pods && ReadyPod(s, pod) }

  /** A port of the Service fits, or it is an ExternalName without ports. */
  ghost predicate PortFits(s: Service, backend: PortRef) {
    (s.kind == ExternalName && s.ports == []) || exists p :: p in s.ports && Fits(p, backend)
  }

  predicate PointsOutside(s: Service) { s.kind == ExternalName && s.externalName != "" }

  /** Everything a verdict depends on, once the backend Service is known. */
  datatype Facts = Facts(
    portFits: bool, controlled: bool, outside: bool, selecting: bool, chooses: bool, readyPods: nat,
    hasEndpoint: bool, canServe: bool, usable: nat, goingAway: nat, missed: nat)
  {
    predicate Reached() { portFits && controlled && !outside }

    /** A selecting Service has a Ready Pod. */
    predicate Fed() { Reached() && (selecting ==> readyPods > 0) }
  }

  /** The facts of a Service and the port that a route asks for. */
  ghost function FactsOf(c: Cluster, controlled: bool, s: Service, backend: PortRef): Facts {
    Facts(PortFits(s, backend), controlled, PointsOutside(s), s.selector != map[], ChoosesSome(c, s),
          |Places(c.pods, ReadyFor(s))|, HasEndpoint(c, s.key), CanServe(c, s.key), UsableCount(c, s.key),
          GoingAway(c, s.key), Missed(c, s, backend))
  }

  /** Which verdict the facts call for. */
  predicate FactsCallFor(facts: Facts, f: Finding) {
    match f
    case PortMismatch => !facts.portFits
    case NoController => facts.portFits && !facts.controlled
    case ExternalNameReference => facts.portFits && facts.controlled && facts.outside
    case SelectorMatchesNothing => facts.Reached() && facts.selecting && !facts.chooses
    case NoReadyPods => facts.Reached() && facts.chooses && facts.readyPods == 0
    case NoUsableEndpoints => facts.Fed() && facts.hasEndpoint && !facts.canServe
    case NoDataForSelectorless => facts.Fed() && !facts.selecting && !facts.hasEndpoint
    case PodsNotEndpoints(n) =>
      facts.Fed() && (facts.hasEndpoint ==> facts.canServe) && (facts.selecting || facts.hasEndpoint) && n == facts.missed > 0
    case NoEndpointData => facts.Fed() && facts.selecting && !facts.hasEndpoint && facts.missed == 0
    case TerminatingEndpoints(n) => facts.Fed() && facts.canServe && facts.missed == 0 && n == facts.goingAway > 0
    case BackendsReady(n) =>
      && facts.Fed() && facts.canServe && facts.missed == 0 && facts.goingAway == 0
      && n == if facts.usable < facts.readyPods then facts.readyPods else facts.usable
    case _ => false
  }

  /** What the cluster calls for. */
  ghost predicate DiagnosisCallsFor(c: Cluster, i: Ingress, route: Route, f: Finding) {
    match f
    case ResourceBackendUnresolved => route.resourceKind != ""
    case ServiceMissing => route.resourceKind == "" && Backless(c, i, route)
    case _ => route.resourceKind == "" && SomeBackendCallsFor(c, i, route, ControllerOf(c, i).Some?, f)
  }

  ghost predicate SomeBackendCallsFor(c: Cluster, i: Ingress, route: Route, controlled: bool, f: Finding) {
    exists s :: IsBackend(c, i, route, s) && FactsCallFor(FactsOf(c, controlled, s, route.servicePort), f)
  }

  lemma PodsSay(c: Cluster, s: Service, pods: seq<Pod>)
    requires pods == SelectedPods(c.pods, s)
    ensures pods != [] <==> ChoosesSome(c, s)
    ensures |Filter(pods, PodIsReady)| == |Places(c.pods, ReadyFor(s))|
    ensures |Filter(pods, PodIsReady)| > 0 <==> ChoosesReady(c, s)
  {
    ChosenExactly(c, s);
    FilterPlaces(c.pods, PicksFor(s));
    PlacesMean(c.pods, PicksFor(s));
    FilterFilter(c.pods, PicksFor(s), PodIsReady, ReadyFor(s));
    FilterPlaces(c.pods, ReadyFor(s));
    PlacesMean(c.pods, ReadyFor(s));
  }

  lemma PortSays(s: Service, backend: PortRef)
    ensures (s.kind == ExternalName && s.ports == []) || HasBackendPort(s, backend) <==> PortFits(s, backend)
  {
  }

  /** The cascade, from the facts. */
  lemma CascadeExactly(facts: Facts, s: Service, route: Route, pods: seq<Pod>, stats: Stats, f: Finding)
    requires route.resourceKind == "" && facts.outside == PointsOutside(s)
    requires facts.portFits <==> (s.kind == ExternalName && s.ports == []) || HasBackendPort(s, route.servicePort)
    requires (facts.selecting <==> s.selector != map[]) && (facts.chooses <==> pods != []) && (facts.chooses ==> facts.selecting)
    requires facts.readyPods == |Filter(pods, PodIsReady)|
    requires (facts.hasEndpoint <==> stats.total > 0) && (facts.canServe <==> stats.usable > 0) && stats.usable <= stats.total
    requires facts.usable == stats.usable && facts.goingAway == stats.terminating
    ensures Diagnose(route, facts.controlled, Some(s), pods, stats, facts.missed) == f <==> FactsCallFor(facts, f)
  {
    if pods == [] {
      assert Filter(pods, PodIsReady) == [];
    }
  }

  lemma BackendFacts(c: Cluster, controlled: bool, s: Service, route: Route, pods: seq<Pod>, stats: Stats, facts: Facts, f: Finding)
    requires route.resourceKind == "" && pods == SelectedPods(c.pods, s)
    requires stats == ServiceStats(c.slices, c.endpoints, s.key) && facts == FactsOf(c, controlled, s, route.servicePort)
    ensures Diagnose(route, controlled, Some(s), pods, stats, facts.missed) == f <==> FactsCallFor(facts, f)
  {
    PodsSay(c, s, pods);
    StatsSay(c, s.key, stats);
    PortSays(s, route.servicePort);
    EndpointCollection.StatsAreBounded(c.slices, c.endpoints, s.key);
    CascadeExactly(facts, s, route, pods, stats, f);
  }

  lemma SameBackendSame(c: Cluster, i: Ingress, route: Route, s: Service, t: Service)
    requires UniqueServices(c.services) && IsBackend(c, i, route, s) && IsBackend(c, i, route, t)
    ensures s == t
  {
    assert s.key == t.key;
  }

  lemma OneBackend(c: Cluster, i: Ingress, route: Route, controlled: bool, s: Service, f: Finding)
    requires UniqueServices(c.services) && IsBackend(c, i, route, s)
    ensures SomeBackendCallsFor(c, i, route, controlled, f) <==> FactsCallFor(FactsOf(c, controlled, s, route.servicePort), f)
  {
    forall t | IsBackend(c, i, route, t) ensures t == s {
      SameBackendSame(c, i, route, s, t);
    }
  }

  lemma BackendDiagnosis(c: Cluster, i: Ingress, route: Route, controlled: bool, s: Service, f: Finding)
    requires UniqueServices(c.services) && IsBackend(c, i, route, s) && route.resourceKind == "" && controlled == ControllerOf(c, i).Some?
    ensures RouteDiagnosis(c, i, route) == f <==> SomeBackendCallsFor(c, i, route, controlled, f)
    ensures f.ResourceBackendUnresolved? || f.ServiceMissing? ==> !SomeBackendCallsFor(c, i, route, controlled, f)
  {
    var facts := FactsOf(c, controlled, s, route.servicePort);
    BackendExactly(c, i, route, s);
    MissedExactly(c, i, route, s);
    assert RouteService(i, route) == s.key;
    BackendFacts(c, controlled, s, route, ServicePods(c, s.key), ServiceStats(c.slices, c.endpoints, s.key), facts, f);
    OneBackend(c, i, route, controlled, s, f);
  }

  lemma ResourceDiagnosis(c: Cluster, i: Ingress, route: Route)
    requires route.resourceKind != ""
    ensures RouteDiagnosis(c, i, route) == ResourceBackendUnresolved
  {
  }

  lemma MissingDiagnosis(c: Cluster, i: Ingress, route: Route)
    requires route.resourceKind == "" && Backless(c, i, route)
    ensures RouteDiagnosis(c, i, route) == ServiceMissing
  {
    NoBackend(c, i, route);
  }

  lemma BackendCalls(c: Cluster, i: Ingress, route: Route, s: Service, f: Finding)
    requires UniqueServices(c.services) && IsBackend(c, i, route, s) && route.resourceKind == ""
    ensures RouteDiagnosis(c, i, route) == f <==> DiagnosisCallsFor(c, i, route, f)
  {
    BackendDiagnosis(c, i, route, ControllerOf(c, i).Some?, s, f);
    assert !Backless(c, i, route);
  }

  lemma BacklessCalls(c: Cluster, i: Ingress, route: Route, controlled: bool, f: Finding)
    requires Backless(c, i, route)
    ensures !SomeBackendCallsFor(c, i, route, controlled, f)
  {
  }

  /** Every verdict is given exactly when the cluster calls for it. */
  lemma DiagnosisExactly(c: Cluster, i: Ingress, route: Route, f: Finding)
    requires UniqueServices(c.services)
    ensures RouteDiagnosis(c, i, route) == f <==> DiagnosisCallsFor(c, i, route, f)
  {
    if route.resourceKind != "" {
      ResourceDiagnosis(c, i, route);
    } else if Backless(c, i, route) {
      MissingDiagnosis(c, i, route);
      BacklessCalls(c, i, route, ControllerOf(c, i).Some?, f);
    } else {
      var s :| s in c.services && IsBackend(c, i, route, s);
      BackendCalls(c, i, route, s, f);
    }
  }

  // ---- severities ----

  /** No traffic can get to a backend. */
  predicate BrokenFacts(facts: Facts) {
    || !facts.portFits
    || (facts.Reached() && facts.selecting && facts.readyPods == 0)
    || (facts.Fed() && facts.hasEndpoint && !facts.canServe)
  }

  ghost predicate Broken(c: Cluster, i: Ingress, route: Route, controlled: bool) {
    || route.resourceKind != ""
    || Backless(c, i, route) || BrokenBackend(c, i, route, controlled)
  }

  ghost predicate BrokenBackend(c: Cluster, i: Ingress, route: Route, controlled: bool) {
    exists s :: IsBackend(c, i, route, s) && BrokenFacts(FactsOf(c, controlled, s, route.servicePort))
  }

  lemma ErrorFacts(facts: Facts, f: Finding)
    requires FactsCallFor(facts, f) && (facts.chooses ==> facts.selecting) && (facts.readyPods > 0 ==> facts.chooses)
    ensures f.Severity().Error? <==> BrokenFacts(facts)
  {
  }

  lemma ReadyIsChosen(c: Cluster, s: Service)
    ensures |Places(c.pods, ReadyFor(s))| > 0 ==> ChoosesSome(c, s)
  {
    PlacesMean(c.pods, ReadyFor(s));
  }

  lemma BackendError(c: Cluster, i: Ingress, route: Route, controlled: bool, s: Service, f: Finding)
    requires UniqueServices(c.services) && IsBackend(c, i, route, s) && FactsCallFor(FactsOf(c, controlled, s, route.servicePort), f)
    ensures f.Severity().Error? <==> BrokenBackend(c, i, route, controlled)
  {
    ReadyIsChosen(c, s);
    ErrorFacts(FactsOf(c, controlled, s, route.servicePort), f);
    forall t | IsBackend(c, i, route, t) ensures t == s {
      SameBackendSame(c, i, route, s, t);
    }
  }

  lemma BackendErrorHere(c: Cluster, i: Ingress, route: Route, controlled: bool, s: Service, f: Finding)
    requires UniqueServices(c.services) && IsBackend(c, i, route, s) && route.resourceKind == "" && controlled == ControllerOf(c, i).Some?
    requires f == RouteDiagnosis(c, i, route)
    ensures f.Severity().Error? <==> BrokenBackend(c, i, route, controlled)
  {
    BackendDiagnosis(c, i, route, controlled, s, f);
    OneBackend(c, i, route, controlled, s, f);
    BackendError(c, i, route, controlled, s, f);
  }

  /** The diagnosis is an error exactly when no traffic can get to a backend. */
  lemma ErrorExactly(c: Cluster, i: Ingress, route: Route, controlled: bool, f: Finding)
    requires UniqueServices(c.services) && controlled == ControllerOf(c, i).Some? && f == RouteDiagnosis(c, i, route)
    ensures f.Severity().Error? <==> Broken(c, i, route, controlled)
  {
    if route.resourceKind != "" {
      ResourceDiagnosis(c, i, route);
    } else if Backless(c, i, route) {
      MissingDiagnosis(c, i, route);
    } else {
      var s :| s in c.services && IsBackend(c, i, route, s);
      BackendErrorHere(c, i, route, controlled, s, f);
    }
  }

  /** The backend can serve, as far as the cluster tells: it is outside, or some
      endpoint takes traffic, none goes away and no selected Pod is missed. */
  predicate HealthyFacts(facts: Facts) {
    && facts.portFits && facts.controlled
    && (facts.outside || (facts.Fed() && facts.canServe && facts.missed == 0 && facts.goingAway == 0))
  }

  ghost predicate HealthyBackend(c: Cluster, i: Ingress, route: Route, controlled: bool) {
    exists s :: IsBackend(c, i, route, s) && HealthyFacts(FactsOf(c, controlled, s, route.servicePort))
  }

  lemma HealthyVerdict(facts: Facts, f: Finding)
    requires FactsCallFor(facts, f) && (facts.canServe ==> facts.hasEndpoint)
    requires (facts.chooses ==> facts.selecting) && (facts.readyPods > 0 ==> facts.chooses)
    ensures f.Healthy() <==> HealthyFacts(facts)
  {
  }

  lemma BackendHealthy(c: Cluster, i: Ingress, route: Route, controlled: bool, s: Service, f: Finding)
    requires UniqueServices(c.services) && IsBackend(c, i, route, s) && FactsCallFor(FactsOf(c, controlled, s, route.servicePort), f)
    ensures f.Healthy() <==> HealthyBackend(c, i, route, controlled)
  {
    StatsSay(c, s.key, ServiceStats(c.slices, c.endpoints, s.key));
    EndpointCollection.StatsAreBounded(c.slices, c.endpoints, s.key);
    ReadyIsChosen(c, s);
    HealthyVerdict(FactsOf(c, controlled, s, route.servicePort), f);
    forall t | IsBackend(c, i, route, t) ensures t == s {
      SameBackendSame(c, i, route, s, t);
    }
  }

  lemma BackendHealthyHere(c: Cluster, i: Ingress, route: Route, controlled: bool, s: Service, f: Finding)
    requires UniqueServices(c.services) && IsBackend(c, i, route, s) && route.resourceKind == "" && controlled == ControllerOf(c, i).Some?
    requires f == RouteDiagnosis(c, i, route)
    ensures f.Healthy() <==> HealthyBackend(c, i, route, controlled)
  {
    BackendDiagnosis(c, i, route, controlled, s, f);
    OneBackend(c, i, route, controlled, s, f);
    BackendHealthy(c, i, route, controlled, s, f);
  }

  lemma BacklessUnhealthy(c: Cluster, i: Ingress, route: Route, controlled: bool)
    requires Backless(c, i, route)
    ensures !HealthyBackend(c, i, route, controlled)
  {
  }

  /** The diagnosis is neither error nor warning exactly when the backend can
      serve. */
  lemma HealthyExactly(c: Cluster, i: Ingress, route: Route, controlled: bool, f: Finding)
    requires UniqueServices(c.services) && controlled == ControllerOf(c, i).Some? && f == RouteDiagnosis(c, i, route)
    ensures f.Healthy() <==> route.resourceKind == "" && HealthyBackend(c, i, route, controlled)
  {
    if route.resourceKind != "" {
      ResourceDiagnosis(c, i, route);
    } else if Backless(c, i, route) {
      MissingDiagnosis(c, i, route);
      BacklessUnhealthy(c, i, route, controlled);
    } else {
      var s :| s in c.services && IsBackend(c, i, route, s);
      BackendHealthyHere(c, i, route, controlled, s, f);
    }
  }
}
