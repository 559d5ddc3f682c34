/** Ingresses, their routes and their controllers, as BuildTopologyWithOptions
    adds them. */
module IngressBuild {
  import opened Collections
  import opened Kube
  import opened NodeIDs
  import opened EndpointModel
  import opened ControllerModel
  import opened Overlaps
  import opened Diagnosis
  import opened Topology
  import opened Builder
  import opened GraphBuilding
  import opened ControllerInference
  import EndpointCollection
  import OverlapRelation
  import Text

  /** What a build looks up by key, computed once. */
  datatype Lookups = Lookups(
    services: map<Key, Service>, pods: PodIndex, servicePods: map<Key, seq<Pod>>,
    classes: Classes, inference: Classes, stats: map<Key, Stats>, portPods: EndpointCollection.PortIndex)

  ghost predicate Faithful(x: Lookups, c: Cluster) {
    && x.services == Services(c)
    && x.pods == IndexPods(c.pods)
    && (forall k :: PodsAt(x.servicePods, k) == ServicePods(c, k))
    && x.classes == ClassesByName(c)
    && x.inference == InferenceClasses(c.ingresses, ClassesByName(c))
    && (forall k :: EndpointCollection.StatsAt(x.stats, k) == ServiceStats(c.slices, c.endpoints, k))
    && (forall k, p :: EndpointCollection.Listed(x.portPods, k, p) == PortPods(c.slices, c.endpoints, x.pods, k, p))
  }

  ghost predicate HasOverlaps(overlaps: map<NodeID, Overlap>, c: Cluster) {
    forall id :: OverlapAt(overlaps, id) == OverlapAt(ClusterOverlaps(c), id)
  }

  /** A missing key of the Service Pod cache reads as no Pods. */
  function PodsAt(m: map<Key, seq<Pod>>, k: Key): seq<Pod> {
    if k in m then m[k] else []
  }

  // ---- controllers from status addresses ----

  ghost predicate UniqueInputs(c: Cluster) {
    OverlapRelation.UniqueIngresses(c.ingresses) && UniqueServices(c.services)
  }

  /** A map with an entry for each Ingress handled so far that has a value. */
  ghost predicate Records(m: map<Key, NodeID>, done: seq<Ingress>, value: Ingress -> Option<NodeID>) {
    && (forall k :: k in m ==> exists i :: i in done && i.key == k)
    && (forall i :: i in done ==> Lookup(m, i.key) == value(i))
  }

  lemma RecordsStep(m: map<Key, NodeID>, done: seq<Ingress>, value: Ingress -> Option<NodeID>, i: Ingress)
    requires Records(m, done, value)
    requires forall j :: j in done ==> j.key != i.key
    ensures Records(if value(i).Some? then m[i.key := value(i).value] else m, done + [i], value)
  {
    var after := if value(i).Some? then m[i.key := value(i).value] else m;
    assert i in done + [i];
    forall k | k in after ensures exists j :: j in done + [i] && j.key == k {
      if k in m {
        var j :| j in done && j.key == k;
        assert j in done + [i];
      }
    }
  }

  /** The Services that own a status controller of the Ingresses handled. */
  ghost predicate Owns(owners: set<Key>, done: seq<Ingress>, value: Ingress -> Option<NodeID>) {
    forall k :: k in owners <==> exists i :: i in done && value(i) == Some(StatusControllerID(k))
  }

  lemma OwnsStep(owners: set<Key>, done: seq<Ingress>, value: Ingress -> Option<NodeID>, i: Ingress)
    requires Owns(owners, done, value)
    ensures Owns(if value(i).Some? && value(i).value.StatusControllerID? then owners + {value(i).value.service} else owners,
                 done + [i], value)
  {
    var after := if value(i).Some? && value(i).value.StatusControllerID? then owners + {value(i).value.service} else owners;
    assert i in done + [i];
    forall k ensures k in after <==> exists j :: j in done + [i] && value(j) == Some(StatusControllerID(k)) {
      if k in owners {
        var j :| j in done && value(j) == Some(StatusControllerID(k));
        assert j in done + [i];
      }
    }
  }

  ghost function ByStatus(c: Cluster): Ingress -> Option<NodeID> {
    (i: Ingress) => StatusController(c, i)
  }

  ghost function ByAnything(c: Cluster): Ingress -> Option<NodeID> {
    (i: Ingress) => ControllerOf(c, i)
  }

  method StatusControllerOf(i: Ingress, x: Lookups, addresses: map<string, seq<Service>>, ghost c: Cluster)
    returns (controller: Option<NodeID>)
    requires Faithful(x, c) && UniqueServices(c.services) && IndexesAddresses(addresses, c.services)
    ensures controller == StatusController(c, i)
  {
    var named := IngressControllerClassName(i, x.classes);
    if named.Some? {
      return None;
    }
    var service := IngressStatusControllerService(i, addresses, c.services);
    if service.None? {
      return None;
    }
    var s := service.value;
    var name := MatchingIngressClassName(s, PodsAt(x.servicePods, s.key), x.inference);
    if name.Some? {
      return Some(ClassControllerID(name.value));
    }
    return Some(StatusControllerID(s.key));
  }

  method AddStatusController(b: TopologyBuilder, i: Ingress, controller: Option<NodeID>, ghost c: Cluster)
    requires controller == StatusController(c, i)
    modifies b
    ensures b.Contents() == old(b.Contents()).Plus(StatusPiece(c)(i))
  {
    PlusEmpty(b.Contents());
    match controller
    case Some(StatusControllerID(service)) => b.AddNode(StatusControllerID(service), StatusControllerInfo(service));
    case _ =>
  }

  lemma NewKey(c: Cluster, n: nat)
    requires UniqueInputs(c) && n < |c.ingresses|
    ensures forall j :: j in c.ingresses[..n] ==> j.key != c.ingresses[n].key
  {
    forall j | j in c.ingresses[..n] ensures j.key != c.ingresses[n].key {
      var m :| 0 <= m < n && c.ingresses[m] == j;
      assert KeyText(c.ingresses[m].key) != KeyText(c.ingresses[n].key);
    }
  }

  /** The first loop over Ingresses: which have a controller by status, and which
      Services own one. */
  method InferStatusControllers(b: TopologyBuilder, ingresses: seq<Ingress>, x: Lookups, addresses: map<string, seq<Service>>,
                                ghost c: Cluster)
    returns (byIngress: map<Key, NodeID>, owners: set<Key>)
    requires ingresses == c.ingresses && Faithful(x, c) && UniqueInputs(c) && IndexesAddresses(addresses, c.services)
    modifies b
    ensures b.Contents() == old(b.Contents()).Plus(Sum(c.ingresses, StatusPiece(c)))
    ensures Records(byIngress, c.ingresses, ByStatus(c)) && Owns(owners, c.ingresses, ByStatus(c))
  {
    ghost var base := b.Contents();
    PlusEmpty(base);
    byIngress, owners := map[], {};
    for n := 0 to |ingresses|
      invariant b.Contents() == base.Plus(Sum(ingresses[..n], StatusPiece(c)))
      invariant Records(byIngress, ingresses[..n], ByStatus(c)) && Owns(owners, ingresses[..n], ByStatus(c))
    {
      var controller;
      controller, byIngress, owners := InferStatusController(ingresses[n], x, addresses, byIngress, owners, c, ingresses[..n], n);
      SumStep(base, ingresses, StatusPiece(c), n);
      AddStatusController(b, ingresses[n], controller, c);
    }
    WholePrefix(ingresses);
  }

  method InferStatusController(i: Ingress, x: Lookups, addresses: map<string, seq<Service>>, before: map<Key, NodeID>,
                               owning: set<Key>, ghost c: Cluster, ghost done: seq<Ingress>, ghost n: nat)
    returns (controller: Option<NodeID>, byIngress: map<Key, NodeID>, owners: set<Key>)
    requires Faithful(x, c) && UniqueInputs(c) && IndexesAddresses(addresses, c.services)
    requires n < |c.ingresses| && i == c.ingresses[n] && done == c.ingresses[..n]
    requires Records(before, done, ByStatus(c)) && Owns(owning, done, ByStatus(c))
    ensures controller == StatusController(c, i)
    ensures Records(byIngress, c.ingresses[..n + 1], ByStatus(c)) && Owns(owners, c.ingresses[..n + 1], ByStatus(c))
  {
    byIngress, owners := before, owning;
    controller := StatusControllerOf(i, x, addresses, c);
    Extend(c.ingresses, n);
    NewKey(c, n);
    RecordsStep(before, done, ByStatus(c), i);
    OwnsStep(owning, done, ByStatus(c), i);
    if controller.Some? {
      byIngress := byIngress[i.key := controller.value];
      if controller.value.StatusControllerID? {
        owners := owners + {controller.value.service};
      }
    }
  }

  method ControllerByIngress(i: Ingress, x: Lookups, byIngress: map<Key, NodeID>, ghost c: Cluster)
    returns (controller: Option<NodeID>, byClass: bool)
    requires Faithful(x, c) && Lookup(byIngress, i.key) == StatusController(c, i)
    ensures controller == ControllerOf(c, i) && byClass == ControllerClass(i, ClassesByName(c)).Some?
  {
    var named := IngressControllerClassName(i, x.classes);
    if named.Some? {
      return Some(ClassControllerID(named.value)), true;
    }
    return Lookup(byIngress, i.key), false;
  }

  /** controllerIDByIngress */
  method ControllersByIngress(ingresses: seq<Ingress>, x: Lookups, byIngress: map<Key, NodeID>, ghost c: Cluster)
    returns (controllers: Controllers)
    requires ingresses == c.ingresses && Faithful(x, c) && UniqueInputs(c) && Records(byIngress, c.ingresses, ByStatus(c))
    ensures controllers == IngressControllers(c)
  {
    controllers := map[];
    for n := 0 to |ingresses|
      invariant Records(controllers, ingresses[..n], ByAnything(c))
    {
      Extend(ingresses, n);
      NewKey(c, n);
      RecordsStep(controllers, ingresses[..n], ByAnything(c), ingresses[n]);
      var controller, _ := ControllerByIngress(ingresses[n], x, byIngress, c);
      if controller.Some? {
        controllers := controllers[ingresses[n].key := controller.value];
      }
    }
    WholePrefix(ingresses);
    ControllersAreThose(c, controllers);
  }

  lemma RecordsIndex(m: map<Key, NodeID>, ingresses: seq<Ingress>, value: Ingress -> Option<NodeID>, key: Ingress -> Option<Key>)
    requires Records(m, ingresses, value)
    requires forall i :: i in ingresses ==> key(i) == if value(i).Some? then Some(i.key) else None
    ensures m.Keys == IndexBy(ingresses, key).Keys
    ensures forall k :: k in m ==> value(IndexBy(ingresses, key)[k]) == Some(m[k])
  {
    IndexMember(ingresses, key);
    var indexed := IndexBy(ingresses, key);
    forall k ensures k in m <==> k in indexed {
      if k in m {
        var i :| i in ingresses && i.key == k;
        assert Lookup(m, i.key) == value(i);
        assert key(i) == Some(k);
      }
      if k in indexed {
        assert Lookup(m, indexed[k].key) == value(indexed[k]) && key(indexed[k]) == Some(k);
      }
    }
    forall k | k in m ensures value(indexed[k]) == Some(m[k]) {
      assert Lookup(m, indexed[k].key) == value(indexed[k]) && key(indexed[k]) == Some(k);
    }
  }

  lemma ControllersAt(c: Cluster, controllers: Controllers)
    requires controllers.Keys == IndexBy(c.ingresses, ControlledKey(c)).Keys
    requires forall k :: k in controllers ==> ByAnything(c)(IndexBy(c.ingresses, ControlledKey(c))[k]) == Some(controllers[k])
    ensures controllers == IngressControllers(c)
  {
    var controlled := IndexBy(c.ingresses, ControlledKey(c));
    forall k | k in controllers ensures ControllerOf(c, controlled[k]) == Some(controllers[k]) {
      assert ByAnything(c)(controlled[k]) == ControllerOf(c, controlled[k]);
    }
  }

  lemma ControllersAreThose(c: Cluster, controllers: Controllers)
    requires Records(controllers, c.ingresses, ByAnything(c))
    ensures controllers == IngressControllers(c)
  {
    RecordsIndex(controllers, c.ingresses, ByAnything(c), ControlledKey(c));
    ControllersAt(c, controllers);
  }

  // ---- routes ----

  /** One entry of the list ingressRoutes builds. */
  method AppendRoute(before: seq<Route>, entry: BackendEntry, ghost done: seq<BackendEntry>) returns (routes: seq<Route>)
    requires before == RoutesOf(done)
    ensures routes == RoutesOf(done + [entry])
  {
    routes := before;
    assert (done + [entry])[..|done|] == done;
    var service, resource := entry.backend.service, entry.backend.resource;
    if (service.None? || service.value.name == "") &&
       (resource.None? || resource.value.kind == "" || resource.value.name == "") {
      return;
    }
    routes := routes + [entry.ToRoute(|routes|)];
  }

  method AppendRule(before: seq<Route>, rule: Rule, ghost done: seq<BackendEntry>) returns (routes: seq<Route>)
    requires before == RoutesOf(done)
    ensures routes == RoutesOf(done + RuleEntries(rule))
  {
    routes := before;
    ghost var entries := RuleEntries(rule);
    assert done + entries[..0] == done;
    if rule.paths.None? {
      return;
    }
    var paths := rule.paths.value;
    for n := 0 to |paths|
      invariant routes == RoutesOf(done + entries[..n])
    {
      Extend(entries, n);
      var entry := PathEntry(rule.host)(paths[n]);
      assert done + entries[..n] + [entry] == done + entries[..n + 1];
      routes := AppendRoute(routes, entry, done + entries[..n]);
    }
    WholePrefix(entries);
  }

  method AppendDefault(i: Ingress) returns (routes: seq<Route>)
    ensures routes == RoutesOf(DefaultEntries(i))
  {
    routes := [];
    if i.defaultBackend.Some? {
      var entry := BackendEntry("", "", "", i.defaultBackend.value, true);
      assert [] + [entry] == DefaultEntries(i);
      routes := AppendRoute(routes, entry, []);
    }
  }

  lemma EntriesStep(first: seq<BackendEntry>, rules: seq<Rule>, n: nat)
    requires n < |rules|
    ensures first + FlatMap(rules[..n], RuleEntries) + RuleEntries(rules[n]) == first + FlatMap(rules[..n + 1], RuleEntries)
  {
    FlatMapStep(rules, RuleEntries, n);
  }

  /** ingressRoutes */
  method ListRoutes(i: Ingress) returns (routes: seq<Route>)
    ensures routes == IngressRoutes(i)
  {
    routes := AppendDefault(i);
    ghost var first := DefaultEntries(i);
    ghost var done := first;
    assert first + [] == first;
    for n := 0 to |i.rules|
      invariant done == first + FlatMap(i.rules[..n], RuleEntries) && routes == RoutesOf(done)
    {
      EntriesStep(first, i.rules, n);
      routes := AppendRule(routes, i.rules[n], done);
      done := done + RuleEntries(i.rules[n]);
    }
    WholePrefix(i.rules);
  }

  method DiagnoseRoute(i: Ingress, route: Route, hasController: bool, x: Lookups, ghost c: Cluster) returns (finding: Finding)
    requires Faithful(x, c) && hasController == ControllerOf(c, i).Some?
    ensures finding == RouteDiagnosis(c, i, route)
  {
    var key := Key(i.key.namespace, route.serviceName);
    var service, pods := Lookup(x.services, key), PodsAt(x.servicePods, key);
    var nonEndpointPods := 0;
    if service.Some? {
      var port := PortNameIn(service.value.ports, route.servicePort);
      if port.Some? {
        var listed := EndpointCollection.Listed(x.portPods, key, port.value);
        nonEndpointPods := EndpointCollection.CountNonEndpointPods(pods, listed);
      }
    }
    finding := Diagnose(route, hasController, service, pods, EndpointCollection.StatsAt(x.stats, key), nonEndpointPods);
  }

  method AddCanaries(b: TopologyBuilder, id: NodeID, links: seq<CanaryLink>, services: map<Key, Service>, ghost c: Cluster)
    requires services == Services(c)
    modifies b
    ensures b.Contents() == old(b.Contents()).Plus(Sum(links, CanaryPiece(c, id)))
  {
    ghost var base := b.Contents();
    PlusEmpty(base);
    for n := 0 to |links|
      invariant b.Contents() == base.Plus(Sum(links[..n], CanaryPiece(c, id)))
    {
      SumStep(base, links, CanaryPiece(c, id), n);
      PlusEmpty(b.Contents());
      var canary := links[n].canary;
      var key := Key(canary.ingress.key.namespace, canary.route.serviceName);
      if key in services {
        b.AddEdge(id, ServiceID(key), CanaryEdge, "canary " + canary.Rule());
      }
    }
    WholePrefix(links);
  }

  method AddRoute(b: TopologyBuilder, i: Ingress, route: Route, hasController: bool, x: Lookups,
                  overlaps: map<NodeID, Overlap>, ghost c: Cluster)
    requires Faithful(x, c) && hasController == ControllerOf(c, i).Some? && HasOverlaps(overlaps, c)
    modifies b
    ensures b.Contents() == old(b.Contents()).Plus(RoutePiece(c, i)(route))
  {
    ghost var base := b.Contents();
    var id, key := IngressRouteID(i.key, route.id), Key(i.key.namespace, route.serviceName);
    var finding := DiagnoseRoute(i, route, hasController, x, c);
    var overlap := OverlapAt(overlaps, id);
    finding := ApplyOverlap(finding, overlap);
    b.AddNode(id, IngressRouteInfo(route, finding, OverlapProperties(overlap, i.key, route)));
    AddCanaries(b, id, overlap.canaries, x.services, c);
    b.AddEdge(IngressID(i.key), id, Defines, route.EdgeLabel());
    PlusEmpty(b.Contents());
    if key in x.services {
      b.AddEdge(id, ServiceID(key), Routes, "HTTP backend");
    }
    Plus4(base, RouteNode(c, i, route), Sum(overlap.canaries, CanaryPiece(c, id)),
          OneEdge(IngressID(i.key), id, Defines, route.EdgeLabel()), RouteBackend(c, i, route));
  }

  method AddRoutes(b: TopologyBuilder, i: Ingress, hasController: bool, x: Lookups, overlaps: map<NodeID, Overlap>, ghost c: Cluster)
    requires Faithful(x, c) && hasController == ControllerOf(c, i).Some? && HasOverlaps(overlaps, c)
    modifies b
    ensures b.Contents() == old(b.Contents()).Plus(Sum(IngressRoutes(i), RoutePiece(c, i)))
  {
    ghost var base := b.Contents();
    PlusEmpty(base);
    var routes := ListRoutes(i);
    for n := 0 to |routes|
      invariant b.Contents() == base.Plus(Sum(routes[..n], RoutePiece(c, i)))
    {
      SumStep(base, routes, RoutePiece(c, i), n);
      AddRoute(b, i, routes[n], hasController, x, overlaps, c);
    }
    WholePrefix(routes);
  }

  // ---- one Ingress ----

  method AddAddress(b: TopologyBuilder, i: Ingress, address: string)
    modifies b
    ensures b.Contents() == old(b.Contents()).Plus(IngressAddressPiece(i)(address))
  {
    var id, info := IngressLBID(i.key, Text.SafeID(address)), AddressInfo(i.key, address, IngressProvider(i));
    PlusAssociative(b.Contents(), OneNode(id, info), OneEdge(id, IngressID(i.key), Fronts, "Ingress status"));
    b.AddNode(id, info);
    b.AddEdge(id, IngressID(i.key), Fronts, "Ingress status");
  }

  method AddAddresses(b: TopologyBuilder, i: Ingress)
    modifies b
    ensures b.Contents() == old(b.Contents()).Plus(Sum(IngressAddresses(i), IngressAddressPiece(i)))
  {
    ghost var base := b.Contents();
    PlusEmpty(base);
    var addresses := IngressAddresses(i);
    for n := 0 to |addresses|
      invariant b.Contents() == base.Plus(Sum(addresses[..n], IngressAddressPiece(i)))
    {
      SumStep(base, addresses, IngressAddressPiece(i), n);
      AddAddress(b, i, addresses[n]);
    }
    WholePrefix(addresses);
  }

  method AddController(b: TopologyBuilder, i: Ingress, x: Lookups, byIngress: map<Key, NodeID>, ghost c: Cluster)
    returns (hasController: bool)
    requires Faithful(x, c) && Lookup(byIngress, i.key) == StatusController(c, i)
    modifies b
    ensures b.Contents() == old(b.Contents()).Plus(ControllerPiece(c, i))
    ensures hasController == ControllerOf(c, i).Some?
  {
    var controller, byClass := ControllerByIngress(i, x, byIngress, c);
    hasController := controller.Some?;
    PlusEmpty(b.Contents());
    if hasController {
      b.AddEdge(controller.value, IngressID(i.key), Controls, if byClass then "IngressClass" else "Ingress status");
    }
  }

  method AddIngress(b: TopologyBuilder, i: Ingress, x: Lookups, byIngress: map<Key, NodeID>, overlaps: map<NodeID, Overlap>,
                    ghost c: Cluster)
    requires Faithful(x, c) && HasOverlaps(overlaps, c) && Lookup(byIngress, i.key) == StatusController(c, i)
    modifies b
    ensures b.Contents() == old(b.Contents()).Plus(IngressPiece(c)(i))
  {
    ghost var base := b.Contents();
    var id := IngressID(i.key);
    b.AddNode(id, IngressInfo(i));
    b.AddHosts(IngressHosts(i), id);
    AddAddresses(b, i);
    var hasController := AddController(b, i, x, byIngress, c);
    AddRoutes(b, i, hasController, x, overlaps, c);
    Plus5(base, OneNode(id, IngressInfo(i)), Sum(IngressHosts(i), DNSPiece(id)), Sum(IngressAddresses(i), IngressAddressPiece(i)),
          ControllerPiece(c, i), Sum(IngressRoutes(i), RoutePiece(c, i)));
  }

  lemma Recorded(m: map<Key, NodeID>, c: Cluster, i: Ingress)
    requires Records(m, c.ingresses, ByStatus(c)) && i in c.ingresses
    ensures Lookup(m, i.key) == StatusController(c, i)
  {
    assert Lookup(m, i.key) == ByStatus(c)(i);
  }

  /** One round of the second loop over Ingresses. */
  method AddNext(b: TopologyBuilder, ingresses: seq<Ingress>, n: nat, x: Lookups, byIngress: map<Key, NodeID>,
                 overlaps: map<NodeID, Overlap>, ghost c: Cluster, ghost base: Graph)
    requires ingresses == c.ingresses && n < |ingresses| && Faithful(x, c) && HasOverlaps(overlaps, c)
    requires Records(byIngress, c.ingresses, ByStatus(c))
    requires b.Contents() == base.Plus(Sum(ingresses[..n], IngressPiece(c)))
    modifies b
    ensures b.Contents() == base.Plus(Sum(ingresses[..n + 1], IngressPiece(c)))
  {
    Recorded(byIngress, c, ingresses[n]);
    SumStep(base, ingresses, IngressPiece(c), n);
    AddIngress(b, ingresses[n], x, byIngress, overlaps, c);
  }

  method AddIngresses(b: TopologyBuilder, ingresses: seq<Ingress>, x: Lookups, byIngress: map<Key, NodeID>,
                      overlaps: map<NodeID, Overlap>, ghost c: Cluster)
    requires ingresses == c.ingresses && Faithful(x, c) && HasOverlaps(overlaps, c)
    requires Records(byIngress, c.ingresses, ByStatus(c))
    modifies b
    ensures b.Contents() == old(b.Contents()).Plus(Sum(c.ingresses, IngressPiece(c)))
  {
    ghost var base := b.Contents();
    PlusEmpty(base);
    for n := 0 to |ingresses|
      invariant b.Contents() == base.Plus(Sum(ingresses[..n], IngressPiece(c)))
    {
      AddNext(b, ingresses, n, x, byIngress, overlaps, c, base);
    }
    WholePrefix(ingresses);
  }
}
