/** The routes of an Ingress told by its rules: every default backend and every
    path that names a Service or a resource, and nothing else. */
module IngressFields {
  import opened Collections
  import opened Kube
  import opened Builder
  import opened PublishedServices

  /** The route carries what the backend names. */
  predicate Carries(r: Route, b: Backend) {
    && r.serviceName == (if b.service.Some? then b.service.value.name else "")
    && r.servicePort == (if b.service.Some? then b.service.value.port else PortRef("", 0))
    && r.resourceKind == (if b.resource.Some? then b.resource.value.kind else "")
    && r.resourceName == (if b.resource.Some? then b.resource.value.name else "")
    && (r.serviceName != "" || (r.resourceKind != "" && r.resourceName != ""))
  }

  /** The route of the default backend. */
  predicate IsDefaultRoute(i: Ingress, r: Route) {
    && i.defaultBackend.Some? && Carries(r, i.defaultBackend.value)
    && r.isDefault && r.host == "" && r.path == "" && r.pathType == ""
  }

  /** The route of one path of one rule. */
  predicate IsPathRoute(i: Ingress, rule: Rule, p: HTTPPath, r: Route) {
    && rule in i.rules && rule.paths.Some? && p in rule.paths.value && Carries(r, p.backend)
    && !r.isDefault && r.host == rule.host && r.path == p.path
    && r.pathType == if p.pathType.Some? then p.pathType.value else ""
  }

  ghost predicate HasRoute(i: Ingress, r: Route) {
    IsDefaultRoute(i, r) || exists rule, p :: IsPathRoute(i, rule, p, r)
  }

  /** The route is that of some entry, whatever its number. */
  ghost predicate OfEntry(entries: seq<BackendEntry>, r: Route) {
    exists e :: e in entries && e.Routable() && e.ToRoute(r.id) == r
  }

  ghost predicate Numbered(routes: seq<Route>, r: Route) {
    exists n: nat :: r.(id := n) in routes
  }

  lemma {:induction false} EntryRoutes(entries: seq<BackendEntry>, r: Route)
    ensures Numbered(RoutesOf(entries), r) <==> OfEntry(entries, r)
  {
    if entries != [] {
      var front, e := entries[..|entries| - 1], entries[|entries| - 1];
      var routes := RoutesOf(front);
      EntryRoutes(front, r);
      assert entries == front + [e];
      assert OfEntry(entries, r) <==> OfEntry(front, r) || (e.Routable() && e.ToRoute(r.id) == r);
      if e.Routable() {
        assert RoutesOf(entries) == routes + [e.ToRoute(|routes|)];
        LastNumbered(routes, e.ToRoute(|routes|), r);
        assert e.ToRoute(r.id) == r <==> e.ToRoute(|routes|) == r.(id := |routes|);
      }
    }
  }

  lemma LastNumbered(routes: seq<Route>, last: Route, r: Route)
    ensures Numbered(routes + [last], r) <==> Numbered(routes, r) || last == r.(id := last.id)
  {
    if n: nat :| r.(id := n) in routes + [last] {
      assert r.(id := n) in routes || r.(id := n) == last;
    }
    if n: nat :| r.(id := n) in routes {
      assert r.(id := n) in routes + [last];
    }
    assert last in routes + [last];
  }

  lemma EntryMeans(e: BackendEntry, r: Route)
    ensures e.Routable() && e.ToRoute(r.id) == r <==>
              && Carries(r, e.backend) && r.isDefault == e.isDefault
              && r.host == e.host && r.path == e.path && r.pathType == e.pathType
  {
  }

  lemma RuleEntryMeans(rule: Rule, e: BackendEntry)
    ensures e in RuleEntries(rule) <==> rule.paths.Some? && exists p :: p in rule.paths.value && e == PathEntry(rule.host)(p)
  {
    if rule.paths.Some? {
      var paths := rule.paths.value;
      if p :| p in paths && e == PathEntry(rule.host)(p) {
        var k :| 0 <= k < |paths| && paths[k] == p;
        assert RuleEntries(rule)[k] == e;
      }
    }
  }

  lemma EntriesMean(i: Ingress, r: Route)
    ensures OfEntry(BackendEntries(i), r) <==> HasRoute(i, r)
  {
    FlatMapMember(i.rules, RuleEntries);
    if e :| e in BackendEntries(i) && e.Routable() && e.ToRoute(r.id) == r {
      EntryMeans(e, r);
      if e in FlatMap(i.rules, RuleEntries) {
        var rule :| rule in i.rules && e in RuleEntries(rule);
        RuleEntryMeans(rule, e);
        var p :| p in rule.paths.value && e == PathEntry(rule.host)(p);
        assert IsPathRoute(i, rule, p, r);
      }
    }
    if IsDefaultRoute(i, r) {
      var e := BackendEntry("", "", "", i.defaultBackend.value, true);
      EntryMeans(e, r);
      assert e in DefaultEntries(i);
      assert e in BackendEntries(i);
    }
    if rule, p :| IsPathRoute(i, rule, p, r) {
      var e := PathEntry(rule.host)(p);
      RuleEntryMeans(rule, e);
      EntryMeans(e, r);
      assert e in FlatMap(i.rules, RuleEntries);
    }
  }

  /** Exactly which routes an Ingress has, apart from their numbers. */
  lemma RoutesExactly(i: Ingress, r: Route)
    ensures Numbered(IngressRoutes(i), r) <==> HasRoute(i, r)
  {
    EntryRoutes(BackendEntries(i), r);
    EntriesMean(i, r);
  }

  // ---- the Services an Ingress names ----

  predicate BackendNames(b: Backend, name: string) {
    b.service.Some? && b.service.value.name == name
  }

  /** The default backend or a path of the Ingress names the Service. */
  ghost predicate IngressNames(i: Ingress, service: Key) {
    && i.key.namespace == service.namespace
    && ((i.defaultBackend.Some? && BackendNames(i.defaultBackend.value, service.name))
        || exists rule, p :: rule in i.rules && PathNames(rule, p, service.name))
  }

  predicate PathNames(rule: Rule, p: HTTPPath, name: string) {
    rule.paths.Some? && p in rule.paths.value && BackendNames(p.backend, name)
  }

  function RouteFor(host: string, path: string, pathType: string, b: Backend, isDefault: bool): Route {
    BackendEntry(host, path, pathType, b, isDefault).ToRoute(0)
  }

  lemma RouteNames(i: Ingress, service: Key)
    requires service.name != ""
    ensures (exists route :: NamesService(i, route, service)) <==> IngressNames(i, service)
  {
    if route :| NamesService(i, route, service) {
      assert route.(id := route.id) in IngressRoutes(i);
      RoutesExactly(i, route);
      if !IsDefaultRoute(i, route) {
        var rule, p :| IsPathRoute(i, rule, p, route);
        assert rule in i.rules && PathNames(rule, p, service.name);
      }
    }
    if IngressNames(i, service) {
      var r: Route;
      if i.defaultBackend.Some? && BackendNames(i.defaultBackend.value, service.name) {
        r := RouteFor("", "", "", i.defaultBackend.value, true);
        assert IsDefaultRoute(i, r);
      } else {
        var rule, p :| rule in i.rules && PathNames(rule, p, service.name);
        r := RouteFor(rule.host, p.path, if p.pathType.Some? then p.pathType.value else "", p.backend, false);
        assert IsPathRoute(i, rule, p, r);
      }
      RoutesExactly(i, r);
      var n: nat :| r.(id := n) in IngressRoutes(i);
      assert NamesService(i, r.(id := n), service);
    }
  }

  /** A Service is named by an Ingress exactly when a default backend or a path of
      an Ingress of its namespace names it. */
  lemma NamedByIngressExactly(c: Cluster, service: Key)
    requires service.name != ""
    ensures NamedByIngress(c, service) <==> exists i :: i in c.ingresses && IngressNames(i, service)
  {
    forall i ensures (exists route :: NamesService(i, route, service)) <==> IngressNames(i, service) {
      RouteNames(i, service);
    }
  }
}
