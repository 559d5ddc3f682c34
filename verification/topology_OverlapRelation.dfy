/** The overlap passes against the short relation they stand for: which routes
    compete, which one is served, which canaries split which route. */
module OverlapRelation {
  import opened Collections
  import opened Kube
  import opened NodeIDs
  import opened Overlaps
  import opened OverlapMembers
  import Sorting

  /** Ingress names are unique, as `namespace/name` texts. */
  ghost predicate UniqueIngresses(ingresses: seq<Ingress>) {
    forall i, j :: 0 <= i < j < |ingresses| ==> KeyText(ingresses[i].key) != KeyText(ingresses[j].key)
  }

  lemma SameKeySameIngress(ingresses: seq<Ingress>, a: Ingress, b: Ingress)
    requires UniqueIngresses(ingresses) && a in ingresses && b in ingresses
    ensures KeyText(a.key) == KeyText(b.key) ==> a == b
  {
    var i :| 0 <= i < |ingresses| && ingresses[i] == a;
    var j :| 0 <= j < |ingresses| && ingresses[j] == b;
  }

  // ---- members ----

  /** The route is the first of its Ingress's routes at its location. */
  ghost predicate FirstListed(controller: NodeID, routes: seq<Route>, route: Route) {
    exists k :: 0 <= k < |routes| && routes[k] == route && FirstAt(controller, routes, k)
  }

  ghost predicate FirstAt(controller: NodeID, routes: seq<Route>, k: nat)
    requires k < |routes|
  {
    forall j :: 0 <= j < k && !routes[j].isDefault ==> LocationOf(controller, routes[j]) != LocationOf(controller, routes[k])
  }

  ghost predicate ListsAt(controller: NodeID, routes: seq<Route>, location: Location) {
    exists k :: 0 <= k < |routes| && !routes[k].isDefault && LocationOf(controller, routes[k]) == location
  }

  lemma ListsAtStep(controller: NodeID, routes: seq<Route>, location: Location)
    requires routes != []
    ensures
      var n := |routes| - 1;
      ListsAt(controller, routes, location) <==>
        ListsAt(controller, routes[..n], location) || (!routes[n].isDefault && LocationOf(controller, routes[n]) == location)
  {
    var n := |routes| - 1;
    if ListsAt(controller, routes[..n], location) {
      var k :| 0 <= k < n && !routes[..n][k].isDefault && LocationOf(controller, routes[..n][k]) == location;
      assert !routes[k].isDefault && LocationOf(controller, routes[k]) == location;
    }
    if ListsAt(controller, routes, location) {
      var k :| 0 <= k < |routes| && !routes[k].isDefault && LocationOf(controller, routes[k]) == location;
      if k < n {
        assert !routes[..n][k].isDefault && LocationOf(controller, routes[..n][k]) == location;
      }
    }
  }

  lemma HasMemberAppend(members: seq<Member>, m: Member, location: Location)
    ensures HasMemberAt(members + [m], location) <==> HasMemberAt(members, location) || m.location == location
  {
    if HasMemberAt(members, location) {
      var x :| x in members && x.location == location;
      assert x in members + [m];
    }
    assert m in members + [m];
  }

  lemma {:induction false} FirstMembersLocations(i: Ingress, controller: NodeID, routes: seq<Route>, location: Location)
    ensures HasMemberAt(FirstMembers(i, controller, routes), location) <==> ListsAt(controller, routes, location)
  {
    if routes != [] {
      var last := routes[|routes| - 1];
      var earlier := FirstMembers(i, controller, routes[..|routes| - 1]);
      FirstMembersLocations(i, controller, routes[..|routes| - 1], location);
      ListsAtStep(controller, routes, location);
      HasMemberAppend(earlier, Member(i, last, LocationOf(controller, last)), location);
    }
  }

  lemma FirstAtLast(controller: NodeID, routes: seq<Route>)
    requires routes != []
    ensures
      var n := |routes| - 1;
      FirstAt(controller, routes, n) <==> !ListsAt(controller, routes[..n], LocationOf(controller, routes[n]))
  {
    var n := |routes| - 1;
    forall j | 0 <= j < n ensures routes[..n][j] == routes[j] {
    }
  }

  lemma {:induction false} FirstMembersExactly(i: Ingress, controller: NodeID, routes: seq<Route>, m: Member)
    ensures m in FirstMembers(i, controller, routes) <==>
              && m.ingress == i && m.location == LocationOf(controller, m.route) && !m.route.isDefault
              && FirstListed(controller, routes, m.route)
  {
    if routes != [] {
      var n := |routes| - 1;
      FirstMembersExactly(i, controller, routes[..n], m);
      FirstMembersLocations(i, controller, routes[..n], LocationOf(controller, routes[n]));
      FirstListedStep(controller, routes, m.route);
      FirstAtLast(controller, routes);
      var earlier := FirstMembers(i, controller, routes[..n]);
      assert forall x :: x in earlier + [Member(i, routes[n], LocationOf(controller, routes[n]))] <==>
          x in earlier || x == Member(i, routes[n], LocationOf(controller, routes[n]));
    }
  }

  lemma FirstAtFront(controller: NodeID, routes: seq<Route>, n: nat, k: nat)
    requires k < n <= |routes|
    ensures FirstAt(controller, routes[..n], k) <==> FirstAt(controller, routes, k)
  {
    assert forall j :: 0 <= j < n ==> routes[..n][j] == routes[j];
  }

  lemma FirstListedStep(controller: NodeID, routes: seq<Route>, route: Route)
    requires routes != []
    ensures
      var n := |routes| - 1;
      FirstListed(controller, routes, route) <==>
        FirstListed(controller, routes[..n], route) || (routes[n] == route && FirstAt(controller, routes, n))
  {
    var n := |routes| - 1;
    var front := routes[..n];
    if FirstListed(controller, front, route) {
      var k :| 0 <= k < |front| && front[k] == route && FirstAt(controller, front, k);
      FirstAtFront(controller, routes, n, k);
      assert routes[k] == route;
    }
    if FirstListed(controller, routes, route) {
      var k :| 0 <= k < |routes| && routes[k] == route && FirstAt(controller, routes, k);
      if k < n {
        FirstAtFront(controller, routes, n, k);
        assert front[k] == route;
      }
    }
  }

  /** Exactly which routes take part in overlaps. */
  lemma MembersExactly(ingresses: seq<Ingress>, controllers: Controllers, m: Member)
    ensures m in Members(ingresses, controllers) <==>
              && m.ingress in ingresses && m.ingress.key in controllers
              && !m.route.isDefault
              && m.location == LocationOf(controllers[m.ingress.key], m.route)
              && FirstListed(controllers[m.ingress.key], IngressRoutes(m.ingress), m.route)
  {
    FlatMapMember(ingresses, MembersOf(controllers));
    if m.ingress.key in controllers {
      FirstMembersExactly(m.ingress, controllers[m.ingress.key], IngressRoutes(m.ingress), m);
    }
    if m in Members(ingresses, controllers) {
      var i :| i in ingresses && m in MembersOf(controllers)(i);
      FirstMembersExactly(i, controllers[i.key], IngressRoutes(i), m);
    } else if m.ingress in ingresses && m.ingress.key in controllers {
      assert m !in MembersOf(controllers)(m.ingress);
    }
  }

  lemma FirstListedOnce(controller: NodeID, routes: seq<Route>, a: Route, b: Route)
    requires FirstListed(controller, routes, a) && FirstListed(controller, routes, b)
    requires !a.isDefault && !b.isDefault && LocationOf(controller, a) == LocationOf(controller, b)
    ensures a == b
  {
    var j :| 0 <= j < |routes| && routes[j] == a && FirstAt(controller, routes, j);
    var k :| 0 <= k < |routes| && routes[k] == b && FirstAt(controller, routes, k);
  }

  lemma RouteIDsDiffer(i: Ingress, a: Route, b: Route)
    requires a in IngressRoutes(i) && b in IngressRoutes(i) && a.id == b.id
    ensures a == b
  {
    RoutesWellFormed(BackendEntries(i));
    var j :| 0 <= j < |IngressRoutes(i)| && IngressRoutes(i)[j] == a;
    var k :| 0 <= k < |IngressRoutes(i)| && IngressRoutes(i)[k] == b;
  }

  /** A node ID names at most one member. */
  lemma MemberByID(ingresses: seq<Ingress>, controllers: Controllers, a: Member, b: Member)
    requires UniqueIngresses(ingresses)
    requires a in Members(ingresses, controllers) && b in Members(ingresses, controllers) && a.ID() == b.ID()
    ensures a == b
  {
    MembersFrom(ingresses, controllers);
    SameKeySameIngress(ingresses, a.ingress, b.ingress);
    RouteIDsDiffer(a.ingress, a.route, b.route);
  }

  /** At one location, an Ingress has at most one member. */
  lemma MemberByIngress(ingresses: seq<Ingress>, controllers: Controllers, a: Member, b: Member)
    requires UniqueIngresses(ingresses)
    requires a in Members(ingresses, controllers) && b in Members(ingresses, controllers)
    requires a.location == b.location && a.ingress.key == b.ingress.key
    ensures a == b
  {
    MembersExactly(ingresses, controllers, a);
    MembersExactly(ingresses, controllers, b);
    SameKeySameIngress(ingresses, a.ingress, b.ingress);
    FirstListedOnce(controllers[a.ingress.key], IngressRoutes(a.ingress), a.route, b.route);
  }

  // ---- conflicts ----

  /** Another Ingress's route for the same requests. */
  predicate Competes(m: Member, o: Member) {
    o.location == m.location && o.ingress.key != m.ingress.key
  }

  lemma ConflictsExactly(ingresses: seq<Ingress>, controllers: Controllers, m: Member, o: Member)
    requires UniqueIngresses(ingresses) && m in Members(ingresses, controllers)
    ensures
      var all := Members(ingresses, controllers);
      && (o in OverlapOf(all, m).primaries <==> o in all && Competes(m, o) && !o.Canary())
      && (o in OverlapOf(all, m).locationCanaries <==> o in all && Competes(m, o) && o.Canary())
  {
    var all := Members(ingresses, controllers);
    var group := Filter(all, IsAt(m.location));
    FilterMember(all, IsAt(m.location));
    FilterMember(group, OtherPrimary(m));
    FilterMember(group, OtherCanary(m));
    if o in all && o.location == m.location && o.ingress.key == m.ingress.key {
      MemberByIngress(ingresses, controllers, m, o);
    }
  }

  /** Two primaries name each other. */
  lemma ConflictsAreSymmetric(ingresses: seq<Ingress>, controllers: Controllers, a: Member, b: Member)
    requires UniqueIngresses(ingresses)
    requires a in Members(ingresses, controllers) && b in Members(ingresses, controllers)
    requires !a.Canary() && !b.Canary()
    ensures
      var all := Members(ingresses, controllers);
      a in OverlapOf(all, b).primaries <==> b in OverlapOf(all, a).primaries
  {
    ConflictsExactly(ingresses, controllers, a, b);
    ConflictsExactly(ingresses, controllers, b, a);
  }

  /** A canary lists the other Ingresses' canaries with its own upstream. */
  lemma SharedExactly(all: seq<Member>, m: Member, o: Member)
    requires m in all && m.Canary()
    ensures o in OverlapOf(all, m).sharedService <==>
              && o in all && o.Canary() && o.ingress.key != m.ingress.key
              && m.Upstream().Some? && o.Upstream() == m.Upstream()
  {
    CanaryMember(all, o);
    if m.Upstream().Some? {
      var using := Filter(AllCanaries(all), UsesUpstream(m.Upstream().value));
      FilterMember(AllCanaries(all), UsesUpstream(m.Upstream().value));
      FilterMember(using, FromOtherIngress(m));
    }
  }

  /** A route receives a canary exactly when it shares the upstream of the
      Ingress served at the canary's location, whatever its own host. */
  lemma CanariesExactly(all: seq<Member>, m: Member, l: CanaryLink)
    ensures l in OverlapOf(all, m).canaries <==>
              && !m.Canary() && m.Upstream().Some?
              && l.canary in all && l.canary.Canary()
              && Oldest(all, l.canary.location) == Some(l.primary)
              && l.primary.Upstream() == m.Upstream()
  {
    LinkMember(all, l);
    LocationsMember(all);
    if m.Upstream().Some? {
      FilterMember(AllLinks(all), SplitsUpstream(m.Upstream().value));
    }
  }

  // ---- the oldest primary ----

  lemma OlderIsOrder(a: Member, b: Member, c: Member)
    ensures !(Older(a, b) && Older(b, a))
    ensures !Older(a, b) && !Older(b, c) ==> !Older(a, c)
    ensures KeyText(a.ingress.key) != KeyText(b.ingress.key) ==> Older(a, b) || Older(b, a)
  {
    Sorting.BeforeIsStrictOrder();
    var x, y, z := KeyText(a.ingress.key), KeyText(b.ingress.key), KeyText(c.ingress.key);
    assert Sorting.Before(x, z) && x != y ==> Sorting.Before(x, y) || Sorting.Before(y, x);
  }

  lemma OlderIsWeakOrder()
    ensures Sorting.WeakOrder(Older)
  {
    forall a, b, c ensures !(Older(a, b) && Older(b, a)) && (!Older(a, b) && !Older(b, c) ==> !Older(a, c)) {
      OlderIsOrder(a, b, c);
    }
  }

  /** The served Ingress is the unique oldest primary of the location. */
  lemma OldestExactly(ingresses: seq<Ingress>, controllers: Controllers, location: Location, o: Member)
    requires UniqueIngresses(ingresses)
    ensures
      var all := Members(ingresses, controllers);
      Oldest(all, location) == Some(o) <==>
        && o in all && o.location == location && !o.Canary()
        && forall p :: p in all && p.location == location && !p.Canary() && p != o ==> Older(o, p)
  {
    var all := Members(ingresses, controllers);
    var primaries := Filter(all, IsPrimaryAt(location));
    FilterMember(all, IsPrimaryAt(location));
    if primaries != [] {
      OlderIsWeakOrder();
      Sorting.SortedHead(primaries, Older);
      var head := Sorting.SortBy(primaries, Older)[0];
      forall p | p in primaries && p != head ensures Older(head, p) {
        if KeyText(p.ingress.key) == KeyText(head.ingress.key) {
          MembersFrom(ingresses, controllers);
          SameKeySameIngress(ingresses, p.ingress, head.ingress);
          MemberByIngress(ingresses, controllers, p, head);
        }
        OlderIsOrder(head, p, p);
      }
      OlderIsOrder(head, o, o);
    }
  }

  // ---- what each route node gets ----

  lemma AffectedMember(ingresses: seq<Ingress>, controllers: Controllers, m: Member, affected: map<NodeID, Member>)
    requires UniqueIngresses(ingresses) && m in Members(ingresses, controllers)
    requires affected == IndexBy(Members(ingresses, controllers), AffectedID(Members(ingresses, controllers)))
    ensures m.ID() in affected <==> OverlapOf(Members(ingresses, controllers), m).hasSelf
    ensures m.ID() in affected ==> affected[m.ID()] == m
  {
    var all := Members(ingresses, controllers);
    IndexMember(all, AffectedID(all));
    if m.ID() in affected {
      MemberByID(ingresses, controllers, affected[m.ID()], m);
    }
  }

  lemma OverlapLookup(all: seq<Member>, affected: map<NodeID, Member>, id: NodeID)
    requires affected == IndexBy(all, AffectedID(all))
    ensures OverlapAt(RouteOverlaps(all), id) == if id in affected then OverlapOf(all, affected[id]) else NO_OVERLAP
  {
  }

  lemma OverlapOfMember(ingresses: seq<Ingress>, controllers: Controllers, m: Member)
    requires UniqueIngresses(ingresses) && m in Members(ingresses, controllers)
    ensures
      var all := Members(ingresses, controllers);
      OverlapAt(RouteOverlaps(all), m.ID()) == if OverlapOf(all, m).hasSelf then OverlapOf(all, m) else NO_OVERLAP
  {
    var all := Members(ingresses, controllers);
    var affected := IndexBy(all, AffectedID(all));
    AffectedMember(ingresses, controllers, m, affected);
    OverlapLookup(all, affected, m.ID());
  }

  lemma OverlapOfOther(ingresses: seq<Ingress>, controllers: Controllers, id: NodeID)
    requires forall m :: m in Members(ingresses, controllers) ==> m.ID() != id
    ensures OverlapAt(RouteOverlaps(Members(ingresses, controllers)), id) == NO_OVERLAP
  {
    var all := Members(ingresses, controllers);
    IndexMember(all, AffectedID(all));
  }

  /** Some other Ingress has a non-canary route for the same controller, host,
      path and path type. */
  ghost predicate HasRival(ingresses: seq<Ingress>, controllers: Controllers, i: Ingress, route: Route) {
    && i.key in controllers && !route.isDefault
    && exists j, q :: Rival(ingresses, controllers, i, route, j, q)
  }

  ghost predicate Rival(ingresses: seq<Ingress>, controllers: Controllers, i: Ingress, route: Route, j: Ingress, q: Route) {
    && j in ingresses && j.key != i.key && j.canaryRule.None? && j.key in controllers && i.key in controllers
    && q in IngressRoutes(j) && !q.isDefault
    && LocationOf(controllers[j.key], q) == LocationOf(controllers[i.key], route)
  }

  ghost predicate ShowsConflict(ingresses: seq<Ingress>, controllers: Controllers, i: Ingress, route: Route) {
    OverlapAt(RouteOverlaps(Members(ingresses, controllers)), IngressRouteID(i.key, route.id)).primaries != []
  }

  lemma {:induction false} FirstListedExists(controller: NodeID, routes: seq<Route>, k: nat) returns (first: Route)
    requires k < |routes| && !routes[k].isDefault
    ensures FirstListed(controller, routes, first) && !first.isDefault && first in routes
    ensures LocationOf(controller, first) == LocationOf(controller, routes[k])
  {
    if FirstAt(controller, routes, k) {
      first := routes[k];
    } else {
      var j :| 0 <= j < k && !routes[j].isDefault && LocationOf(controller, routes[j]) == LocationOf(controller, routes[k]);
      first := FirstListedExists(controller, routes, j);
    }
  }

  lemma RivalMember(ingresses: seq<Ingress>, controllers: Controllers, i: Ingress, route: Route, j: Ingress, q: Route)
    returns (o: Member)
    requires Rival(ingresses, controllers, i, route, j, q)
    ensures o in Members(ingresses, controllers) && o.ingress == j && !o.Canary()
    ensures o.location == LocationOf(controllers[i.key], route)
  {
    var k :| 0 <= k < |IngressRoutes(j)| && IngressRoutes(j)[k] == q;
    var first := FirstListedExists(controllers[j.key], IngressRoutes(j), k);
    o := Member(j, first, LocationOf(controllers[j.key], first));
    MembersExactly(ingresses, controllers, o);
  }

  /** The route takes part in overlaps: its Ingress has a controller, and it is no
      default backend and the first its Ingress lists for the location. */
  ghost predicate TakesPart(controllers: Controllers, i: Ingress, route: Route) {
    i.key in controllers && !route.isDefault && FirstListed(controllers[i.key], IngressRoutes(i), route)
  }

  lemma NoPartNoOverlap(ingresses: seq<Ingress>, controllers: Controllers, i: Ingress, route: Route)
    requires UniqueIngresses(ingresses) && i in ingresses && route in IngressRoutes(i) && !TakesPart(controllers, i, route)
    ensures OverlapAt(RouteOverlaps(Members(ingresses, controllers)), IngressRouteID(i.key, route.id)) == NO_OVERLAP
  {
    forall m | m in Members(ingresses, controllers) ensures m.ID() != IngressRouteID(i.key, route.id) {
      MembersExactly(ingresses, controllers, m);
      if m.ID() == IngressRouteID(i.key, route.id) {
        SameKeySameIngress(ingresses, m.ingress, i);
        MembersFrom(ingresses, controllers);
        RouteIDsDiffer(i, m.route, route);
      }
    }
    OverlapOfOther(ingresses, controllers, IngressRouteID(i.key, route.id));
  }

  /** A route that takes part gets the overlap of its own member, if it has one. */
  lemma PartOverlap(ingresses: seq<Ingress>, controllers: Controllers, i: Ingress, route: Route) returns (m: Member)
    requires UniqueIngresses(ingresses) && i in ingresses && TakesPart(controllers, i, route)
    ensures m == Member(i, route, LocationOf(controllers[i.key], route)) && m in Members(ingresses, controllers)
    ensures
      var all := Members(ingresses, controllers);
      OverlapAt(RouteOverlaps(all), IngressRouteID(i.key, route.id)) ==
        if OverlapOf(all, m).hasSelf then OverlapOf(all, m) else NO_OVERLAP
  {
    m := Member(i, route, LocationOf(controllers[i.key], route));
    MembersExactly(ingresses, controllers, m);
    OverlapOfMember(ingresses, controllers, m);
  }

  /** A route shows a conflict exactly when it has a rival and is the first
      route its own Ingress lists for that location. */
  lemma ConflictShownExactly(ingresses: seq<Ingress>, controllers: Controllers, i: Ingress, route: Route)
    requires UniqueIngresses(ingresses) && i in ingresses && route in IngressRoutes(i)
    ensures ShowsConflict(ingresses, controllers, i, route) <==>
              HasRival(ingresses, controllers, i, route) && FirstListed(controllers[i.key], IngressRoutes(i), route)
  {
    var all := Members(ingresses, controllers);
    if TakesPart(controllers, i, route) {
      var m := PartOverlap(ingresses, controllers, i, route);
      var rivals := OverlapOf(all, m).primaries;
      if rivals != [] {
        var o := rivals[0];
        ConflictsExactly(ingresses, controllers, m, o);
        MembersFrom(ingresses, controllers);
        assert Rival(ingresses, controllers, i, route, o.ingress, o.route);
      }
      if HasRival(ingresses, controllers, i, route) {
        var j, q :| Rival(ingresses, controllers, i, route, j, q);
        var o := RivalMember(ingresses, controllers, i, route, j, q);
        ConflictsExactly(ingresses, controllers, m, o);
        assert o in rivals;
      }
    } else {
      NoPartNoOverlap(ingresses, controllers, i, route);
    }
  }

  /** What a route node's overlap says about itself. */
  lemma OverlapKnowsItself(ingresses: seq<Ingress>, controllers: Controllers, i: Ingress, route: Route, o: Overlap)
    requires UniqueIngresses(ingresses) && i in ingresses
    requires o == OverlapAt(RouteOverlaps(Members(ingresses, controllers)), IngressRouteID(i.key, route.id))
    ensures o.primaries != [] ==> o.hasSelf
    ensures o.hasSelf ==> o.canary == i.canaryRule.Some?
  {
    var all, id := Members(ingresses, controllers), IngressRouteID(i.key, route.id);
    IndexMember(all, AffectedID(all));
    var affected := IndexBy(all, AffectedID(all));
    if id in affected {
      MembersFrom(ingresses, controllers);
      SameKeySameIngress(ingresses, affected[id].ingress, i);
    }
  }

  /** A route carries the conflict property exactly when its Ingress is no canary,
      it has a rival and it is the first its Ingress lists there. */
  lemma ConflictPropertyExactly(ingresses: seq<Ingress>, controllers: Controllers, i: Ingress, route: Route, o: Overlap)
    requires UniqueIngresses(ingresses) && i in ingresses && route in IngressRoutes(i)
    requires o == OverlapAt(RouteOverlaps(Members(ingresses, controllers)), IngressRouteID(i.key, route.id))
    ensures ConflictsWith in OverlapProperties(o, i.key, route) <==>
              && i.canaryRule.None? && HasRival(ingresses, controllers, i, route)
              && FirstListed(controllers[i.key], IngressRoutes(i), route)
  {
    ConflictShownExactly(ingresses, controllers, i, route);
    OverlapKnowsItself(ingresses, controllers, i, route, o);
    ConflictPropertyOf(o, i.key, route);
  }

  lemma PropertiesAre(o: Overlap, ingress: Key, route: Route, primaries: Option<string>, shared: Option<string>,
                      canaries: Option<string>)
    requires o.hasSelf
    requires Shown(o.primaries == [], NameList(o.primaries)) == primaries
    requires Shown(o.sharedService == [], NameList(o.sharedService)) == shared
    requires Shown(o.canaries == [], CanaryTexts(o, ingress, route)) == canaries
    ensures OverlapProperties(o, ingress, route) == PropertiesFrom(o.canary, o.rule, primaries, shared, canaries)
  {
  }

  lemma ConflictEntry(canary: bool, rule: string, primaries: Option<string>, shared: Option<string>, canaries: Option<string>)
    ensures ConflictsWith in PropertiesFrom(canary, rule, primaries, shared, canaries) <==> !canary && primaries.Some?
  {
  }

  lemma ConflictPropertyOf(o: Overlap, ingress: Key, route: Route)
    ensures ConflictsWith in OverlapProperties(o, ingress, route) <==> o.hasSelf && !o.canary && o.primaries != []
  {
    if o.hasSelf {
      var p := Shown(o.primaries == [], NameList(o.primaries));
      var s := Shown(o.sharedService == [], NameList(o.sharedService));
      var c := Shown(o.canaries == [], CanaryTexts(o, ingress, route));
      PropertiesAre(o, ingress, route, p, s, c);
      ConflictEntry(o.canary, o.rule, p, s, c);
    }
  }

  // ---- where the plain relation fails ----

  function PlainPath(service: string): HTTPPath {
    HTTPPath("/", None, Backend(Some(ServiceBackend(service, PortRef("", 80))), None))
  }

  function PlainIngress(name: string, paths: seq<HTTPPath>): Ingress {
    Ingress(Key("apps", name), 0, Some("nginx"), "", None, None, [Rule("shop", Some(paths))], [])
  }

  function PlainRoute(id: nat, service: string): Route {
    Route(id, "shop", "/", "", service, PortRef("", 80), "", "", false)
  }

  lemma EntriesOfOneRule(i: Ingress)
    requires i.defaultBackend == None && |i.rules| == 1
    ensures BackendEntries(i) == RuleEntries(i.rules[0])
  {
    var f := RuleEntries;
    assert i.rules[..0] == [];
    assert FlatMap(i.rules, f) == FlatMap(i.rules[..0], f) + f(i.rules[0]);
  }

  lemma OnePath(name: string, service: string)
    requires service != ""
    ensures IngressRoutes(PlainIngress(name, [PlainPath(service)])) == [PlainRoute(0, service)]
  {
    var i := PlainIngress(name, [PlainPath(service)]);
    var entry := PathEntry("shop")(PlainPath(service));
    assert RuleEntries(i.rules[0]) == [entry];
    EntriesOfOneRule(i);
    assert [entry][..0] == [];
    assert RoutesOf([]) == [] && entry.Routable();
    assert RoutesOf([entry]) == RoutesOf([]) + [entry.ToRoute(0)];
  }

  lemma TwoPaths(name: string, first: string, second: string)
    requires first != "" && second != ""
    ensures IngressRoutes(PlainIngress(name, [PlainPath(first), PlainPath(second)])) ==
            [PlainRoute(0, first), PlainRoute(1, second)]
  {
    var i := PlainIngress(name, [PlainPath(first), PlainPath(second)]);
    var a, b := PathEntry("shop")(PlainPath(first)), PathEntry("shop")(PlainPath(second));
    assert RuleEntries(i.rules[0]) == [a, b];
    EntriesOfOneRule(i);
    assert [a, b][..1] == [a] && [a][..0] == [];
    assert RoutesOf([a]) == [PlainRoute(0, first)];
  }

  /** Without the first-listed condition the relation is wrong: an Ingress that
      lists a location twice shows no conflict on the second route, although
      another Ingress serves the same traffic. */
  lemma RepeatedLocationHidesRival() returns (ingresses: seq<Ingress>, controllers: Controllers, i: Ingress, route: Route)
    ensures UniqueIngresses(ingresses) && i in ingresses && route in IngressRoutes(i)
    ensures HasRival(ingresses, controllers, i, route) && !ShowsConflict(ingresses, controllers, i, route)
  {
    i := PlainIngress("a", [PlainPath("one"), PlainPath("two")]);
    var j := PlainIngress("b", [PlainPath("three")]);
    TwoPaths("a", "one", "two");
    OnePath("b", "three");
    ingresses, route := [i, j], PlainRoute(1, "two");
    var nginx := ClassControllerID("nginx");
    controllers := map[i.key := nginx, j.key := nginx];
    assert KeyText(i.key)[5] == 'a' && KeyText(j.key)[5] == 'b';
    assert IngressRoutes(i)[1] == route && IngressRoutes(j)[0] == PlainRoute(0, "three");
    assert Rival(ingresses, controllers, i, route, j, PlainRoute(0, "three"));
    assert !FirstAt(nginx, IngressRoutes(i), 1) by {
      assert LocationOf(nginx, IngressRoutes(i)[0]) == LocationOf(nginx, IngressRoutes(i)[1]);
    }
    ConflictShownExactly(ingresses, controllers, i, route);
  }
}
