/** Which canaries each route node shows, and which route nodes miss one. */
module CanaryRelation {
  import opened Collections
  import opened Kube
  import opened NodeIDs
  import opened Overlaps
  import opened OverlapMembers
  import opened OverlapRelation

  /** The overlap of a route node. */
  ghost function NodeOverlap(all: seq<Member>, i: Ingress, route: Route): Overlap {
    OverlapAt(RouteOverlaps(all), IngressRouteID(i.key, route.id))
  }

  /** The upstream of a route whose Ingress has a controller. */
  function UpstreamFor(controllers: Controllers, i: Ingress, route: Route): Option<Upstream> {
    if i.key in controllers then Member(i, route, LocationOf(controllers[i.key], route)).Upstream() else None
  }

  /** The canary splits the traffic that goes to its primary: it is a canary
      route, and the primary is the one served at its location. */
  ghost predicate Splits(all: seq<Member>, l: CanaryLink) {
    l.canary in all && l.canary.Canary() && Oldest(all, l.canary.location) == Some(l.primary)
  }

  /** The split is that of the route's own upstream. */
  ghost predicate SplitsRoute(all: seq<Member>, controllers: Controllers, i: Ingress, route: Route, l: CanaryLink) {
    var upstream := UpstreamFor(controllers, i, route);
    i.canaryRule.None? && upstream.Some? && Splits(all, l) && l.primary.Upstream() == upstream
  }

  /** The member that a route which takes part is. */
  ghost predicate IsMemberOf(controllers: Controllers, i: Ingress, route: Route, m: Member) {
    i.key in controllers && m == Member(i, route, LocationOf(controllers[i.key], route))
  }

  lemma MemberCanaries(controllers: Controllers, i: Ingress, route: Route, all: seq<Member>, m: Member, o: Overlap,
                       l: CanaryLink)
    requires IsMemberOf(controllers, i, route, m)
    requires o == if OverlapOf(all, m).hasSelf then OverlapOf(all, m) else NO_OVERLAP
    ensures l in o.canaries <==> SplitsRoute(all, controllers, i, route, l)
  {
    CanariesExactly(all, m, l);
    assert l in OverlapOf(all, m).canaries ==> OverlapOf(all, m).hasSelf;
  }

  /** A route node shows a canary exactly when the canary splits its upstream and
      the route takes part in overlaps. */
  lemma CanaryShownExactly(ingresses: seq<Ingress>, controllers: Controllers, i: Ingress, route: Route, l: CanaryLink,
                           all: seq<Member>)
    requires UniqueIngresses(ingresses) && i in ingresses && route in IngressRoutes(i) && all == Members(ingresses, controllers)
    ensures l in NodeOverlap(all, i, route).canaries <==>
              SplitsRoute(all, controllers, i, route, l) && TakesPart(controllers, i, route)
  {
    if TakesPart(controllers, i, route) {
      var m := PartOverlap(ingresses, controllers, i, route);
      MemberCanaries(controllers, i, route, all, m, NodeOverlap(all, i, route), l);
    } else {
      NoPartNoOverlap(ingresses, controllers, i, route);
    }
  }

  /** Another Ingress's canary route with the same upstream. */
  ghost predicate SharesUpstream(all: seq<Member>, controllers: Controllers, i: Ingress, route: Route, x: Member) {
    var upstream := UpstreamFor(controllers, i, route);
    && i.canaryRule.Some? && upstream.Some?
    && x in all && x.Canary() && x.ingress.key != i.key && x.Upstream() == upstream
  }

  lemma MemberShared(controllers: Controllers, i: Ingress, route: Route, all: seq<Member>, m: Member, o: Overlap, x: Member)
    requires m in all && IsMemberOf(controllers, i, route, m)
    requires o == if OverlapOf(all, m).hasSelf then OverlapOf(all, m) else NO_OVERLAP
    ensures x in o.sharedService <==> SharesUpstream(all, controllers, i, route, x)
  {
    if m.Canary() {
      SharedExactly(all, m, x);
    }
  }

  /** A canary's route node lists a canary of another Ingress exactly when both
      send traffic to one Service and port and the route takes part in overlaps. */
  lemma SharedShownExactly(ingresses: seq<Ingress>, controllers: Controllers, i: Ingress, route: Route, x: Member,
                           all: seq<Member>)
    requires UniqueIngresses(ingresses) && i in ingresses && route in IngressRoutes(i) && all == Members(ingresses, controllers)
    ensures x in NodeOverlap(all, i, route).sharedService <==>
              SharesUpstream(all, controllers, i, route, x) && TakesPart(controllers, i, route)
  {
    if TakesPart(controllers, i, route) {
      var m := PartOverlap(ingresses, controllers, i, route);
      MemberShared(controllers, i, route, all, m, NodeOverlap(all, i, route), x);
    } else {
      NoPartNoOverlap(ingresses, controllers, i, route);
    }
  }

  /** Another Ingress's canary route for the same requests. */
  ghost predicate CanaryAt(all: seq<Member>, controllers: Controllers, i: Ingress, route: Route, x: Member) {
    && i.key in controllers && x in all && x.Canary() && x.ingress.key != i.key
    && x.location == LocationOf(controllers[i.key], route)
  }

  lemma MemberCanariesAt(ingresses: seq<Ingress>, controllers: Controllers, i: Ingress, route: Route, m: Member, o: Overlap,
                         x: Member, all: seq<Member>)
    requires UniqueIngresses(ingresses) && all == Members(ingresses, controllers)
    requires m in all && IsMemberOf(controllers, i, route, m)
    requires o == if OverlapOf(all, m).hasSelf then OverlapOf(all, m) else NO_OVERLAP
    ensures x in o.locationCanaries <==> CanaryAt(all, controllers, i, route, x)
  {
    ConflictsExactly(ingresses, controllers, m, x);
    assert x in OverlapOf(all, m).locationCanaries ==> OverlapOf(all, m).hasSelf;
  }

  /** A route node lists the canaries of other Ingresses for its location exactly
      when it takes part in overlaps. */
  lemma LocationCanaryShownExactly(ingresses: seq<Ingress>, controllers: Controllers, i: Ingress, route: Route, x: Member,
                                   all: seq<Member>)
    requires UniqueIngresses(ingresses) && i in ingresses && route in IngressRoutes(i) && all == Members(ingresses, controllers)
    ensures x in NodeOverlap(all, i, route).locationCanaries <==>
              CanaryAt(all, controllers, i, route, x) && TakesPart(controllers, i, route)
  {
    if TakesPart(controllers, i, route) {
      var m := PartOverlap(ingresses, controllers, i, route);
      MemberCanariesAt(ingresses, controllers, i, route, m, NodeOverlap(all, i, route), x, all);
    } else {
      NoPartNoOverlap(ingresses, controllers, i, route);
    }
  }

  // ---- the properties of the route node ----

  lemma CanaryEntries(canary: bool, rule: string, primaries: Option<string>, shared: Option<string>, canaries: Option<string>)
    ensures CanaryList in PropertiesFrom(canary, rule, primaries, shared, canaries) <==> !canary && canaries.Some?
    ensures CanaryServiceSharedWith in PropertiesFrom(canary, rule, primaries, shared, canaries) <==> canary && shared.Some?
  {
  }

  lemma CanaryPropertyOf(o: Overlap, ingress: Key, route: Route)
    ensures CanaryList in OverlapProperties(o, ingress, route) <==> o.hasSelf && !o.canary && o.canaries != []
    ensures CanaryServiceSharedWith in OverlapProperties(o, ingress, route) <==> o.hasSelf && o.canary && o.sharedService != []
  {
    if o.hasSelf {
      var p := Shown(o.primaries == [], NameList(o.primaries));
      var s := Shown(o.sharedService == [], NameList(o.sharedService));
      var c := Shown(o.canaries == [], CanaryTexts(o, ingress, route));
      PropertiesAre(o, ingress, route, p, s, c);
      CanaryEntries(o.canary, o.rule, p, s, c);
    }
  }

  lemma NotEmptyMeans<T>(xs: seq<T>)
    ensures xs != [] <==> exists x :: x in xs
  {
    if xs != [] {
      assert xs[0] in xs;
    }
  }

  /** What the node's overlap says about itself. */
  lemma ListsKnowThemselves(ingresses: seq<Ingress>, controllers: Controllers, i: Ingress, route: Route, o: Overlap)
    requires UniqueIngresses(ingresses) && i in ingresses && route in IngressRoutes(i)
    requires o == NodeOverlap(Members(ingresses, controllers), i, route)
    ensures o.canaries != [] ==> o.hasSelf && !o.canary
    ensures o.sharedService != [] ==> o.hasSelf && o.canary
    ensures i.canaryRule.Some? ==> (o.hasSelf <==> TakesPart(controllers, i, route))
    ensures o.hasSelf ==> o.canary == i.canaryRule.Some?
  {
    if TakesPart(controllers, i, route) {
      var m := PartOverlap(ingresses, controllers, i, route);
    } else {
      NoPartNoOverlap(ingresses, controllers, i, route);
    }
  }

  /** A route carries the list of canaries, or the list of canaries it shares its
      Service with, exactly when it takes part and there is one to list. */
  lemma CanaryPropertiesExactly(ingresses: seq<Ingress>, controllers: Controllers, i: Ingress, route: Route, o: Overlap)
    requires UniqueIngresses(ingresses) && i in ingresses && route in IngressRoutes(i)
    requires o == NodeOverlap(Members(ingresses, controllers), i, route)
    ensures
      var all, properties := Members(ingresses, controllers), OverlapProperties(o, i.key, route);
      && (CanaryList in properties <==>
            TakesPart(controllers, i, route) && exists l :: SplitsRoute(all, controllers, i, route, l))
      && (CanaryServiceSharedWith in properties <==>
            TakesPart(controllers, i, route) && exists x :: SharesUpstream(all, controllers, i, route, x))
  {
    var all := Members(ingresses, controllers);
    CanaryPropertyOf(o, i.key, route);
    ListsKnowThemselves(ingresses, controllers, i, route, o);
    NotEmptyMeans(o.canaries);
    NotEmptyMeans(o.sharedService);
    forall l ensures l in o.canaries <==> SplitsRoute(all, controllers, i, route, l) && TakesPart(controllers, i, route) {
      CanaryShownExactly(ingresses, controllers, i, route, l, all);
    }
    forall x
      ensures x in o.sharedService <==> SharesUpstream(all, controllers, i, route, x) && TakesPart(controllers, i, route)
    {
      SharedShownExactly(ingresses, controllers, i, route, x, all);
    }
  }

  // ---- where the plain relation fails ----

  /** The plain relation, that every route to the split Service and port shows
      the canary, fails at this route while it holds at another. */
  ghost predicate MissesCanary(ingresses: seq<Ingress>, controllers: Controllers, i: Ingress, shows: Route, misses: Route,
                               l: CanaryLink) {
    var all := Members(ingresses, controllers);
    && UniqueIngresses(ingresses) && i in ingresses && shows in IngressRoutes(i) && misses in IngressRoutes(i)
    && SplitsRoute(all, controllers, i, shows, l) && SplitsRoute(all, controllers, i, misses, l)
    && l in NodeOverlap(all, i, shows).canaries && NodeOverlap(all, i, misses).canaries == []
  }

  lemma OnlyPrimaryServed(i: Ingress, canary: Ingress, controllers: Controllers, m: Member, all: seq<Member>)
    requires UniqueIngresses([i, canary]) && canary.canaryRule.Some?
    requires all == Members([i, canary], controllers) && m in all && m.ingress == i && !m.Canary()
    ensures Oldest(all, m.location) == Some(m)
  {
    MembersFrom([i, canary], controllers);
    forall p | p in all && p.location == m.location && !p.Canary() ensures p == m {
      MemberByIngress([i, canary], controllers, p, m);
    }
    OldestExactly([i, canary], controllers, m.location, m);
  }

  lemma OnlyRoute(ingresses: seq<Ingress>, controllers: Controllers, i: Ingress, route: Route) returns (m: Member)
    requires UniqueIngresses(ingresses) && i in ingresses && i.key in controllers
    requires IngressRoutes(i) == [route] && !route.isDefault
    ensures IsMemberOf(controllers, i, route, m) && m in Members(ingresses, controllers)
  {
    assert FirstAt(controllers[i.key], IngressRoutes(i), 0);
    m := PartOverlap(ingresses, controllers, i, route);
  }

  /** One Ingress and a canary of its location, both of one controller. */
  lemma CanaryOf(i: Ingress, route: Route, canary: Ingress, q: Route, controllers: Controllers, all: seq<Member>)
    returns (l: CanaryLink)
    requires UniqueIngresses([i, canary]) && i.canaryRule.None? && canary.canaryRule.Some?
    requires IngressRoutes(canary) == [q] && !q.isDefault && route.serviceName != "" && TakesPart(controllers, i, route)
    requires canary.key in controllers && LocationOf(controllers[i.key], route) == LocationOf(controllers[canary.key], q)
    requires all == Members([i, canary], controllers)
    ensures SplitsRoute(all, controllers, i, route, l)
  {
    var m := PartOverlap([i, canary], controllers, i, route);
    var o := OnlyRoute([i, canary], controllers, canary, q);
    OnlyPrimaryServed(i, canary, controllers, m, all);
    l := CanaryLink(o, m);
  }

  function NginxFor(a: Ingress, b: Ingress): Controllers {
    map[a.key := ClassControllerID("nginx"), b.key := ClassControllerID("nginx")]
  }

  lemma CanaryRoutes(rule: string)
    ensures IngressRoutes(PlainIngress("b", [PlainPath("new")]).(canaryRule := Some(rule))) == [PlainRoute(0, "new")]
  {
    OnePath("b", "new");
    assert BackendEntries(PlainIngress("b", [PlainPath("new")]).(canaryRule := Some(rule))) ==
      BackendEntries(PlainIngress("b", [PlainPath("new")]));
  }

  lemma OtherUpstream(all: seq<Member>, controllers: Controllers, i: Ingress, a: Route, b: Route, l: CanaryLink)
    requires UpstreamFor(controllers, i, b) == UpstreamFor(controllers, i, a) && SplitsRoute(all, controllers, i, a, l)
    ensures SplitsRoute(all, controllers, i, b, l)
  {
  }

  /** Two routes of one upstream, of which one takes part. */
  lemma MissedBy(i: Ingress, shows: Route, misses: Route, canary: Ingress, q: Route, controllers: Controllers,
                 all: seq<Member>)
    returns (l: CanaryLink)
    requires UniqueIngresses([i, canary]) && i.canaryRule.None? && canary.canaryRule.Some?
    requires shows in IngressRoutes(i) && misses in IngressRoutes(i)
    requires IngressRoutes(canary) == [q] && !q.isDefault && shows.serviceName != ""
    requires TakesPart(controllers, i, shows) && !TakesPart(controllers, i, misses)
    requires UpstreamFor(controllers, i, misses) == UpstreamFor(controllers, i, shows)
    requires canary.key in controllers && LocationOf(controllers[i.key], shows) == LocationOf(controllers[canary.key], q)
    requires all == Members([i, canary], controllers)
    ensures MissesCanary([i, canary], controllers, i, shows, misses, l)
  {
    l := CanaryOf(i, shows, canary, q, controllers, all);
    CanaryShownExactly([i, canary], controllers, i, shows, l, all);
    OtherUpstream(all, controllers, i, shows, misses, l);
    NoPartNoOverlap([i, canary], controllers, i, misses);
  }

  lemma NamesDiffer(i: Ingress, canary: Ingress)
    requires i.key == Key("apps", "a") && canary.key == Key("apps", "b")
    ensures UniqueIngresses([i, canary])
  {
    assert KeyText(i.key)[5] == 'a' && KeyText(canary.key)[5] == 'b';
  }

  lemma SecondAtLocation(controllers: Controllers, i: Ingress, a: Route, b: Route)
    requires i.key in controllers && IngressRoutes(i) == [a, b] && a != b && !a.isDefault
    requires LocationOf(controllers[i.key], a) == LocationOf(controllers[i.key], b)
    ensures TakesPart(controllers, i, a) && !TakesPart(controllers, i, b)
  {
    assert FirstAt(controllers[i.key], IngressRoutes(i), 0);
  }

  lemma AfterDefault(controllers: Controllers, i: Ingress, a: Route, b: Route)
    requires i.key in controllers && IngressRoutes(i) == [a, b] && a.isDefault && !b.isDefault
    ensures TakesPart(controllers, i, b) && !TakesPart(controllers, i, a)
  {
    assert FirstAt(controllers[i.key], IngressRoutes(i), 1);
  }

  lemma SameUpstream(controllers: Controllers, i: Ingress, a: Route, b: Route)
    requires i.key in controllers && a.serviceName == b.serviceName && a.servicePort == b.servicePort
    ensures UpstreamFor(controllers, i, a) == UpstreamFor(controllers, i, b)
  {
  }

  /** An Ingress lists a location twice: the second route shows no canary. */
  lemma RepeatedLocationMissesCanary()
    returns (ingresses: seq<Ingress>, controllers: Controllers, i: Ingress, shows: Route, misses: Route, l: CanaryLink)
    ensures MissesCanary(ingresses, controllers, i, shows, misses, l) && !misses.isDefault
  {
    i, shows, misses := PlainIngress("a", [PlainPath("one"), PlainPath("one")]), PlainRoute(0, "one"), PlainRoute(1, "one");
    var canary := PlainIngress("b", [PlainPath("new")]).(canaryRule := Some("weight 10%"));
    TwoPaths("a", "one", "one");
    CanaryRoutes("weight 10%");
    NamesDiffer(i, canary);
    ingresses, controllers := [i, canary], NginxFor(i, canary);
    SecondAtLocation(controllers, i, shows, misses);
    SameUpstream(controllers, i, shows, misses);
    assert IngressRoutes(i)[0] == shows && IngressRoutes(i)[1] == misses;
    l := MissedBy(i, shows, misses, canary, PlainRoute(0, "new"), controllers, Members(ingresses, controllers));
  }

  function DefaultRoute(): Route { Route(0, "", "", "", "one", PortRef("", 80), "", "", true) }

  function DefaultedIngress(): Ingress {
    PlainIngress("a", [PlainPath("one")]).(defaultBackend := Some(PlainPath("one").backend))
  }

  lemma DefaultedRoutes()
    ensures IngressRoutes(DefaultedIngress()) == [DefaultRoute(), PlainRoute(1, "one")]
  {
    var plain, i := PlainIngress("a", [PlainPath("one")]), DefaultedIngress();
    var entry, own := BackendEntry("", "", "", PlainPath("one").backend, true), PathEntry("shop")(PlainPath("one"));
    EntriesOfOneRule(plain);
    assert RuleEntries(plain.rules[0]) == [own];
    assert BackendEntries(plain) == FlatMap(plain.rules, RuleEntries);
    assert BackendEntries(i) == [entry, own];
    assert [entry, own][..1] == [entry] && [entry][..0] == [];
    assert RoutesOf([]) == [] && RoutesOf([entry]) == [DefaultRoute()];
  }

  /** The default backend of an Ingress is the split Service: its route shows no
      canary. */
  lemma DefaultBackendMissesCanary()
    returns (ingresses: seq<Ingress>, controllers: Controllers, i: Ingress, shows: Route, misses: Route, l: CanaryLink)
    ensures MissesCanary(ingresses, controllers, i, shows, misses, l) && misses.isDefault
  {
    i, shows, misses := DefaultedIngress(), PlainRoute(1, "one"), DefaultRoute();
    var canary := PlainIngress("b", [PlainPath("new")]).(canaryRule := Some("weight 10%"));
    DefaultedRoutes();
    CanaryRoutes("weight 10%");
    NamesDiffer(i, canary);
    ingresses, controllers := [i, canary], NginxFor(i, canary);
    AfterDefault(controllers, i, misses, shows);
    SameUpstream(controllers, i, shows, misses);
    assert IngressRoutes(i)[1] == shows && IngressRoutes(i)[0] == misses;
    l := MissedBy(i, shows, misses, canary, PlainRoute(0, "new"), controllers, Members(ingresses, controllers));
  }
}
