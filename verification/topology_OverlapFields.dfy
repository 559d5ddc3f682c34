/** Overlaps told by the fields of Ingresses and routes: which requests two routes
    share, which Ingress is served, and which canaries split which backend. */
module OverlapFields {
  import opened Collections
  import opened Kube
  import opened NodeIDs
  import opened Overlaps
  import opened OverlapMembers
  import opened OverlapRelation
  import opened CanaryRelation
  import Sorting
  import Text

  // ---- the same requests ----

  predicate SamePath(a: string, b: string) {
    a == b || (a == "" && b == "/") || (a == "/" && b == "")
  }

  predicate SamePathType(a: string, b: string) {
    a == b || (a == "" && b == "ImplementationSpecific") || (a == "ImplementationSpecific" && b == "")
  }

  /** The routes match the same host, path and path type. */
  predicate SameRequests(a: Route, b: Route) {
    Text.EqualFold(a.host, b.host) && SamePath(a.path, b.path) && SamePathType(a.pathType, b.pathType)
  }

  lemma LocationsAgree(c: NodeID, a: Route, d: NodeID, b: Route)
    ensures LocationOf(c, a) == LocationOf(d, b) <==> c == d && SameRequests(a, b)
  {
  }

  /** No earlier route of the Ingress matches the same requests. */
  ghost predicate FirstOf(routes: seq<Route>, route: Route) {
    exists k :: 0 <= k < |routes| && routes[k] == route && NoneBefore(routes, k)
  }

  predicate NoneBefore(routes: seq<Route>, k: nat)
    requires k < |routes|
  {
    forall j :: 0 <= j < k && !routes[j].isDefault ==> !SameRequests(routes[j], routes[k])
  }

  lemma NoneBeforeMeans(c: NodeID, routes: seq<Route>, k: nat)
    requires k < |routes|
    ensures FirstAt(c, routes, k) <==> NoneBefore(routes, k)
  {
    forall j | 0 <= j < k ensures LocationOf(c, routes[j]) == LocationOf(c, routes[k]) <==> SameRequests(routes[j], routes[k]) {
      LocationsAgree(c, routes[j], c, routes[k]);
    }
  }

  /** Exactly which routes take part in overlaps. */
  lemma TakesPartExactly(controllers: Controllers, i: Ingress, route: Route)
    ensures TakesPart(controllers, i, route) <==>
              i.key in controllers && !route.isDefault && FirstOf(IngressRoutes(i), route)
  {
    if i.key in controllers {
      var c, routes := controllers[i.key], IngressRoutes(i);
      forall k | 0 <= k < |routes| ensures FirstAt(c, routes, k) <==> NoneBefore(routes, k) {
        NoneBeforeMeans(c, routes, k);
      }
    }
  }

  // ---- who competes ----

  /** The Ingress belongs to the controller and lists the requests of the route. */
  ghost predicate Claims(controllers: Controllers, j: Ingress, c: NodeID, route: Route) {
    && j.key in controllers && controllers[j.key] == c
    && exists q :: q in IngressRoutes(j) && !q.isDefault && SameRequests(q, route)
  }

  /** Some other Ingress that is no canary claims the route's requests. */
  ghost predicate Contested(ingresses: seq<Ingress>, controllers: Controllers, i: Ingress, route: Route) {
    && i.key in controllers && !route.isDefault
    && exists j :: j in ingresses && j.key != i.key && j.canaryRule.None? && Claims(controllers, j, controllers[i.key], route)
  }

  lemma RivalClaims(ingresses: seq<Ingress>, controllers: Controllers, i: Ingress, route: Route, j: Ingress)
    requires i.key in controllers && j in ingresses && j.key != i.key && j.canaryRule.None?
    ensures Claims(controllers, j, controllers[i.key], route) <==> exists q :: Rival(ingresses, controllers, i, route, j, q)
  {
    if q :| Rival(ingresses, controllers, i, route, j, q) {
      LocationsAgree(controllers[j.key], q, controllers[i.key], route);
    }
    if Claims(controllers, j, controllers[i.key], route) {
      var q :| q in IngressRoutes(j) && !q.isDefault && SameRequests(q, route);
      LocationsAgree(controllers[j.key], q, controllers[i.key], route);
      assert Rival(ingresses, controllers, i, route, j, q);
    }
  }

  lemma RivalsExactly(ingresses: seq<Ingress>, controllers: Controllers, i: Ingress, route: Route)
    ensures HasRival(ingresses, controllers, i, route) <==> Contested(ingresses, controllers, i, route)
  {
    if i.key in controllers {
      forall j | j in ingresses && j.key != i.key && j.canaryRule.None?
        ensures Claims(controllers, j, controllers[i.key], route) <==> exists q :: Rival(ingresses, controllers, i, route, j, q)
      {
        RivalClaims(ingresses, controllers, i, route, j);
      }
    }
  }

  // ---- who is served ----

  /** Created first, or at the same time and with the smaller name. */
  ghost predicate Earlier(a: Ingress, b: Ingress) {
    || a.created < b.created
    || (a.created == b.created && exists k: nat ::
          Sorting.SmallerAt(a.key.namespace + "/" + a.key.name, b.key.namespace + "/" + b.key.name, k))
  }

  lemma OlderIsEarlier(a: Member, b: Member)
    ensures Older(a, b) <==> Earlier(a.ingress, b.ingress)
  {
    Sorting.BeforeExactly(KeyText(a.ingress.key), KeyText(b.ingress.key));
  }

  ghost predicate PrimaryFor(ingresses: seq<Ingress>, controllers: Controllers, c: NodeID, route: Route, j: Ingress) {
    j in ingresses && j.canaryRule.None? && Claims(controllers, j, c, route)
  }

  /** The Ingress served for the route's requests: the earliest of the primaries
      of that controller that claim them. */
  ghost predicate IsServed(ingresses: seq<Ingress>, controllers: Controllers, c: NodeID, route: Route, j: Ingress) {
    && PrimaryFor(ingresses, controllers, c, route, j)
    && forall k :: PrimaryFor(ingresses, controllers, c, route, k) && k != j ==> Earlier(j, k)
  }

  lemma PrimaryMember(ingresses: seq<Ingress>, controllers: Controllers, c: NodeID, route: Route, j: Ingress)
    returns (o: Member)
    requires PrimaryFor(ingresses, controllers, c, route, j)
    ensures o in Members(ingresses, controllers) && o.ingress == j && !o.Canary() && o.location == LocationOf(c, route)
  {
    var q :| q in IngressRoutes(j) && !q.isDefault && SameRequests(q, route);
    var k :| 0 <= k < |IngressRoutes(j)| && IngressRoutes(j)[k] == q;
    LocationsAgree(c, q, c, route);
    var first := FirstListedExists(c, IngressRoutes(j), k);
    o := Member(j, first, LocationOf(c, first));
    MembersExactly(ingresses, controllers, o);
  }

  lemma MemberIsPrimary(ingresses: seq<Ingress>, controllers: Controllers, c: NodeID, route: Route, o: Member)
    requires o in Members(ingresses, controllers) && !o.Canary() && o.location == LocationOf(c, route)
    ensures PrimaryFor(ingresses, controllers, c, route, o.ingress)
  {
    MembersFrom(ingresses, controllers);
    LocationsAgree(controllers[o.ingress.key], o.route, c, route);
  }

  lemma OldestIsServed(ingresses: seq<Ingress>, controllers: Controllers, c: NodeID, route: Route, o: Member)
    requires UniqueIngresses(ingresses)
    requires Oldest(Members(ingresses, controllers), LocationOf(c, route)) == Some(o)
    ensures IsServed(ingresses, controllers, c, route, o.ingress)
  {
    OldestExactly(ingresses, controllers, LocationOf(c, route), o);
    MemberIsPrimary(ingresses, controllers, c, route, o);
    forall k | PrimaryFor(ingresses, controllers, c, route, k) && k != o.ingress ensures Earlier(o.ingress, k) {
      var p := PrimaryMember(ingresses, controllers, c, route, k);
      OlderIsEarlier(o, p);
    }
  }

  lemma EarlierOnce(a: Ingress, b: Ingress)
    ensures !(Earlier(a, b) && Earlier(b, a))
  {
    Sorting.BeforeExactly(KeyText(a.key), KeyText(b.key));
    Sorting.BeforeExactly(KeyText(b.key), KeyText(a.key));
    Sorting.BeforeTotal(KeyText(a.key), KeyText(b.key));
  }

  lemma ServedOnce(ingresses: seq<Ingress>, controllers: Controllers, c: NodeID, route: Route, a: Ingress, b: Ingress)
    requires UniqueIngresses(ingresses)
    requires IsServed(ingresses, controllers, c, route, a) && IsServed(ingresses, controllers, c, route, b)
    ensures a == b
  {
    if a != b {
      EarlierOnce(a, b);
    }
  }

  /** The Ingress served at a location is the one created first, on a tie the one
      with the smaller namespace and name. */
  lemma ServedExactly(ingresses: seq<Ingress>, controllers: Controllers, c: NodeID, route: Route, j: Ingress,
                      oldest: Option<Member>)
    requires UniqueIngresses(ingresses) && oldest == Oldest(Members(ingresses, controllers), LocationOf(c, route))
    ensures oldest.Some? && oldest.value.ingress == j <==> IsServed(ingresses, controllers, c, route, j)
  {
    if oldest.Some? {
      OldestIsServed(ingresses, controllers, c, route, oldest.value);
      if IsServed(ingresses, controllers, c, route, j) {
        ServedOnce(ingresses, controllers, c, route, j, oldest.value.ingress);
      }
    } else if IsServed(ingresses, controllers, c, route, j) {
      var o := PrimaryMember(ingresses, controllers, c, route, j);
      FilterMember(Members(ingresses, controllers), IsPrimaryAt(LocationOf(c, route)));
    }
  }

  // ---- the same backend ----

  function NumberText(n: int): string { if n == 0 then "unspecified" else Text.Decimal(n) }

  /** Equal names, or equal numbers without names; a name can also spell the other
      port's number. */
  predicate SamePort(a: PortRef, b: PortRef) {
    if a.name != "" && b.name != "" then a.name == b.name
    else if a.name == "" && b.name == "" then a.number == b.number
    else if a.name != "" then a.name == NumberText(b.number)
    else b.name == NumberText(a.number)
  }

  lemma NumbersPrintApart(a: int, b: int)
    ensures NumberText(a) == NumberText(b) <==> a == b
  {
    if a != 0 {
      DecimalIsNumber(a);
    }
    if b != 0 {
      DecimalIsNumber(b);
    }
    if a != 0 && b != 0 && Text.Decimal(a) == Text.Decimal(b) {
      Text.DecimalInjective(a, b);
    }
  }

  lemma DecimalIsNumber(n: int)
    ensures Text.Decimal(n) != "unspecified"
  {
    var digits := Text.Digits(if n < 0 then -n else n);
    Text.DigitsAreDigits(if n < 0 then -n else n);
    assert digits[0] in digits;
    assert "unspecified"[0] == 'u';
  }

  lemma LabelsAgree(a: Route, b: Route)
    ensures a.PortLabel() == b.PortLabel() <==> SamePort(a.servicePort, b.servicePort)
  {
    NumbersPrintApart(a.servicePort.number, b.servicePort.number);
  }

  /** Two routes of one controller send to the same Service and port. */
  predicate SameBackend(i: Ingress, a: Route, j: Ingress, b: Route) {
    && a.serviceName != "" && a.serviceName == b.serviceName && i.key.namespace == j.key.namespace
    && SamePort(a.servicePort, b.servicePort)
  }

  lemma UpstreamsAgree(i: Ingress, a: Route, c: NodeID, j: Ingress, b: Route, d: NodeID)
    ensures
      var m, n := Member(i, a, LocationOf(c, a)), Member(j, b, LocationOf(d, b));
      m.Upstream().Some? && m.Upstream() == n.Upstream() <==> c == d && SameBackend(i, a, j, b)
  {
    LabelsAgree(a, b);
  }

  // ---- canaries ----

  /** A canary route of the list that takes part in overlaps. */
  ghost predicate CanaryRoute(ingresses: seq<Ingress>, controllers: Controllers, j: Ingress, q: Route) {
    j in ingresses && j.canaryRule.Some? && TakesPart(controllers, j, q)
  }

  /** The canary splits the traffic of the Ingress served for its own requests,
      and that one sends it to the route's Service and port. */
  ghost predicate SplitsBackend(ingresses: seq<Ingress>, controllers: Controllers, i: Ingress, route: Route,
                                j: Ingress, q: Route, p: Ingress, r: Route) {
    && CanaryRoute(ingresses, controllers, j, q) && i.key in controllers && controllers[i.key] == controllers[j.key]
    && IsServed(ingresses, controllers, controllers[j.key], q, p)
    && TakesPart(controllers, p, r) && SameRequests(r, q) && SameBackend(i, route, p, r)
  }

  lemma MemberFor(ingresses: seq<Ingress>, controllers: Controllers, j: Ingress, q: Route) returns (m: Member)
    requires UniqueIngresses(ingresses) && j in ingresses && TakesPart(controllers, j, q)
    ensures IsMemberOf(controllers, j, q, m) && m in Members(ingresses, controllers)
  {
    m := PartOverlap(ingresses, controllers, j, q);
  }

  lemma MemberPart(ingresses: seq<Ingress>, controllers: Controllers, m: Member)
    requires m in Members(ingresses, controllers)
    ensures m.ingress in ingresses && TakesPart(controllers, m.ingress, m.route)
    ensures IsMemberOf(controllers, m.ingress, m.route, m)
  {
    MembersExactly(ingresses, controllers, m);
  }

  /** The served member is the served Ingress with its first route for the
      requests. */
  lemma ServedMember(ingresses: seq<Ingress>, controllers: Controllers, q: Route, c: NodeID, p: Ingress, r: Route)
    returns (o: Member)
    requires UniqueIngresses(ingresses) && IsServed(ingresses, controllers, c, q, p)
    requires TakesPart(controllers, p, r) && SameRequests(r, q) && controllers[p.key] == c
    ensures IsMemberOf(controllers, p, r, o) && Oldest(Members(ingresses, controllers), LocationOf(c, q)) == Some(o)
  {
    var oldest := Oldest(Members(ingresses, controllers), LocationOf(c, q));
    ServedExactly(ingresses, controllers, c, q, p, oldest);
    var m := MemberFor(ingresses, controllers, p, r);
    LocationsAgree(c, r, c, q);
    o := oldest.value;
    OldestExactly(ingresses, controllers, LocationOf(c, q), o);
    MemberByIngress(ingresses, controllers, o, m);
  }

  lemma LinkSplits(ingresses: seq<Ingress>, controllers: Controllers, i: Ingress, route: Route, all: seq<Member>, l: CanaryLink)
    requires UniqueIngresses(ingresses) && all == Members(ingresses, controllers)
    requires SplitsRoute(all, controllers, i, route, l)
    ensures SplitsBackend(ingresses, controllers, i, route, l.canary.ingress, l.canary.route, l.primary.ingress, l.primary.route)
  {
    var q, o := l.canary, l.primary;
    MemberPart(ingresses, controllers, q);
    OldestExactly(ingresses, controllers, q.location, o);
    MemberPart(ingresses, controllers, o);
    var c := controllers[q.ingress.key];
    LocationsAgree(controllers[o.ingress.key], o.route, c, q.route);
    ServedExactly(ingresses, controllers, c, q.route, o.ingress, Some(o));
    UpstreamsAgree(i, route, controllers[i.key], o.ingress, o.route, controllers[o.ingress.key]);
  }

  lemma SplitLinks(ingresses: seq<Ingress>, controllers: Controllers, i: Ingress, route: Route, all: seq<Member>,
                   j: Ingress, q: Route, p: Ingress, r: Route) returns (l: CanaryLink)
    requires UniqueIngresses(ingresses) && all == Members(ingresses, controllers) && i.canaryRule.None?
    requires SplitsBackend(ingresses, controllers, i, route, j, q, p, r)
    ensures SplitsRoute(all, controllers, i, route, l)
    ensures l.canary.ingress == j && l.canary.route == q && l.primary.ingress == p && l.primary.route == r
  {
    var c := controllers[j.key];
    var canary := MemberFor(ingresses, controllers, j, q);
    var primary := ServedMember(ingresses, controllers, q, c, p, r);
    UpstreamsAgree(i, route, controllers[i.key], p, r, controllers[p.key]);
    l := CanaryLink(canary, primary);
  }

  /** The route node lists this canary with this primary. */
  ghost predicate Lists(o: Overlap, j: Ingress, q: Route, p: Ingress, r: Route) {
    exists l :: l in o.canaries && l.canary.ingress == j && l.canary.route == q && l.primary.ingress == p && l.primary.route == r
  }

  /** Exactly which canaries a route node lists, and behind which primary. */
  lemma CanaryListedExactly(ingresses: seq<Ingress>, controllers: Controllers, i: Ingress, route: Route, all: seq<Member>,
                            o: Overlap, j: Ingress, q: Route, p: Ingress, r: Route)
    requires UniqueIngresses(ingresses) && i in ingresses && route in IngressRoutes(i)
    requires all == Members(ingresses, controllers) && o == NodeOverlap(all, i, route)
    ensures Lists(o, j, q, p, r) <==>
              && i.canaryRule.None? && TakesPart(controllers, i, route)
              && SplitsBackend(ingresses, controllers, i, route, j, q, p, r)
  {
    if l :| l in o.canaries && l.canary.ingress == j && l.canary.route == q && l.primary.ingress == p && l.primary.route == r {
      CanaryShownExactly(ingresses, controllers, i, route, l, all);
      LinkSplits(ingresses, controllers, i, route, all, l);
    }
    if i.canaryRule.None? && TakesPart(controllers, i, route) && SplitsBackend(ingresses, controllers, i, route, j, q, p, r) {
      var l := SplitLinks(ingresses, controllers, i, route, all, j, q, p, r);
      CanaryShownExactly(ingresses, controllers, i, route, l, all);
    }
  }

  // ---- canaries among each other ----

  /** Another Ingress's canary for the same requests. */
  ghost predicate SecondCanary(ingresses: seq<Ingress>, controllers: Controllers, i: Ingress, route: Route, j: Ingress, q: Route) {
    && CanaryRoute(ingresses, controllers, j, q) && j.key != i.key
    && i.key in controllers && controllers[j.key] == controllers[i.key] && SameRequests(q, route)
  }

  /** Another Ingress's canary with the same Service and port. */
  ghost predicate SharedCanary(ingresses: seq<Ingress>, controllers: Controllers, i: Ingress, route: Route, j: Ingress, q: Route) {
    && CanaryRoute(ingresses, controllers, j, q) && j.key != i.key
    && i.key in controllers && controllers[j.key] == controllers[i.key] && SameBackend(i, route, j, q)
  }

  lemma CanaryAtFields(ingresses: seq<Ingress>, controllers: Controllers, i: Ingress, route: Route, all: seq<Member>)
    requires UniqueIngresses(ingresses) && all == Members(ingresses, controllers)
    ensures (exists x :: CanaryAt(all, controllers, i, route, x)) <==>
            exists j, q :: SecondCanary(ingresses, controllers, i, route, j, q)
  {
    if x :| CanaryAt(all, controllers, i, route, x) {
      MemberPart(ingresses, controllers, x);
      LocationsAgree(controllers[x.ingress.key], x.route, controllers[i.key], route);
      assert SecondCanary(ingresses, controllers, i, route, x.ingress, x.route);
    }
    if j, q :| SecondCanary(ingresses, controllers, i, route, j, q) {
      var x := MemberFor(ingresses, controllers, j, q);
      LocationsAgree(controllers[j.key], q, controllers[i.key], route);
      assert CanaryAt(all, controllers, i, route, x);
    }
  }

  lemma SharingFields(ingresses: seq<Ingress>, controllers: Controllers, i: Ingress, route: Route, all: seq<Member>)
    requires UniqueIngresses(ingresses) && all == Members(ingresses, controllers) && i.canaryRule.Some?
    ensures (exists x :: SharesUpstream(all, controllers, i, route, x)) <==>
            exists j, q :: SharedCanary(ingresses, controllers, i, route, j, q)
  {
    if x :| SharesUpstream(all, controllers, i, route, x) {
      MemberPart(ingresses, controllers, x);
      UpstreamsAgree(i, route, controllers[i.key], x.ingress, x.route, controllers[x.ingress.key]);
      assert SharedCanary(ingresses, controllers, i, route, x.ingress, x.route);
    }
    if j, q :| SharedCanary(ingresses, controllers, i, route, j, q) {
      var x := MemberFor(ingresses, controllers, j, q);
      UpstreamsAgree(i, route, controllers[i.key], j, q, controllers[j.key]);
      assert SharesUpstream(all, controllers, i, route, x);
    }
  }
}
