/** Route overlaps and ingress-nginx canaries: what the multi-pass grouping of
    builder_overlaps.go computes, as functions of the Ingress list. */
module Overlaps {
  import opened Collections
  import opened Kube
  import opened NodeIDs
  import Sorting
  import Text

  /** The traffic one controller matches. */
  datatype Location = Location(controller: NodeID, host: string, path: string, pathType: string)

  /** The upstream ingress-nginx builds: one per controller, namespace, Service
      and port. */
  datatype Upstream = UpstreamOf(controller: NodeID, namespace: string, service: string, port: string)

  /** One Ingress's route at a location. */
  datatype Member = Member(ingress: Ingress, route: Route, location: Location)
  {
    predicate Canary() { ingress.canaryRule.Some? }

    function Rule(): string { if ingress.canaryRule.Some? then ingress.canaryRule.value else "" }

    predicate Same(other: Member) {
      ingress.key == other.ingress.key && route.id == other.route.id
    }

    function Upstream(): Option<Upstream> {
      if route.serviceName == "" then None
      else Some(UpstreamOf(location.controller, ingress.key.namespace, route.serviceName, route.PortLabel()))
    }

    function ID(): NodeID { IngressRouteID(ingress.key, route.id) }

    function IngressName(): string { Display(ingress.key) }
  }

  datatype CanaryLink = CanaryLink(canary: Member, primary: Member)

  datatype Overlap = Overlap(
    primaries: seq<Member>, locationCanaries: seq<Member>, canaries: seq<CanaryLink>,
    sharedService: seq<Member>, oldest: Option<Member>, canary: bool, rule: string, hasSelf: bool)

  const NO_OVERLAP := Overlap([], [], [], [], None, false, "", false)

  function PathOrRoot(path: string): string { if path == "" then "/" else path }

  function LocationOf(controller: NodeID, route: Route): Location {
    Location(controller, Text.Lower(route.host), PathOrRoot(route.path),
             if route.pathType == "" then "ImplementationSpecific" else route.pathType)
  }

  type Controllers = map<Key, NodeID>

  // ---- grouping ----

  predicate HasMemberAt(members: seq<Member>, location: Location) {
    exists m :: m in members && m.location == location
  }

  /** The members one Ingress contributes: its non-default routes, and only the
      first of those that share a location. */
  function FirstMembers(ingress: Ingress, controller: NodeID, routes: seq<Route>): seq<Member> {
    if routes == [] then []
    else
      var earlier, route := FirstMembers(ingress, controller, routes[..|routes| - 1]), routes[|routes| - 1];
      var location := LocationOf(controller, route);
      if route.isDefault || HasMemberAt(earlier, location) then earlier
      else earlier + [Member(ingress, route, location)]
  }

  function MembersOf(controllers: Controllers): Ingress -> seq<Member> {
    (ingress: Ingress) =>
      if ingress.key in controllers then FirstMembers(ingress, controllers[ingress.key], IngressRoutes(ingress)) else []
  }

  function Members(ingresses: seq<Ingress>, controllers: Controllers): seq<Member> {
    FlatMap(ingresses, MembersOf(controllers))
  }

  /** Locations in order of first appearance. */
  function Locations(all: seq<Member>): seq<Location> {
    if all == [] then []
    else
      var earlier, location := Locations(all[..|all| - 1]), all[|all| - 1].location;
      if location in earlier then earlier else earlier + [location]
  }

  function IsAt(location: Location): Member -> bool {
    (m: Member) => m.location == location
  }

  function IsPrimaryAt(location: Location): Member -> bool {
    (m: Member) => m.location == location && !m.Canary()
  }

  function IsCanaryAt(location: Location): Member -> bool {
    (m: Member) => m.location == location && m.Canary()
  }

  predicate Older(a: Member, b: Member) {
    if a.ingress.created != b.ingress.created then a.ingress.created < b.ingress.created
    else Sorting.Before(KeyText(a.ingress.key), KeyText(b.ingress.key))
  }

  function OldestOf(primaries: seq<Member>): Option<Member> {
    if primaries == [] then None
    else
      var sorted := Sorting.SortBy(primaries, Older);
      assert |multiset(sorted)| == |multiset(primaries)|;
      Some(sorted[0])
  }

  /** The Ingress ingress-nginx serves at a location. */
  function Oldest(all: seq<Member>, location: Location): Option<Member> {
    OldestOf(Filter(all, IsPrimaryAt(location)))
  }

  function CanariesAt(all: seq<Member>): Location -> seq<Member> {
    (location: Location) => Filter(all, IsCanaryAt(location))
  }

  /** All canary routes, location by location. */
  function AllCanaries(all: seq<Member>): seq<Member> {
    FlatMap(Locations(all), CanariesAt(all))
  }

  function LinkTo(primary: Member): Member -> seq<CanaryLink> {
    (canary: Member) => [CanaryLink(canary, primary)]
  }

  function LinksAt(all: seq<Member>): Location -> seq<CanaryLink> {
    (location: Location) =>
      match Oldest(all, location)
      case None => []
      case Some(oldest) => FlatMap(CanariesAt(all)(location), LinkTo(oldest))
  }

  function AllLinks(all: seq<Member>): seq<CanaryLink> {
    FlatMap(Locations(all), LinksAt(all))
  }

  function SplitsUpstream(upstream: Upstream): CanaryLink -> bool {
    (l: CanaryLink) => l.primary.Upstream() == Some(upstream)
  }

  function UsesUpstream(upstream: Upstream): Member -> bool {
    (m: Member) => m.Upstream() == Some(upstream)
  }

  // ---- the overlap of one member ----

  function OtherPrimary(m: Member): Member -> bool {
    (o: Member) => !o.Same(m) && !o.Canary()
  }

  function OtherCanary(m: Member): Member -> bool {
    (o: Member) => !o.Same(m) && o.Canary()
  }

  function FromOtherIngress(m: Member): Member -> bool {
    (o: Member) => o.ingress.key != m.ingress.key
  }

  function OverlapOf(all: seq<Member>, m: Member): Overlap {
    var group := Filter(all, IsAt(m.location));
    var primaries := Filter(group, OtherPrimary(m));
    var locationCanaries := Filter(group, OtherCanary(m));
    var shared :=
      if m.Canary() && m.Upstream().Some?
      then Filter(Filter(AllCanaries(all), UsesUpstream(m.Upstream().value)), FromOtherIngress(m))
      else [];
    var canaries :=
      if !m.Canary() && m.Upstream().Some?
      then Filter(AllLinks(all), SplitsUpstream(m.Upstream().value))
      else [];
    Overlap(primaries, locationCanaries, canaries, shared, Oldest(all, m.location), m.Canary(), m.Rule(),
            m.Canary() || primaries != [] || locationCanaries != [] || canaries != [])
  }

  function AffectedID(all: seq<Member>): Member -> Option<NodeID> {
    (m: Member) => if OverlapOf(all, m).hasSelf then Some(m.ID()) else None
  }

  /** Overlaps of every affected route node. */
  function RouteOverlaps(all: seq<Member>): map<NodeID, Overlap> {
    var affected := IndexBy(all, AffectedID(all));
    map id | id in affected :: OverlapOf(all, affected[id])
  }

  function OverlapAt(overlaps: map<NodeID, Overlap>, id: NodeID): Overlap {
    if id in overlaps then overlaps[id] else NO_OVERLAP
  }

  // ---- what the route node shows ----

  function NameOf(m: Member): seq<string> { [m.IngressName()] }

  /** overlapIngressNames */
  function NameList(members: seq<Member>): string {
    Text.Join(Sorting.SortStrings(FlatMap(members, NameOf)), ", ")
  }

  function LocationLabel(route: Route): string {
    (if route.host == "" then "*" else route.host) + PathOrRoot(route.path)
  }

  function LinkText(ingress: Key, route: Route): CanaryLink -> seq<string> {
    (l: CanaryLink) =>
      [l.canary.IngressName() + " -> " + l.canary.route.BackendLabel() + " (" + l.canary.Rule() + ")" +
       (if l.primary.ingress.key != ingress || l.primary.route.id != route.id
        then ", applied through Service " + route.serviceName + " shared with " + LocationLabel(l.primary.route)
        else "")]
  }

  function CanaryTexts(overlap: Overlap, ingress: Key, route: Route): string {
    Text.Join(Sorting.SortStrings(FlatMap(overlap.canaries, LinkText(ingress, route))), "; ")
  }

  function Shown(empty: bool, text: string): Option<string> {
    if empty then None else Some(text)
  }

  /** The property keys of a route node that tell about overlaps. */
  datatype PropertyName = CanaryFlag | CanaryRule | CanaryOf | CanaryServiceSharedWith | ConflictsWith | CanaryList

  function Property(name: PropertyName, text: Option<string>): map<PropertyName, string> {
    if text.Some? then map[name := text.value] else map[]
  }

  function PropertiesFrom(canary: bool, rule: string, primaries: Option<string>, shared: Option<string>,
                          canaries: Option<string>): map<PropertyName, string> {
    if canary then
      map[CanaryFlag := "true", CanaryRule := rule]
      + Property(CanaryOf, primaries) + Property(CanaryServiceSharedWith, shared)
    else
      Property(ConflictsWith, primaries) + Property(CanaryList, canaries)
  }

  /** overlapProperties */
  function OverlapProperties(overlap: Overlap, ingress: Key, route: Route): map<PropertyName, string> {
    if !overlap.hasSelf then map[]
    else
      PropertiesFrom(overlap.canary, overlap.rule,
                     Shown(overlap.primaries == [], NameList(overlap.primaries)),
                     Shown(overlap.sharedService == [], NameList(overlap.sharedService)),
                     Shown(overlap.canaries == [], CanaryTexts(overlap, ingress, route)))
  }
}
