/** collectRouteOverlaps with its group, backend and Service maps. */
module OverlapCollection {
  import opened Collections
  import opened Kube
  import opened NodeIDs
  import opened Overlaps
  import opened OverlapMembers
  import opened OverlapRelation

  /** A missing key of a Go map of slices reads as the empty slice. */
  function ListAt<K, V>(m: map<K, seq<V>>, k: K): seq<V> {
    if k in m then m[k] else []
  }

  // ---- first pass: groups ----

  /** `keys` are the locations of `all` as they first appear, and `groups` their
      members. */
  ghost predicate Grouped(groups: map<Location, seq<Member>>, keys: seq<Location>, all: seq<Member>) {
    && keys == Locations(all)
    && forall l :: (l in groups <==> l in keys) && ListAt(groups, l) == Filter(all, IsAt(l))
  }

  lemma GroupedStep(groups: map<Location, seq<Member>>, keys: seq<Location>, all: seq<Member>, m: Member)
    requires Grouped(groups, keys, all)
    ensures Grouped(groups[m.location := ListAt(groups, m.location) + [m]],
                    if m.location in groups then keys else keys + [m.location], all + [m])
  {
    assert (all + [m])[..|all|] == all;
    var after := groups[m.location := ListAt(groups, m.location) + [m]];
    forall l ensures ListAt(after, l) == Filter(all + [m], IsAt(l)) {
      assert ListAt(groups, l) == Filter(all, IsAt(l));
    }
  }

  method GroupMembers(ingresses: seq<Ingress>, controllers: Controllers)
    returns (groups: map<Location, seq<Member>>, keys: seq<Location>)
    ensures Grouped(groups, keys, Members(ingresses, controllers))
  {
    groups, keys := map[], [];
    for i := 0 to |ingresses|
      invariant Grouped(groups, keys, Members(ingresses[..i], controllers))
    {
      FlatMapStep(ingresses, MembersOf(controllers), i);
      var ingress := ingresses[i];
      if ingress.key in controllers {
        groups, keys := AddMembers(ingress, controllers[ingress.key], IngressRoutes(ingress), groups, keys,
                                   Members(ingresses[..i], controllers));
      } else {
        assert Members(ingresses[..i + 1], controllers) == Members(ingresses[..i], controllers);
      }
    }
    WholePrefix(ingresses);
  }

  ghost predicate Seen(seen: set<Location>, members: seq<Member>) {
    forall l :: l in seen <==> HasMemberAt(members, l)
  }

  lemma SeenAppend(seen: set<Location>, members: seq<Member>, m: Member)
    requires Seen(seen, members)
    ensures Seen(seen + {m.location}, members + [m])
  {
    forall l ensures l in seen + {m.location} <==> HasMemberAt(members + [m], l) {
      HasMemberAppend(members, m, l);
    }
  }

  method AddMember(before: map<Location, seq<Member>>, first: seq<Location>, m: Member, ghost all: seq<Member>)
    returns (groups: map<Location, seq<Member>>, keys: seq<Location>)
    requires Grouped(before, first, all)
    ensures Grouped(groups, keys, all + [m])
  {
    GroupedStep(before, first, all, m);
    keys := if m.location in before then first else first + [m.location];
    groups := before[m.location := ListAt(before, m.location) + [m]];
  }

  lemma FirstMembersStep(ingress: Ingress, controller: NodeID, routes: seq<Route>, j: nat)
    requires j < |routes|
    ensures
      var earlier, route := FirstMembers(ingress, controller, routes[..j]), routes[j];
      var location := LocationOf(controller, route);
      FirstMembers(ingress, controller, routes[..j + 1]) ==
        if route.isDefault || HasMemberAt(earlier, location) then earlier else earlier + [Member(ingress, route, location)]
  {
    Extend(routes, j);
  }

  /** One route of an Ingress whose earlier routes gave `earlier`. */
  method AddRoute(ingress: Ingress, controller: NodeID, route: Route, before: map<Location, seq<Member>>, first: seq<Location>,
                  handled: set<Location>, ghost all: seq<Member>, ghost earlier: seq<Member>)
    returns (groups: map<Location, seq<Member>>, keys: seq<Location>, seen: set<Location>, ghost members: seq<Member>)
    requires Grouped(before, first, all + earlier) && Seen(handled, earlier)
    ensures members == (if route.isDefault || HasMemberAt(earlier, LocationOf(controller, route)) then earlier
                        else earlier + [Member(ingress, route, LocationOf(controller, route))])
    ensures Grouped(groups, keys, all + members) && Seen(seen, members)
  {
    groups, keys, seen, members := before, first, handled, earlier;
    var location := LocationOf(controller, route);
    if route.isDefault || location in seen {
      return;
    }
    var member := Member(ingress, route, location);
    SeenAppend(seen, earlier, member);
    seen := seen + {location};
    groups, keys := AddMember(groups, keys, member, all + earlier);
    members := earlier + [member];
    assert all + earlier + [member] == all + members;
  }

  method AddMembers(ingress: Ingress, controller: NodeID, routes: seq<Route>, before: map<Location, seq<Member>>,
                    first: seq<Location>, ghost all: seq<Member>)
    returns (groups: map<Location, seq<Member>>, keys: seq<Location>)
    requires Grouped(before, first, all)
    ensures Grouped(groups, keys, all + FirstMembers(ingress, controller, routes))
  {
    groups, keys := before, first;
    var seen: set<Location> := {};
    ghost var members: seq<Member> := [];
    assert all + members == all;
    for j := 0 to |routes|
      invariant members == FirstMembers(ingress, controller, routes[..j])
      invariant Grouped(groups, keys, all + members) && Seen(seen, members)
    {
      FirstMembersStep(ingress, controller, routes, j);
      groups, keys, seen, members := AddRoute(ingress, controller, routes[j], groups, keys, seen, all, members);
    }
    WholePrefix(routes);
  }

  // ---- second pass: canaries by Service and by the backend they split ----

  predicate IsCanary(m: Member) { m.Canary() }

  predicate IsPrimary(m: Member) { !m.Canary() }

  method Split(members: seq<Member>) returns (primaries: seq<Member>, canaries: seq<Member>)
    ensures primaries == Filter(members, IsPrimary) && canaries == Filter(members, IsCanary)
  {
    primaries, canaries := [], [];
    for j := 0 to |members|
      invariant primaries == Filter(members[..j], IsPrimary) && canaries == Filter(members[..j], IsCanary)
    {
      FilterStep(members, IsPrimary, j);
      FilterStep(members, IsCanary, j);
      if members[j].Canary() {
        canaries := canaries + [members[j]];
      } else {
        primaries := primaries + [members[j]];
      }
    }
    WholePrefix(members);
  }

  ghost predicate ByService(index: map<Upstream, seq<Member>>, canaries: seq<Member>) {
    forall u :: ListAt(index, u) == Filter(canaries, UsesUpstream(u))
  }

  ghost predicate ByBackend(index: map<Upstream, seq<CanaryLink>>, links: seq<CanaryLink>) {
    forall u :: ListAt(index, u) == Filter(links, SplitsUpstream(u))
  }

  method AddService(index: map<Upstream, seq<Member>>, canary: Member, ghost canaries: seq<Member>)
    returns (after: map<Upstream, seq<Member>>)
    requires ByService(index, canaries)
    ensures ByService(after, canaries + [canary])
  {
    after := index;
    var upstream := canary.Upstream();
    if upstream.Some? {
      after := index[upstream.value := ListAt(index, upstream.value) + [canary]];
    }
    assert (canaries + [canary])[..|canaries|] == canaries;
    forall u ensures ListAt(after, u) == Filter(canaries + [canary], UsesUpstream(u)) {
      assert ListAt(index, u) == Filter(canaries, UsesUpstream(u));
    }
  }

  method AddBackend(index: map<Upstream, seq<CanaryLink>>, l: CanaryLink, ghost links: seq<CanaryLink>)
    returns (after: map<Upstream, seq<CanaryLink>>)
    requires ByBackend(index, links)
    ensures ByBackend(after, links + [l])
  {
    after := index;
    var backend := l.primary.Upstream();
    if backend.Some? {
      after := index[backend.value := ListAt(index, backend.value) + [l]];
    }
    assert (links + [l])[..|links|] == links;
    forall u ensures ListAt(after, u) == Filter(links + [l], SplitsUpstream(u)) {
      assert ListAt(index, u) == Filter(links, SplitsUpstream(u));
    }
  }

  function LinksOf(oldest: Option<Member>, canaries: seq<Member>): seq<CanaryLink> {
    match oldest
    case None => []
    case Some(primary) => FlatMap(canaries, LinkTo(primary))
  }

  method AddCanaries(canaries: seq<Member>, oldest: Option<Member>,
                     services: map<Upstream, seq<Member>>, backends: map<Upstream, seq<CanaryLink>>,
                     ghost earlier: seq<Member>, ghost links: seq<CanaryLink>)
    returns (byService: map<Upstream, seq<Member>>, byBackend: map<Upstream, seq<CanaryLink>>)
    requires ByService(services, earlier) && ByBackend(backends, links)
    ensures ByService(byService, earlier + canaries) && ByBackend(byBackend, links + LinksOf(oldest, canaries))
  {
    byService, byBackend := services, backends;
    assert earlier + canaries[..0] == earlier && links + LinksOf(oldest, canaries[..0]) == links;
    for j := 0 to |canaries|
      invariant ByService(byService, earlier + canaries[..j])
      invariant ByBackend(byBackend, links + LinksOf(oldest, canaries[..j]))
    {
      Extend(canaries, j);
      byService := AddService(byService, canaries[j], earlier + canaries[..j]);
      assert earlier + canaries[..j] + [canaries[j]] == earlier + canaries[..j + 1];
      if oldest.Some? {
        FlatMapStep(canaries, LinkTo(oldest.value), j);
        var l := CanaryLink(canaries[j], oldest.value);
        byBackend := AddBackend(byBackend, l, links + LinksOf(oldest, canaries[..j]));
        assert links + LinksOf(oldest, canaries[..j]) + [l] == links + LinksOf(oldest, canaries[..j + 1]);
      }
    }
    WholePrefix(canaries);
  }

  lemma GroupSplits(all: seq<Member>, location: Location)
    ensures Filter(Filter(all, IsAt(location)), IsPrimary) == Filter(all, IsPrimaryAt(location))
    ensures Filter(Filter(all, IsAt(location)), IsCanary) == Filter(all, IsCanaryAt(location))
  {
    FilterFilter(all, IsAt(location), IsPrimary, IsPrimaryAt(location));
    FilterFilter(all, IsAt(location), IsCanary, IsCanaryAt(location));
  }

  method IndexCanaries(groups: map<Location, seq<Member>>, keys: seq<Location>, ghost all: seq<Member>)
    returns (oldestByKey: map<Location, Option<Member>>, byService: map<Upstream, seq<Member>>,
             byBackend: map<Upstream, seq<CanaryLink>>)
    requires Grouped(groups, keys, all)
    ensures forall l :: l in keys ==> l in oldestByKey && oldestByKey[l] == Oldest(all, l)
    ensures ByService(byService, AllCanaries(all)) && ByBackend(byBackend, AllLinks(all))
  {
    oldestByKey, byService, byBackend := map[], map[], map[];
    for k := 0 to |keys|
      invariant forall l :: l in keys[..k] ==> l in oldestByKey && oldestByKey[l] == Oldest(all, l)
      invariant ByService(byService, FlatMap(keys[..k], CanariesAt(all)))
      invariant ByBackend(byBackend, FlatMap(keys[..k], LinksAt(all)))
    {
      Extend(keys, k);
      FlatMapStep(keys, CanariesAt(all), k);
      FlatMapStep(keys, LinksAt(all), k);
      var key := keys[k];
      assert key in keys && ListAt(groups, key) == Filter(all, IsAt(key));
      GroupSplits(all, key);
      var primaries, canaries := Split(groups[key]);
      var oldest := OldestOf(primaries);
      oldestByKey := oldestByKey[key := oldest];
      byService, byBackend := AddCanaries(canaries, oldest, byService, byBackend,
                                          FlatMap(keys[..k], CanariesAt(all)), FlatMap(keys[..k], LinksAt(all)));
      assert LinksOf(oldest, canaries) == LinksAt(all)(key);
    }
    WholePrefix(keys);
  }

  // ---- third pass: the overlap of every member ----

  method Others(members: seq<Member>, m: Member) returns (primaries: seq<Member>, canaries: seq<Member>)
    ensures primaries == Filter(members, OtherPrimary(m)) && canaries == Filter(members, OtherCanary(m))
  {
    primaries, canaries := [], [];
    for j := 0 to |members|
      invariant primaries == Filter(members[..j], OtherPrimary(m)) && canaries == Filter(members[..j], OtherCanary(m))
    {
      FilterStep(members, OtherPrimary(m), j);
      FilterStep(members, OtherCanary(m), j);
      var other := members[j];
      if other.Same(m) {
        continue;
      }
      if other.Canary() {
        canaries := canaries + [other];
      } else {
        primaries := primaries + [other];
      }
    }
    WholePrefix(members);
  }

  method OthersSharing(canaries: seq<Member>, m: Member) returns (shared: seq<Member>)
    ensures shared == Filter(canaries, FromOtherIngress(m))
  {
    shared := [];
    for j := 0 to |canaries|
      invariant shared == Filter(canaries[..j], FromOtherIngress(m))
    {
      FilterStep(canaries, FromOtherIngress(m), j);
      if canaries[j].ingress.key != m.ingress.key {
        shared := shared + [canaries[j]];
      }
    }
    WholePrefix(canaries);
  }

  method OverlapOfOne(m: Member, members: seq<Member>, oldest: Option<Member>, byService: map<Upstream, seq<Member>>,
                      byBackend: map<Upstream, seq<CanaryLink>>, ghost all: seq<Member>)
    returns (overlap: Overlap)
    requires members == Filter(all, IsAt(m.location)) && oldest == Oldest(all, m.location)
    requires ByService(byService, AllCanaries(all)) && ByBackend(byBackend, AllLinks(all))
    ensures overlap == OverlapOf(all, m)
  {
    var primaries, locationCanaries := Others(members, m);
    var shared: seq<Member>, canaries: seq<CanaryLink> := [], [];
    var upstream := m.Upstream();
    if upstream.Some? {
      if m.Canary() {
        shared := OthersSharing(ListAt(byService, upstream.value), m);
      } else {
        canaries := ListAt(byBackend, upstream.value);
      }
    }
    var hasSelf := m.Canary() || primaries != [] || locationCanaries != [] || canaries != [];
    overlap := Overlap(primaries, locationCanaries, canaries, shared, oldest, m.Canary(), m.Rule(), hasSelf);
  }

  /** The map holds exactly the values that the elements handled so far give. */
  ghost predicate Covers<M, K, V>(index: map<K, V>, done: seq<M>, key: M -> K, value: M -> Option<V>) {
    && (forall k :: k in index ==> exists m :: m in done && key(m) == k && value(m).Some?)
    && (forall m :: m in done && value(m).Some? ==> key(m) in index && index[key(m)] == value(m).value)
  }

  lemma CoversStep<M, K, V>(index: map<K, V>, done: seq<M>, key: M -> K, value: M -> Option<V>, m: M)
    requires Covers(index, done, key, value)
    requires forall x :: x in done && key(x) == key(m) ==> x == m
    ensures Covers(if value(m).Some? then index[key(m) := value(m).value] else index, done + [m], key, value)
  {
    forall k | k in index ensures exists x :: x in done + [m] && key(x) == k && value(x).Some? {
      var x :| x in done && key(x) == k && value(x).Some?;
      assert x in done + [m];
    }
    assert m in done + [m];
  }

  function IDOf(m: Member): NodeID { m.ID() }

  function OverlapShown(all: seq<Member>): Member -> Option<Overlap> {
    (m: Member) => var overlap := OverlapOf(all, m); if overlap.hasSelf then Some(overlap) else None
  }

  function GroupOf(all: seq<Member>): Location -> seq<Member> {
    (l: Location) => Filter(all, IsAt(l))
  }

  lemma GroupsHoldAll(all: seq<Member>)
    ensures forall m :: m in FlatMap(Locations(all), GroupOf(all)) <==> m in all
  {
    FlatMapMember(Locations(all), GroupOf(all));
    LocationsMember(all);
    forall m ensures m in FlatMap(Locations(all), GroupOf(all)) <==> m in all {
      if m in FlatMap(Locations(all), GroupOf(all)) {
        var l :| l in Locations(all) && m in GroupOf(all)(l);
        FilterMember(all, IsAt(l));
      }
      if m in all {
        FilterMember(all, IsAt(m.location));
        assert m in GroupOf(all)(m.location);
      }
    }
  }

  /** Once all elements are handled, the map is the index of those with a value. */
  lemma CoversIndex<M, K, V>(all: seq<M>, index: map<K, V>, done: seq<M>, key: M -> K, value: M -> Option<V>,
                             keyIfShown: M -> Option<K>)
    requires Covers(index, done, key, value)
    requires forall m :: m in done <==> m in all
    requires forall m :: m in all ==> keyIfShown(m) == if value(m).Some? then Some(key(m)) else None
    ensures index.Keys == IndexBy(all, keyIfShown).Keys
    ensures forall k :: k in index ==> value(IndexBy(all, keyIfShown)[k]) == Some(index[k])
  {
    IndexMember(all, keyIfShown);
    var indexed := IndexBy(all, keyIfShown);
    forall k ensures k in index <==> k in indexed {
      if k in index {
        var m :| m in done && key(m) == k && value(m).Some?;
        assert keyIfShown(m) == Some(k);
      }
      if k in indexed {
        assert indexed[k] in done && keyIfShown(indexed[k]) == Some(k);
      }
    }
    forall k | k in index ensures value(indexed[k]) == Some(index[k]) {
      assert indexed[k] in done && keyIfShown(indexed[k]) == Some(k);
    }
  }

  lemma ShownOverlap(all: seq<Member>, m: Member)
    ensures OverlapShown(all)(m).Some? ==> OverlapShown(all)(m).value == OverlapOf(all, m)
    ensures AffectedID(all)(m) == if OverlapShown(all)(m).Some? then Some(IDOf(m)) else None
  {
  }

  lemma RouteOverlapsKeys(all: seq<Member>)
    ensures RouteOverlaps(all).Keys == IndexBy(all, AffectedID(all)).Keys
  {
  }

  lemma RouteOverlapsAt(all: seq<Member>, whole: map<NodeID, Overlap>, id: NodeID, overlap: Overlap)
    requires whole == RouteOverlaps(all) && id in IndexBy(all, AffectedID(all))
    requires OverlapShown(all)(IndexBy(all, AffectedID(all))[id]) == Some(overlap)
    ensures id in whole && whole[id] == overlap
  {
    ShownOverlap(all, IndexBy(all, AffectedID(all))[id]);
  }

  lemma CoversKeys(all: seq<Member>, overlaps: map<NodeID, Overlap>, done: seq<Member>)
    requires Covers(overlaps, done, IDOf, OverlapShown(all))
    requires forall m :: m in done <==> m in all
    ensures overlaps.Keys == IndexBy(all, AffectedID(all)).Keys
    ensures forall k :: k in overlaps ==> OverlapShown(all)(IndexBy(all, AffectedID(all))[k]) == Some(overlaps[k])
  {
    forall m ensures AffectedID(all)(m) == if OverlapShown(all)(m).Some? then Some(IDOf(m)) else None {
      ShownOverlap(all, m);
    }
    CoversIndex(all, overlaps, done, IDOf, OverlapShown(all), AffectedID(all));
  }

  lemma CoversAll(all: seq<Member>, overlaps: map<NodeID, Overlap>, done: seq<Member>, whole: map<NodeID, Overlap>)
    requires Covers(overlaps, done, IDOf, OverlapShown(all))
    requires forall m :: m in done <==> m in all
    requires whole == RouteOverlaps(all)
    ensures overlaps == whole
  {
    CoversKeys(all, overlaps, done);
    RouteOverlapsKeys(all);
    forall id | id in overlaps ensures overlaps[id] == whole[id] {
      RouteOverlapsAt(all, whole, id, overlaps[id]);
    }
    SameMap(overlaps, whole);
  }

  /** The elements' values added to a map in order. */
  function Added<M, K, V>(index: map<K, V>, xs: seq<M>, key: M -> K, value: M -> Option<V>): map<K, V> {
    if xs == [] then index
    else
      var earlier, m := Added(index, xs[..|xs| - 1], key, value), xs[|xs| - 1];
      if value(m).Some? then earlier[key(m) := value(m).value] else earlier
  }

  lemma {:induction false} AddedCovers<M, K, V>(index: map<K, V>, done: seq<M>, xs: seq<M>, key: M -> K, value: M -> Option<V>)
    requires Covers(index, done, key, value)
    requires forall a, b :: a in done + xs && b in done + xs && key(a) == key(b) ==> a == b
    ensures Covers(Added(index, xs, key, value), done + xs, key, value)
  {
    if xs == [] {
      assert done + xs == done;
    } else {
      var front, m := xs[..|xs| - 1], xs[|xs| - 1];
      assert xs == front + [m] && done + xs == done + front + [m];
      AddedCovers(index, done, front, key, value);
      CoversStep(Added(index, front, key, value), done + front, key, value, m);
    }
  }

  method AddOverlap(m: Member, members: seq<Member>, before: map<NodeID, Overlap>, oldest: Option<Member>,
                    byService: map<Upstream, seq<Member>>, byBackend: map<Upstream, seq<CanaryLink>>,
                    ghost all: seq<Member>)
    returns (overlaps: map<NodeID, Overlap>)
    requires members == Filter(all, IsAt(m.location)) && oldest == Oldest(all, m.location)
    requires ByService(byService, AllCanaries(all)) && ByBackend(byBackend, AllLinks(all))
    ensures overlaps == if OverlapShown(all)(m).Some? then before[IDOf(m) := OverlapShown(all)(m).value] else before
  {
    overlaps := before;
    var overlap := OverlapOfOne(m, members, oldest, byService, byBackend, all);
    if overlap.hasSelf {
      overlaps := before[m.ID() := overlap];
    }
  }

  lemma AddedStep<M, K, V>(index: map<K, V>, xs: seq<M>, key: M -> K, value: M -> Option<V>, i: nat)
    requires i < |xs|
    ensures
      var earlier := Added(index, xs[..i], key, value);
      Added(index, xs[..i + 1], key, value) ==
        if value(xs[i]).Some? then earlier[key(xs[i]) := value(xs[i]).value] else earlier
  {
    Extend(xs, i);
  }

  method AddOverlaps(members: seq<Member>, before: map<NodeID, Overlap>, oldest: Option<Member>,
                     byService: map<Upstream, seq<Member>>, byBackend: map<Upstream, seq<CanaryLink>>,
                     ghost all: seq<Member>, ghost location: Location)
    returns (overlaps: map<NodeID, Overlap>)
    requires members == Filter(all, IsAt(location)) && oldest == Oldest(all, location)
    requires ByService(byService, AllCanaries(all)) && ByBackend(byBackend, AllLinks(all))
    ensures overlaps == Added(before, members, IDOf, OverlapShown(all))
  {
    overlaps := before;
    FilterMember(all, IsAt(location));
    for j := 0 to |members|
      invariant overlaps == Added(before, members[..j], IDOf, OverlapShown(all))
    {
      assert members[j] in members;
      AddedStep(before, members, IDOf, OverlapShown(all), j);
      overlaps := AddOverlap(members[j], members, overlaps, oldest, byService, byBackend, all);
    }
    WholePrefix(members);
  }

  lemma IDsUnique(ingresses: seq<Ingress>, controllers: Controllers)
    requires UniqueIngresses(ingresses)
    ensures
      var all := Members(ingresses, controllers);
      forall a, b :: a in all && b in all && IDOf(a) == IDOf(b) ==> a == b
  {
    var all := Members(ingresses, controllers);
    forall a, b | a in all && b in all && IDOf(a) == IDOf(b) ensures a == b {
      MemberByID(ingresses, controllers, a, b);
    }
  }

  lemma GroupsWithin(all: seq<Member>, keys: seq<Location>)
    ensures forall m :: m in FlatMap(keys, GroupOf(all)) ==> m in all
  {
    FlatMapMember(keys, GroupOf(all));
    forall m | m in FlatMap(keys, GroupOf(all)) ensures m in all {
      var l :| l in keys && m in GroupOf(all)(l);
      FilterMember(all, IsAt(l));
    }
  }

  /** One round of the last pass. */
  lemma RoundCovers(all: seq<Member>, overlaps: map<NodeID, Overlap>, keys: seq<Location>, k: nat,
                    shown: Member -> Option<Overlap>)
    requires k < |keys|
    requires forall a, b :: a in all && b in all && IDOf(a) == IDOf(b) ==> a == b
    requires Covers(overlaps, FlatMap(keys[..k], GroupOf(all)), IDOf, shown)
    ensures Covers(Added(overlaps, GroupOf(all)(keys[k]), IDOf, shown), FlatMap(keys[..k + 1], GroupOf(all)), IDOf, shown)
  {
    FlatMapStep(keys, GroupOf(all), k);
    GroupsWithin(all, keys[..k + 1]);
    AddedCovers(overlaps, FlatMap(keys[..k], GroupOf(all)), GroupOf(all)(keys[k]), IDOf, shown);
  }

  method CollectRouteOverlaps(ingresses: seq<Ingress>, controllers: Controllers) returns (overlaps: map<NodeID, Overlap>)
    requires UniqueIngresses(ingresses)
    ensures overlaps == RouteOverlaps(Members(ingresses, controllers))
  {
    ghost var all := Members(ingresses, controllers);
    var groups, keys := GroupMembers(ingresses, controllers);
    var oldestByKey, byService, byBackend := IndexCanaries(groups, keys, all);
    IDsUnique(ingresses, controllers);
    overlaps := map[];
    for k := 0 to |keys|
      invariant Covers(overlaps, FlatMap(keys[..k], GroupOf(all)), IDOf, OverlapShown(all))
    {
      var key := keys[k];
      assert key in keys && ListAt(groups, key) == Filter(all, IsAt(key)) == GroupOf(all)(key);
      RoundCovers(all, overlaps, keys, k, OverlapShown(all));
      overlaps := AddOverlaps(groups[key], overlaps, oldestByKey[key], byService, byBackend, all, key);
    }
    WholePrefix(keys);
    GroupsHoldAll(all);
    CoversAll(all, overlaps, FlatMap(keys, GroupOf(all)), RouteOverlaps(all));
  }
}
