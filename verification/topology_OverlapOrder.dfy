/** Informer listers return Ingresses in any order; what route nodes show about
    overlaps does not depend on it. */
module OverlapOrder {
  import opened Collections
  import opened Kube
  import opened NodeIDs
  import opened Overlaps
  import opened OverlapMembers
  import opened OverlapRelation
  import opened Diagnosis
  import Sorting

  /** The same overlap with its lists rearranged. */
  ghost predicate Rearranged(a: Overlap, b: Overlap) {
    && multiset(a.primaries) == multiset(b.primaries)
    && multiset(a.locationCanaries) == multiset(b.locationCanaries)
    && multiset(a.canaries) == multiset(b.canaries)
    && multiset(a.sharedService) == multiset(b.sharedService)
    && a.oldest == b.oldest && a.canary == b.canary && a.rule == b.rule && a.hasSelf == b.hasSelf
  }

  lemma EmptyTogether<T>(a: seq<T>, b: seq<T>)
    requires multiset(a) == multiset(b)
    ensures a == [] <==> b == []
  {
    assert |a| == |multiset(a)| && |b| == |multiset(b)|;
  }

  lemma MembersRearranged(xs: seq<Ingress>, ys: seq<Ingress>, controllers: Controllers)
    requires multiset(xs) == multiset(ys)
    ensures multiset(Members(xs, controllers)) == multiset(Members(ys, controllers))
  {
    FlatMapPermuted(xs, ys, MembersOf(controllers), MembersOf(controllers));
  }

  lemma {:induction false} LocationsOnce(all: seq<Member>)
    ensures forall i, j :: 0 <= i < j < |Locations(all)| ==> Locations(all)[i] != Locations(all)[j]
  {
    if all != [] {
      LocationsOnce(all[..|all| - 1]);
    }
  }

  /** A sequence without repetitions is determined, up to order, by its members. */
  lemma {:induction false} NoRepeats<T(!new)>(xs: seq<T>)
    requires forall i, j :: 0 <= i < j < |xs| ==> xs[i] != xs[j]
    ensures forall x :: multiset(xs)[x] == if x in xs then 1 else 0
  {
    if xs != [] {
      var front, last := xs[..|xs| - 1], xs[|xs| - 1];
      NoRepeats(front);
      assert xs == front + [last];
    }
  }

  lemma LocationsRearranged(a: seq<Member>, b: seq<Member>)
    requires multiset(a) == multiset(b)
    ensures multiset(Locations(a)) == multiset(Locations(b))
  {
    Sorting.SameMembers(a, b);
    LocationsMember(a);
    LocationsMember(b);
    LocationsOnce(a);
    LocationsOnce(b);
    NoRepeats(Locations(a));
    NoRepeats(Locations(b));
    forall location ensures multiset(Locations(a))[location] == multiset(Locations(b))[location] {
      assert location in Locations(a) <==> location in Locations(b);
    }
  }

  lemma OldestRearranged(xs: seq<Ingress>, ys: seq<Ingress>, controllers: Controllers, location: Location)
    requires multiset(xs) == multiset(ys) && UniqueIngresses(xs) && UniqueIngresses(ys)
    ensures Oldest(Members(xs, controllers), location) == Oldest(Members(ys, controllers), location)
  {
    var a, b := Members(xs, controllers), Members(ys, controllers);
    MembersRearranged(xs, ys, controllers);
    Sorting.SameMembers(a, b);
    FilterPermuted(a, b, IsPrimaryAt(location));
    EmptyTogether(Filter(a, IsPrimaryAt(location)), Filter(b, IsPrimaryAt(location)));
    if Oldest(a, location).Some? {
      OldestExactly(xs, controllers, location, Oldest(a, location).value);
      OldestExactly(ys, controllers, location, Oldest(a, location).value);
    }
  }

  lemma LinksRearranged(xs: seq<Ingress>, ys: seq<Ingress>, controllers: Controllers)
    requires multiset(xs) == multiset(ys) && UniqueIngresses(xs) && UniqueIngresses(ys)
    ensures multiset(AllLinks(Members(xs, controllers))) == multiset(AllLinks(Members(ys, controllers)))
    ensures multiset(AllCanaries(Members(xs, controllers))) == multiset(AllCanaries(Members(ys, controllers)))
  {
    var a, b := Members(xs, controllers), Members(ys, controllers);
    MembersRearranged(xs, ys, controllers);
    LocationsRearranged(a, b);
    forall location
      ensures multiset(CanariesAt(a)(location)) == multiset(CanariesAt(b)(location))
      ensures multiset(LinksAt(a)(location)) == multiset(LinksAt(b)(location))
    {
      FilterPermuted(a, b, IsCanaryAt(location));
      OldestRearranged(xs, ys, controllers, location);
      if Oldest(a, location).Some? {
        var link := LinkTo(Oldest(a, location).value);
        FlatMapPermuted(CanariesAt(a)(location), CanariesAt(b)(location), link, link);
      }
    }
    FlatMapPermuted(Locations(a), Locations(b), LinksAt(a), LinksAt(b));
    FlatMapPermuted(Locations(a), Locations(b), CanariesAt(a), CanariesAt(b));
  }

  lemma OverlapRearranged(xs: seq<Ingress>, ys: seq<Ingress>, controllers: Controllers, m: Member)
    requires multiset(xs) == multiset(ys) && UniqueIngresses(xs) && UniqueIngresses(ys)
    ensures Rearranged(OverlapOf(Members(xs, controllers), m), OverlapOf(Members(ys, controllers), m))
  {
    var a, b := Members(xs, controllers), Members(ys, controllers);
    MembersRearranged(xs, ys, controllers);
    LinksRearranged(xs, ys, controllers);
    OldestRearranged(xs, ys, controllers, m.location);
    FilterPermuted(a, b, IsAt(m.location));
    FilterPermuted(Filter(a, IsAt(m.location)), Filter(b, IsAt(m.location)), OtherPrimary(m));
    FilterPermuted(Filter(a, IsAt(m.location)), Filter(b, IsAt(m.location)), OtherCanary(m));
    if m.Upstream().Some? {
      var u := m.Upstream().value;
      FilterPermuted(AllLinks(a), AllLinks(b), SplitsUpstream(u));
      FilterPermuted(AllCanaries(a), AllCanaries(b), UsesUpstream(u));
      FilterPermuted(Filter(AllCanaries(a), UsesUpstream(u)), Filter(AllCanaries(b), UsesUpstream(u)), FromOtherIngress(m));
    }
    var p, q := OverlapOf(a, m), OverlapOf(b, m);
    EmptyTogether(p.primaries, q.primaries);
    EmptyTogether(p.locationCanaries, q.locationCanaries);
    EmptyTogether(p.canaries, q.canaries);
  }

  lemma MemberOverlapRearranged(xs: seq<Ingress>, ys: seq<Ingress>, controllers: Controllers, m: Member)
    requires multiset(xs) == multiset(ys) && UniqueIngresses(xs) && UniqueIngresses(ys)
    requires m in Members(xs, controllers) && m in Members(ys, controllers)
    ensures Rearranged(OverlapAt(RouteOverlaps(Members(xs, controllers)), m.ID()),
                       OverlapAt(RouteOverlaps(Members(ys, controllers)), m.ID()))
  {
    OverlapOfMember(xs, controllers, m);
    OverlapOfMember(ys, controllers, m);
    OverlapRearranged(xs, ys, controllers, m);
  }

  lemma RouteOverlapRearranged(xs: seq<Ingress>, ys: seq<Ingress>, controllers: Controllers, id: NodeID)
    requires multiset(xs) == multiset(ys) && UniqueIngresses(xs) && UniqueIngresses(ys)
    ensures Rearranged(OverlapAt(RouteOverlaps(Members(xs, controllers)), id), OverlapAt(RouteOverlaps(Members(ys, controllers)), id))
  {
    var a, b := Members(xs, controllers), Members(ys, controllers);
    MembersRearranged(xs, ys, controllers);
    Sorting.SameMembers(a, b);
    if m :| m in a && m.ID() == id {
      MemberOverlapRearranged(xs, ys, controllers, m);
    } else {
      OverlapOfOther(xs, controllers, id);
      OverlapOfOther(ys, controllers, id);
    }
  }

  lemma NamesRearranged(a: seq<Member>, b: seq<Member>)
    requires multiset(a) == multiset(b)
    ensures NameList(a) == NameList(b)
  {
    FlatMapPermuted(a, b, NameOf, NameOf);
    Sorting.SortStringsCanonical(FlatMap(a, NameOf), FlatMap(b, NameOf));
  }

  ghost predicate SameTexts(a: Overlap, b: Overlap, ingress: Key, route: Route) {
    && NameList(a.primaries) == NameList(b.primaries)
    && NameList(a.sharedService) == NameList(b.sharedService)
    && NameList(a.locationCanaries) == NameList(b.locationCanaries)
    && CanaryTexts(a, ingress, route) == CanaryTexts(b, ingress, route)
  }

  ghost predicate EmptyAlike(a: Overlap, b: Overlap) {
    && (a.primaries == [] <==> b.primaries == [])
    && (a.locationCanaries == [] <==> b.locationCanaries == [])
    && (a.canaries == [] <==> b.canaries == [])
    && (a.sharedService == [] <==> b.sharedService == [])
  }

  lemma TextsRearranged(a: Overlap, b: Overlap, ingress: Key, route: Route)
    requires Rearranged(a, b)
    ensures SameTexts(a, b, ingress, route)
  {
    NamesRearranged(a.primaries, b.primaries);
    NamesRearranged(a.sharedService, b.sharedService);
    NamesRearranged(a.locationCanaries, b.locationCanaries);
    var text := LinkText(ingress, route);
    FlatMapPermuted(a.canaries, b.canaries, text, text);
    Sorting.SortStringsCanonical(FlatMap(a.canaries, text), FlatMap(b.canaries, text));
  }

  lemma EmptinessRearranged(a: Overlap, b: Overlap)
    requires Rearranged(a, b)
    ensures EmptyAlike(a, b)
  {
    EmptyTogether(a.primaries, b.primaries);
    EmptyTogether(a.locationCanaries, b.locationCanaries);
    EmptyTogether(a.canaries, b.canaries);
    EmptyTogether(a.sharedService, b.sharedService);
  }

  lemma ShownAlike(emptyA: bool, a: string, emptyB: bool, b: string)
    requires emptyA == emptyB && a == b
    ensures Shown(emptyA, a) == Shown(emptyB, b)
  {
  }

  lemma PropertiesAlike(a: Overlap, b: Overlap, ingress: Key, route: Route)
    requires SameTexts(a, b, ingress, route) && EmptyAlike(a, b)
    requires a.canary == b.canary && a.rule == b.rule && a.hasSelf == b.hasSelf
    ensures OverlapProperties(a, ingress, route) == OverlapProperties(b, ingress, route)
  {
    if a.hasSelf {
      var p := Shown(a.primaries == [], NameList(a.primaries));
      var s := Shown(a.sharedService == [], NameList(a.sharedService));
      var c := Shown(a.canaries == [], CanaryTexts(a, ingress, route));
      ShownAlike(a.primaries == [], NameList(a.primaries), b.primaries == [], NameList(b.primaries));
      ShownAlike(a.sharedService == [], NameList(a.sharedService), b.sharedService == [], NameList(b.sharedService));
      ShownAlike(a.canaries == [], CanaryTexts(a, ingress, route), b.canaries == [], CanaryTexts(b, ingress, route));
      PropertiesAre(a, ingress, route, p, s, c);
      PropertiesAre(b, ingress, route, p, s, c);
    }
  }

  lemma VerdictsAlike(a: Overlap, b: Overlap, ingress: Key, route: Route, finding: Finding)
    requires SameTexts(a, b, ingress, route) && EmptyAlike(a, b)
    requires a.canary == b.canary && a.hasSelf == b.hasSelf && a.oldest == b.oldest
    ensures ApplyOverlap(finding, a) == ApplyOverlap(finding, b)
  {
  }

  /** Rearranged overlaps look the same. */
  lemma RenderedAlike(a: Overlap, b: Overlap, ingress: Key, route: Route, finding: Finding)
    requires Rearranged(a, b)
    ensures OverlapProperties(a, ingress, route) == OverlapProperties(b, ingress, route)
    ensures ApplyOverlap(finding, a) == ApplyOverlap(finding, b)
  {
    TextsRearranged(a, b, ingress, route);
    EmptinessRearranged(a, b);
    PropertiesAlike(a, b, ingress, route);
    VerdictsAlike(a, b, ingress, route, finding);
  }

  /** No route's properties or verdict depends on the order of the Ingresses. */
  lemma OrderDoesNotShow(xs: seq<Ingress>, ys: seq<Ingress>, controllers: Controllers, i: Ingress, route: Route, finding: Finding)
    requires multiset(xs) == multiset(ys) && UniqueIngresses(xs) && UniqueIngresses(ys)
    ensures
      var id := IngressRouteID(i.key, route.id);
      var a, b := OverlapAt(RouteOverlaps(Members(xs, controllers)), id), OverlapAt(RouteOverlaps(Members(ys, controllers)), id);
      && OverlapProperties(a, i.key, route) == OverlapProperties(b, i.key, route)
      && ApplyOverlap(finding, a) == ApplyOverlap(finding, b)
  {
    var id := IngressRouteID(i.key, route.id);
    RouteOverlapRearranged(xs, ys, controllers, id);
    RenderedAlike(OverlapAt(RouteOverlaps(Members(xs, controllers)), id), OverlapAt(RouteOverlaps(Members(ys, controllers)), id),
                  i.key, route, finding);
  }
}
