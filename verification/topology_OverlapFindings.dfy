/** When a route node shows a finding about other Ingresses, and which one. */
module OverlapFindings {
  import opened Collections
  import opened Kube
  import opened NodeIDs
  import opened Overlaps
  import opened OverlapRelation
  import opened CanaryRelation
  import opened OverlapFields
  import opened Diagnosis
  import opened Builder
  import opened ReadyRoutes

  /** Another Ingress's canary shares the Service. */
  ghost predicate Shares(ingresses: seq<Ingress>, controllers: Controllers, i: Ingress, route: Route) {
    exists j, q :: SharedCanary(ingresses, controllers, i, route, j, q)
  }

  /** Another Ingress's canary claims the requests. */
  ghost predicate Doubled(ingresses: seq<Ingress>, controllers: Controllers, i: Ingress, route: Route) {
    exists j, q :: SecondCanary(ingresses, controllers, i, route, j, q)
  }

  ghost predicate Served(ingresses: seq<Ingress>, controllers: Controllers, i: Ingress, route: Route, served: Option<Key>) {
    && i.key in controllers && served.Some?
    && exists p :: IsServed(ingresses, controllers, controllers[i.key], route, p) && served == Some(p.key)
  }

  /** The finding that the relation among the Ingresses calls for. */
  ghost predicate CalledFor(ingresses: seq<Ingress>, controllers: Controllers, i: Ingress, route: Route, f: Finding) {
    && TakesPart(controllers, i, route)
    && match f
       case CanaryWithoutPrimary => i.canaryRule.Some? && !Contested(ingresses, controllers, i, route)
       case CanaryServiceShared(_) =>
         i.canaryRule.Some? && Contested(ingresses, controllers, i, route) && Shares(ingresses, controllers, i, route)
       case SeveralCanaries(_) =>
         && i.canaryRule.Some? && Contested(ingresses, controllers, i, route)
         && !Shares(ingresses, controllers, i, route) && Doubled(ingresses, controllers, i, route)
       case LocationConflict(_, served) =>
         && i.canaryRule.None? && Contested(ingresses, controllers, i, route)
         && Served(ingresses, controllers, i, route, served)
       case _ => false
  }

  predicate AboutOverlap(f: Finding) {
    f.CanaryWithoutPrimary? || f.CanaryServiceShared? || f.SeveralCanaries? || f.LocationConflict?
  }

  /** What a node's overlap says, in terms of the relation. */
  lemma OverlapSays(ingresses: seq<Ingress>, controllers: Controllers, i: Ingress, route: Route, all: seq<Member>, o: Overlap)
    requires UniqueIngresses(ingresses) && i in ingresses && route in IngressRoutes(i)
    requires all == Members(ingresses, controllers) && o == NodeOverlap(all, i, route)
    ensures o.primaries != [] <==> TakesPart(controllers, i, route) && Contested(ingresses, controllers, i, route)
    ensures o.hasSelf ==> TakesPart(controllers, i, route) && o.canary == i.canaryRule.Some?
    ensures i.canaryRule.Some? ==> (o.hasSelf <==> TakesPart(controllers, i, route))
    ensures o.primaries != [] ==> o.hasSelf
  {
    PrimariesShown(ingresses, controllers, i, route, all, o);
    RivalsExactly(ingresses, controllers, i, route);
    ListsKnowThemselves(ingresses, controllers, i, route, o);
    if !TakesPart(controllers, i, route) {
      NoPartNoOverlap(ingresses, controllers, i, route);
    }
  }

  lemma CanarySays(ingresses: seq<Ingress>, controllers: Controllers, i: Ingress, route: Route, all: seq<Member>, o: Overlap)
    requires UniqueIngresses(ingresses) && i in ingresses && route in IngressRoutes(i)
    requires all == Members(ingresses, controllers) && o == NodeOverlap(all, i, route)
    requires i.canaryRule.Some? && TakesPart(controllers, i, route)
    ensures o.sharedService != [] <==> Shares(ingresses, controllers, i, route)
    ensures o.locationCanaries != [] <==> Doubled(ingresses, controllers, i, route)
  {
    CanaryListsShown(ingresses, controllers, i, route, all, o);
    CanaryAtFields(ingresses, controllers, i, route, all);
    SharingFields(ingresses, controllers, i, route, all);
  }

  lemma ServedSays(ingresses: seq<Ingress>, controllers: Controllers, i: Ingress, route: Route, all: seq<Member>, o: Overlap,
                   served: Option<Key>)
    requires UniqueIngresses(ingresses) && i in ingresses && TakesPart(controllers, i, route)
    requires all == Members(ingresses, controllers) && o == NodeOverlap(all, i, route) && o.hasSelf
    ensures o.oldest.Some? && served == Some(o.oldest.value.ingress.key) <==> Served(ingresses, controllers, i, route, served)
  {
    var m := PartOverlap(ingresses, controllers, i, route);
    var c := controllers[i.key];
    if o.oldest.Some? {
      ServedExactly(ingresses, controllers, c, route, o.oldest.value.ingress, o.oldest);
    }
    if Served(ingresses, controllers, i, route, served) {
      var p :| IsServed(ingresses, controllers, c, route, p) && served == Some(p.key);
      ServedExactly(ingresses, controllers, c, route, p, o.oldest);
    }
  }

  lemma OldestExists(all: seq<Member>, location: Location, x: Member)
    requires x in Filter(all, IsPrimaryAt(location))
    ensures Oldest(all, location).Some?
  {
  }

  lemma PrimariesHaveOldest(all: seq<Member>, m: Member)
    requires OverlapOf(all, m).primaries != []
    ensures OverlapOf(all, m).oldest.Some?
  {
    var group := Filter(all, IsAt(m.location));
    var primaries := Filter(group, OtherPrimary(m));
    FilterMember(all, IsAt(m.location));
    FilterMember(group, OtherPrimary(m));
    FilterMember(all, IsPrimaryAt(m.location));
    assert primaries[0] in primaries;
    OldestExists(all, m.location, primaries[0]);
  }

  /** A conflict always has a served Ingress. */
  lemma ConflictServed(ingresses: seq<Ingress>, controllers: Controllers, i: Ingress, route: Route, all: seq<Member>, o: Overlap)
    requires UniqueIngresses(ingresses) && i in ingresses && TakesPart(controllers, i, route)
    requires all == Members(ingresses, controllers) && o == NodeOverlap(all, i, route) && o.hasSelf && o.primaries != []
    ensures o.oldest.Some?
  {
    var m := PartOverlap(ingresses, controllers, i, route);
    PrimariesHaveOldest(all, m);
  }

  /** Errors and warnings stay; a healthy verdict gives way to exactly the finding
      that the relation calls for. */
  ghost predicate CallsExactly(ingresses: seq<Ingress>, controllers: Controllers, i: Ingress, route: Route, finding: Finding,
                               f: Finding) {
    if !finding.Healthy() then f == finding
    else if AboutOverlap(f) then CalledFor(ingresses, controllers, i, route, f)
    else f == finding && forall x :: !CalledFor(ingresses, controllers, i, route, x)
  }

  lemma CanaryChoice(finding: Finding, o: Overlap, part: bool, contested: bool, shares: bool, doubled: bool)
    requires !AboutOverlap(finding) && finding.Healthy()
    requires (o.hasSelf <==> part) && (part ==> o.canary) && (o.primaries != [] <==> part && contested)
    requires part ==> (o.sharedService != [] <==> shares) && (o.locationCanaries != [] <==> doubled)
    ensures
      var f := ApplyOverlap(finding, o);
      && (f.CanaryWithoutPrimary? <==> part && !contested)
      && (f.CanaryServiceShared? <==> part && contested && shares)
      && (f.SeveralCanaries? <==> part && contested && !shares && doubled)
      && !f.LocationConflict? && (!AboutOverlap(f) ==> f == finding)
  {
  }

  lemma CanaryFinding(ingresses: seq<Ingress>, controllers: Controllers, i: Ingress, route: Route, all: seq<Member>, o: Overlap,
                      finding: Finding, f: Finding)
    requires UniqueIngresses(ingresses) && i in ingresses && route in IngressRoutes(i)
    requires all == Members(ingresses, controllers) && o == NodeOverlap(all, i, route)
    requires !AboutOverlap(finding) && f == ApplyOverlap(finding, o) && i.canaryRule.Some?
    ensures CallsExactly(ingresses, controllers, i, route, finding, f)
  {
    OverlapSays(ingresses, controllers, i, route, all, o);
    var part := TakesPart(controllers, i, route);
    if part {
      CanarySays(ingresses, controllers, i, route, all, o);
    }
    if finding.Healthy() {
      CanaryChoice(finding, o, part, Contested(ingresses, controllers, i, route), Shares(ingresses, controllers, i, route),
                   Doubled(ingresses, controllers, i, route));
    }
  }

  lemma PrimaryFinding(ingresses: seq<Ingress>, controllers: Controllers, i: Ingress, route: Route, all: seq<Member>, o: Overlap,
                       finding: Finding, f: Finding)
    requires UniqueIngresses(ingresses) && i in ingresses && route in IngressRoutes(i)
    requires all == Members(ingresses, controllers) && o == NodeOverlap(all, i, route)
    requires !AboutOverlap(finding) && f == ApplyOverlap(finding, o) && i.canaryRule.None?
    ensures CallsExactly(ingresses, controllers, i, route, finding, f)
  {
    OverlapSays(ingresses, controllers, i, route, all, o);
    if o.primaries != [] {
      ConflictServed(ingresses, controllers, i, route, all, o);
      ServedSays(ingresses, controllers, i, route, all, o, Some(o.oldest.value.ingress.key));
    }
  }

  lemma OverlapFindingExactly(ingresses: seq<Ingress>, controllers: Controllers, i: Ingress, route: Route, all: seq<Member>, o: Overlap,
                              finding: Finding, f: Finding)
    requires UniqueIngresses(ingresses) && i in ingresses && route in IngressRoutes(i)
    requires all == Members(ingresses, controllers) && o == NodeOverlap(all, i, route)
    requires !AboutOverlap(finding) && f == ApplyOverlap(finding, o)
    ensures CallsExactly(ingresses, controllers, i, route, finding, f)
  {
    if i.canaryRule.Some? {
      CanaryFinding(ingresses, controllers, i, route, all, o, finding, f);
    } else {
      PrimaryFinding(ingresses, controllers, i, route, all, o, finding, f);
    }
  }

  lemma DiagnosisIsNoOverlap(c: Cluster, i: Ingress, route: Route)
    ensures !AboutOverlap(RouteDiagnosis(c, i, route))
  {
  }

  /** The verdict a route node shows: its diagnosis, or the finding about other
      Ingresses that a healthy diagnosis gives way to. */
  lemma ShownFindingExactly(c: Cluster, i: Ingress, route: Route, controllers: Controllers)
    requires UniqueIngresses(c.ingresses) && i in c.ingresses && route in IngressRoutes(i)
    requires controllers == IngressControllers(c)
    ensures CallsExactly(c.ingresses, controllers, i, route, RouteDiagnosis(c, i, route), ShownFinding(c, i, route))
  {
    DiagnosisIsNoOverlap(c, i, route);
    var all := Members(c.ingresses, controllers);
    OverlapFindingExactly(c.ingresses, controllers, i, route, all, NodeOverlap(all, i, route), RouteDiagnosis(c, i, route),
                          ShownFinding(c, i, route));
  }
}
