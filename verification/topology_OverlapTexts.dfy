/** The properties about other Ingresses on a route node, and the names in them. */
module OverlapTexts {
  import opened Collections
  import opened Kube
  import opened NodeIDs
  import opened Overlaps
  import opened OverlapRelation
  import opened CanaryRelation
  import opened OverlapFields
  import opened OverlapFindings
  import opened Diagnosis
  import opened Builder
  import Sorting
  import Text

  // ---- names ----

  /** The name alone, for objects outside namespaces. */
  function FullName(k: Key): string { if k.namespace == "" then k.name else k.namespace + "/" + k.name }

  ghost function NamesOf(members: seq<Member>): seq<string> {
    seq(|members|, k requires 0 <= k < |members| => FullName(members[k].ingress.key))
  }

  lemma {:induction false} NamesCollected(members: seq<Member>)
    ensures FlatMap(members, NameOf) == NamesOf(members)
  {
    if members != [] {
      NamesCollected(members[..|members| - 1]);
    }
  }

  /** The list of names reads as the names of the Ingresses, in ascending order, with
      a comma between them. */
  lemma NameListExactly(members: seq<Member>, names: seq<string>)
    requires multiset(names) == multiset(NamesOf(members)) && Sorting.Ascending(names, Sorting.Before)
    ensures NameList(members) == Text.Join(names, ", ")
  {
    NamesCollected(members);
    Sorting.BeforeIsStrictOrder();
    Sorting.SortAscending(NamesOf(members), Sorting.Before);
    Sorting.AscendingUnique(names, Sorting.SortStrings(NamesOf(members)), Sorting.Before);
  }

  // ---- canaries in front of a Service ----

  /** The canary, the backend it sends to and its rule. */
  function CanaryText(l: CanaryLink): string {
    FullName(l.canary.ingress.key) + " -> " + l.canary.route.BackendLabel() + " (" + l.canary.Rule() + ")"
  }

  /** A canary is listed as shared through the Service exactly when its primary is
      another route than the node's. */
  lemma LinkTextExactly(l: CanaryLink, ingress: Key, route: Route, text: string)
    requires LinkText(ingress, route)(l) == [text]
    ensures CanaryText(l) <= text
    ensures text == CanaryText(l) <==> l.primary.ID() == IngressRouteID(ingress, route.id)
  {
    var note := text[|CanaryText(l)|..];
    assert l.primary.ID() != IngressRouteID(ingress, route.id) ==>
        note == ", applied through Service " + route.serviceName + " shared with " + LocationLabel(l.primary.route);
  }

  // ---- properties ----

  lemma Entries(rule: string, primaries: Option<string>, shared: Option<string>, canaries: Option<string>, name: PropertyName)
    ensures Lookup(PropertiesFrom(true, rule, primaries, shared, canaries), name) ==
              match name
              case CanaryFlag => Some("true")
              case CanaryRule => Some(rule)
              case CanaryOf => primaries
              case CanaryServiceSharedWith => shared
              case _ => None
    ensures Lookup(PropertiesFrom(false, rule, primaries, shared, canaries), name) ==
              match name
              case ConflictsWith => primaries
              case CanaryList => canaries
              case _ => None
  {
  }

  /** The property a node should carry: a canary that takes part says so, shows its
      rule, and names the primaries it splits and the canaries it shares its
      Service with; a primary names its rivals and its canaries. */
  ghost function Called(ingresses: seq<Ingress>, controllers: Controllers, i: Ingress, route: Route, o: Overlap,
                        name: PropertyName): Option<string>
  {
    if !TakesPart(controllers, i, route) then None
    else if i.canaryRule.Some? then
      match name
      case CanaryFlag => Some("true")
      case CanaryRule => i.canaryRule
      case CanaryOf => if Contested(ingresses, controllers, i, route) then Some(NameList(o.primaries)) else None
      case CanaryServiceSharedWith =>
        if Shares(ingresses, controllers, i, route) then Some(NameList(o.sharedService)) else None
      case _ => None
    else
      match name
      case ConflictsWith => if Contested(ingresses, controllers, i, route) then Some(NameList(o.primaries)) else None
      case CanaryList => if o.canaries != [] then Some(CanaryTexts(o, i.key, route)) else None
      case _ => None
  }

  lemma KnowsRule(ingresses: seq<Ingress>, controllers: Controllers, i: Ingress, route: Route, o: Overlap)
    requires UniqueIngresses(ingresses) && i in ingresses && route in IngressRoutes(i) && i.canaryRule.Some?
    requires o == NodeOverlap(Members(ingresses, controllers), i, route) && o.hasSelf
    ensures o.canary && o.rule == i.canaryRule.value
  {
    if TakesPart(controllers, i, route) {
      var m := PartOverlap(ingresses, controllers, i, route);
    } else {
      NoPartNoOverlap(ingresses, controllers, i, route);
    }
  }

  lemma PropertiesOf(o: Overlap, ingress: Key, route: Route, name: PropertyName)
    requires o.hasSelf
    ensures Lookup(OverlapProperties(o, ingress, route), name) ==
              if o.canary then
                match name
                case CanaryFlag => Some("true")
                case CanaryRule => Some(o.rule)
                case CanaryOf => Shown(o.primaries == [], NameList(o.primaries))
                case CanaryServiceSharedWith => Shown(o.sharedService == [], NameList(o.sharedService))
                case _ => None
              else
                match name
                case ConflictsWith => Shown(o.primaries == [], NameList(o.primaries))
                case CanaryList => Shown(o.canaries == [], CanaryTexts(o, ingress, route))
                case _ => None
  {
    var p := Shown(o.primaries == [], NameList(o.primaries));
    var s := Shown(o.sharedService == [], NameList(o.sharedService));
    var c := Shown(o.canaries == [], CanaryTexts(o, ingress, route));
    PropertiesAre(o, ingress, route, p, s, c);
    Entries(o.rule, p, s, c, name);
  }

  /** Exactly which properties about other Ingresses a route node carries. */
  lemma PropertiesExactly(ingresses: seq<Ingress>, controllers: Controllers, i: Ingress, route: Route, all: seq<Member>,
                          o: Overlap, name: PropertyName)
    requires UniqueIngresses(ingresses) && i in ingresses && route in IngressRoutes(i)
    requires all == Members(ingresses, controllers) && o == NodeOverlap(all, i, route)
    ensures Lookup(OverlapProperties(o, i.key, route), name) == Called(ingresses, controllers, i, route, o, name)
  {
    OverlapSays(ingresses, controllers, i, route, all, o);
    ListsKnowThemselves(ingresses, controllers, i, route, o);
    if o.hasSelf {
      PropertiesOf(o, i.key, route, name);
      if i.canaryRule.Some? {
        KnowsRule(ingresses, controllers, i, route, o);
        CanarySays(ingresses, controllers, i, route, all, o);
      }
    }
  }

  /** A finding about other Ingresses names those that it is about. */
  lemma FindingNamesExactly(c: Cluster, i: Ingress, route: Route, o: Overlap, f: Finding)
    requires o == NodeOverlap(Members(c.ingresses, IngressControllers(c)), i, route) && f == ShownFinding(c, i, route)
    ensures f.CanaryServiceShared? ==> f.names == NameList(o.sharedService)
    ensures f.SeveralCanaries? ==> f.names == NameList(o.locationCanaries)
    ensures f.LocationConflict? ==> f.names == NameList(o.primaries)
  {
    DiagnosisIsNoOverlap(c, i, route);
    NamesIn(RouteDiagnosis(c, i, route), o);
  }

  lemma NamesIn(finding: Finding, o: Overlap)
    requires !AboutOverlap(finding)
    ensures var f := ApplyOverlap(finding, o);
      && (f.CanaryServiceShared? ==> f.names == NameList(o.sharedService))
      && (f.SeveralCanaries? ==> f.names == NameList(o.locationCanaries))
      && (f.LocationConflict? ==> f.names == NameList(o.primaries))
  {
  }
}
