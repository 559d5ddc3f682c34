/** Gateway API and F5 informers: which versions are watched, and how the running
    ones follow discovery. */
module OptionalInformers {
  import opened Collections
  import Kube

  datatype Group = GatewayAPI | F5 | OtherGroup(name: string)
  datatype Version = V1 | V1beta1 | V1alpha2 | OtherVersion(name: string)
  datatype ResourceName =
    | GatewayClasses | Gateways
    | HTTPRoutes | GRPCRoutes | TLSRoutes | TCPRoutes | UDPRoutes
    | ReferenceGrants
    | IngressLinks | VirtualServers | TransportServers
    | OtherResource(name: string)

  datatype GroupResource = GroupResource(group: Group, resource: ResourceName)

  datatype GVR = GVR(group: Group, version: Version, resource: ResourceName)
  {
    function Name(): GroupResource { GroupResource(group, resource) }
  }

  datatype Scope = ClusterWide | Namespaced

  datatype Item = Item(gvr: GVR, scope: Scope, kind: Kube.ExternalKind)

  /** Scope and kind of a watched version; both depend on the resource alone. */
  function ItemOf(gvr: GVR): Item {
    var kind := match gvr.resource
      case GatewayClasses => Kube.GatewayClass
      case Gateways => Kube.Gateway
      case HTTPRoutes => Kube.HTTPRoute
      case GRPCRoutes => Kube.GRPCRoute
      case TLSRoutes => Kube.TLSRoute
      case TCPRoutes => Kube.TCPRoute
      case UDPRoutes => Kube.UDPRoute
      case ReferenceGrants => Kube.ReferenceGrant
      case IngressLinks => Kube.F5IngressLink
      case VirtualServers => Kube.F5VirtualServer
      case _ => Kube.F5TransportServer;
    Item(gvr, if gvr.resource.GatewayClasses? then ClusterWide else Namespaced, kind)
  }

  /** The versions of optionalTopologyResources, preferred ones first. */
  const VERSIONS: seq<GVR> := [
    GVR(GatewayAPI, V1, GatewayClasses), GVR(GatewayAPI, V1beta1, GatewayClasses),
    GVR(GatewayAPI, V1, Gateways), GVR(GatewayAPI, V1beta1, Gateways),
    GVR(GatewayAPI, V1, HTTPRoutes), GVR(GatewayAPI, V1beta1, HTTPRoutes),
    GVR(GatewayAPI, V1, GRPCRoutes), GVR(GatewayAPI, V1, TLSRoutes),
    GVR(GatewayAPI, V1alpha2, TLSRoutes), GVR(GatewayAPI, V1, TCPRoutes),
    GVR(GatewayAPI, V1alpha2, TCPRoutes), GVR(GatewayAPI, V1, UDPRoutes),
    GVR(GatewayAPI, V1alpha2, UDPRoutes), GVR(GatewayAPI, V1, ReferenceGrants),
    GVR(GatewayAPI, V1beta1, ReferenceGrants), GVR(F5, V1, IngressLinks),
    GVR(F5, V1, VirtualServers), GVR(F5, V1, TransportServers)]

  function Entries(versions: seq<GVR>): (items: seq<Item>)
    ensures |items| == |versions| && forall i :: 0 <= i < |items| ==> items[i] == ItemOf(versions[i])
  {
    if versions == [] then [] else Entries(versions[..|versions| - 1]) + [ItemOf(versions[|versions| - 1])]
  }

  const TABLE: seq<Item> := Entries(VERSIONS)

  // ---- the preference filter ----

  /** No discovery client means that everything counts as available. */
  predicate IsAvailable(available: Option<set<GVR>>, item: Item) {
    available.Some? ==> item.gvr in available.value
  }

  /** The first available entry of each group and resource. */
  function Preferred(items: seq<Item>, available: Option<set<GVR>>): seq<Item> {
    if items == [] then []
    else
      var earlier, item := Preferred(items[..|items| - 1], available), items[|items| - 1];
      if IsAvailable(available, item) && !HasName(earlier, item.gvr.Name()) then earlier + [item] else earlier
  }

  predicate HasName(items: seq<Item>, name: GroupResource) {
    exists x :: x in items && x.gvr.Name() == name
  }

  datatype Options = Options(gatewayAPI: bool, f5: bool)

  function IsEnabled(o: Options): Item -> bool {
    (item: Item) => match item.gvr.group
      case GatewayAPI => o.gatewayAPI
      case F5 => o.f5
      case OtherGroup(_) => true
  }

  function PreferredEnabled(o: Options, available: Option<set<GVR>>): seq<Item> {
    Filter(Preferred(TABLE, available), IsEnabled(o))
  }

  function GVROf(item: Item): Option<GVR> { Some(item.gvr) }

  /** preferredOptionalResources */
  method PreferredOptionalResources(available: Option<set<GVR>>) returns (selected: seq<Item>)
    ensures selected == Preferred(TABLE, available)
  {
    selected := [];
    var seen: set<GroupResource> := {};
    for i := 0 to |TABLE|
      invariant selected == Preferred(TABLE[..i], available)
      invariant forall n :: n in seen <==> HasName(selected, n)
    {
      Extend(TABLE, i);
      var item := TABLE[i];
      if available.Some? && item.gvr !in available.value {
        continue;
      }
      if item.gvr.Name() in seen {
        continue;
      }
      seen := seen + {item.gvr.Name()};
      HasNameAppend(selected, item);
      selected := selected + [item];
    }
    WholePrefix(TABLE);
  }

  lemma HasNameAppend(items: seq<Item>, item: Item)
    ensures forall n :: HasName(items + [item], n) <==> HasName(items, n) || n == item.gvr.Name()
  {
    forall n ensures HasName(items + [item], n) <==> HasName(items, n) || n == item.gvr.Name() {
      if HasName(items, n) {
        var x :| x in items && x.gvr.Name() == n;
        assert x in items + [item];
      }
      assert item in items + [item];
    }
  }

  method PreferredEnabledOptionalResources(o: Options, available: Option<set<GVR>>) returns (filtered: seq<Item>)
    ensures filtered == PreferredEnabled(o, available)
  {
    var resources := PreferredOptionalResources(available);
    filtered := [];
    for i := 0 to |resources|
      invariant filtered == Filter(resources[..i], IsEnabled(o))
    {
      FilterStep(resources, IsEnabled(o), i);
      if (resources[i].gvr.group.GatewayAPI? && !o.gatewayAPI) || (resources[i].gvr.group.F5? && !o.f5) {
        continue;
      }
      filtered := filtered + [resources[i]];
    }
    WholePrefix(resources);
  }

  /** The entry is the first of its group and resource that is available. */
  ghost predicate IsFirst(items: seq<Item>, available: Option<set<GVR>>, item: Item) {
    exists i :: IsFirstAt(items, available, item, i)
  }

  ghost predicate IsFirstAt(items: seq<Item>, available: Option<set<GVR>>, item: Item, i: nat) {
    && i < |items| && items[i] == item && IsAvailable(available, item)
    && forall j :: 0 <= j < i ==> !(items[j].gvr.Name() == item.gvr.Name() && IsAvailable(available, items[j]))
  }

  lemma IsFirstStep(items: seq<Item>, available: Option<set<GVR>>, item: Item)
    requires items != []
    ensures
      var n := |items| - 1;
      IsFirst(items, available, item) <==>
        IsFirst(items[..n], available, item) || IsFirstAt(items, available, item, n)
  {
    var n := |items| - 1;
    if IsFirst(items[..n], available, item) {
      var i: nat :| IsFirstAt(items[..n], available, item, i);
      assert IsFirstAt(items, available, item, i);
    }
    if IsFirst(items, available, item) {
      var i: nat :| IsFirstAt(items, available, item, i);
      if i < n {
        assert IsFirstAt(items[..n], available, item, i);
      }
    }
  }

  lemma {:induction false} PreferredNames(items: seq<Item>, available: Option<set<GVR>>, name: GroupResource)
    ensures HasName(Preferred(items, available), name) <==>
              exists i :: 0 <= i < |items| && items[i].gvr.Name() == name && IsAvailable(available, items[i])
  {
    if items != [] {
      var n := |items| - 1;
      PreferredNames(items[..n], available, name);
      HasNameAppend(Preferred(items[..n], available), items[n]);
      if exists i :: 0 <= i < |items[..n]| && items[..n][i].gvr.Name() == name && IsAvailable(available, items[..n][i]) {
        var i :| 0 <= i < n && items[..n][i].gvr.Name() == name && IsAvailable(available, items[..n][i]);
        assert items[i].gvr.Name() == name && IsAvailable(available, items[i]);
      }
      if exists i :: 0 <= i < |items| && items[i].gvr.Name() == name && IsAvailable(available, items[i]) {
        var i :| 0 <= i < |items| && items[i].gvr.Name() == name && IsAvailable(available, items[i]);
        if i < n {
          assert items[..n][i].gvr.Name() == name && IsAvailable(available, items[..n][i]);
        }
      }
    }
  }

  lemma {:induction false} PreferredExactly(items: seq<Item>, available: Option<set<GVR>>, item: Item)
    ensures item in Preferred(items, available) <==> IsFirst(items, available, item)
  {
    if items != [] {
      var n := |items| - 1;
      PreferredExactly(items[..n], available, item);
      PreferredNames(items[..n], available, items[n].gvr.Name());
      IsFirstStep(items, available, item);
      LastIsFirst(items, available);
      assert forall x :: x in Preferred(items[..n], available) + [items[n]] <==>
          x in Preferred(items[..n], available) || x == items[n];
    }
  }

  lemma LastIsFirst(items: seq<Item>, available: Option<set<GVR>>)
    requires items != []
    ensures
      var n := |items| - 1;
      IsFirstAt(items, available, items[n], n) <==>
        && IsAvailable(available, items[n])
        && !exists i :: 0 <= i < |items[..n]| && items[..n][i].gvr.Name() == items[n].gvr.Name() && IsAvailable(available, items[..n][i])
  {
    var n := |items| - 1;
    forall j | 0 <= j < n ensures items[..n][j] == items[j] {
    }
  }

  /** The stable version of a resource is listed before any other. */
  lemma StableFirst(j: nat)
    requires j < |VERSIONS| && VERSIONS[j].version != V1
    ensures j > 0 && VERSIONS[j - 1] == GVR(VERSIONS[j].group, V1, VERSIONS[j].resource)
  {
  }

  /** Another version than the stable one is watched only when that is not served. */
  lemma StablePreferred(available: Option<set<GVR>>, item: Item)
    requires item in Preferred(TABLE, available) && item.gvr.version != V1
    ensures available.Some? && GVR(item.gvr.group, V1, item.gvr.resource) !in available.value
  {
    PreferredExactly(TABLE, available, item);
    var i: nat :| IsFirstAt(TABLE, available, item, i);
    assert TABLE[i] == ItemOf(VERSIONS[i]);
    StableFirst(i);
    assert TABLE[i - 1] == ItemOf(VERSIONS[i - 1]);
  }

  ghost predicate DistinctNames(items: seq<Item>) {
    forall i, j :: 0 <= i < j < |items| ==> items[i].gvr.Name() != items[j].gvr.Name()
  }

  lemma {:induction false} PreferredDistinct(items: seq<Item>, available: Option<set<GVR>>)
    ensures DistinctNames(Preferred(items, available))
  {
    if items != [] {
      var earlier, item := Preferred(items[..|items| - 1], available), items[|items| - 1];
      PreferredDistinct(items[..|items| - 1], available);
      if !HasName(earlier, item.gvr.Name()) {
        forall i | 0 <= i < |earlier| ensures earlier[i].gvr.Name() != item.gvr.Name() {
          assert earlier[i] in earlier;
        }
      }
    }
  }

  lemma {:induction false} FilterDistinct(items: seq<Item>, keep: Item -> bool)
    requires DistinctNames(items)
    ensures DistinctNames(Filter(items, keep))
  {
    if items != [] {
      var n := |items| - 1;
      var front := items[..n];
      FilterDistinct(front, keep);
      FilterMember(front, keep);
      forall x | x in Filter(front, keep) ensures x.gvr.Name() != items[n].gvr.Name() {
        var i :| 0 <= i < n && front[i] == x;
      }
    }
  }

  // ---- asking twice ----

  ghost function GVRs(items: seq<Item>): set<GVR> {
    set x | x in items :: x.gvr
  }

  /** An available entry that a later filter asks about again is still the first
      of its kind: selecting from what was selected selects the same. */
  lemma {:induction false} PreferredAgain(items: seq<Item>, served: Option<set<GVR>>, keep: Item -> bool, chosen: set<GVR>)
    requires forall x, y :: x in items && y in items && x.gvr == y.gvr ==> x == y
    requires forall x :: x in items ==> (x.gvr in chosen <==> x in Filter(Preferred(items, served), keep))
    ensures Preferred(items, Some(chosen)) == Filter(Preferred(items, served), keep)
  {
    if items != [] {
      var n := |items| - 1;
      var front, item := items[..n], items[n];
      assert items == front + [item];
      var earlier := Preferred(front, served);
      FilterMember(earlier, keep);
      FilterMember(Preferred(items, served), keep);
      PreferredWithin(front, served);
      if IsAvailable(served, item) && !HasName(earlier, item.gvr.Name()) {
        assert (earlier + [item])[..|earlier|] == earlier;
        if item in front {
          assert item !in earlier by { assert item.gvr.Name() == item.gvr.Name(); }
          RepeatedIsPreferred(front, served, item);
        }
      }
      forall x | x in front ensures x.gvr in chosen <==> x in Filter(earlier, keep) {
        assert x in items;
      }
      PreferredAgain(front, served, keep, chosen);
      if item.gvr in chosen && !HasName(Filter(earlier, keep), item.gvr.Name()) {
        assert item in Preferred(items, served) && keep(item);
        assert item !in Filter(earlier, keep);
      }
      if item.gvr in chosen && HasName(Filter(earlier, keep), item.gvr.Name()) {
        var x :| x in Filter(earlier, keep) && x.gvr.Name() == item.gvr.Name();
        assert HasName(earlier, item.gvr.Name());
      }
    }
  }

  lemma {:induction false} PreferredWithin(items: seq<Item>, available: Option<set<GVR>>)
    ensures forall x :: x in Preferred(items, available) ==> x in items && IsAvailable(available, x)
  {
    if items != [] {
      PreferredWithin(items[..|items| - 1], available);
      assert items == items[..|items| - 1] + [items[|items| - 1]];
    }
  }

  lemma RepeatedIsPreferred(items: seq<Item>, available: Option<set<GVR>>, item: Item)
    requires item in items && IsAvailable(available, item)
    ensures HasName(Preferred(items, available), item.gvr.Name())
  {
    PreferredNames(items, available, item.gvr.Name());
    var i :| 0 <= i < |items| && items[i] == item;
    assert items[i].gvr.Name() == item.gvr.Name();
  }

  ghost predicate DeterminedByGVR(items: seq<Item>) {
    forall x, y :: x in items && y in items && x.gvr == y.gvr ==> x == y
  }

  lemma TableDetermined()
    ensures DeterminedByGVR(TABLE)
  {
    forall x | x in TABLE ensures x == ItemOf(x.gvr) {
    }
  }

  lemma SelectionIdempotent(items: seq<Item>, served: Option<set<GVR>>, keep: Item -> bool)
    requires DeterminedByGVR(items)
    ensures
      var once := Filter(Preferred(items, served), keep);
      Filter(Preferred(items, Some(GVRs(once))), keep) == once
  {
    var once := Filter(Preferred(items, served), keep);
    PreferredWithin(items, served);
    FilterMember(Preferred(items, served), keep);
    forall x | x in items ensures x.gvr in GVRs(once) <==> x in once {
    }
    PreferredAgain(items, served, keep, GVRs(once));
    FilterFilter(Preferred(items, served), keep, keep, keep);
  }

  /** The preference filter is idempotent, so filtering what discovery's filter
      kept, as a sync does, keeps all of it. */
  lemma PreferredEnabledIdempotent(o: Options, served: Option<set<GVR>>)
    ensures PreferredEnabled(o, Some(GVRs(PreferredEnabled(o, served)))) == PreferredEnabled(o, served)
  {
    TableDetermined();
    SelectionIdempotent(TABLE, served, IsEnabled(o));
  }
}
