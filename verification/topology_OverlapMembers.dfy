/** Where the members, canaries and links of the overlap passes come from. */
module OverlapMembers {
  import opened Collections
  import opened Kube
  import opened NodeIDs
  import opened Overlaps

  lemma {:induction false} FirstMembersFrom(i: Ingress, controller: NodeID, routes: seq<Route>)
    ensures forall m :: m in FirstMembers(i, controller, routes) ==>
              m.ingress == i && m.route in routes && !m.route.isDefault && m.location == LocationOf(controller, m.route)
  {
    if routes != [] {
      FirstMembersFrom(i, controller, routes[..|routes| - 1]);
      assert routes == routes[..|routes| - 1] + [routes[|routes| - 1]];
    }
  }

  lemma MembersFrom(ingresses: seq<Ingress>, controllers: Controllers)
    ensures forall m :: m in Members(ingresses, controllers) ==>
              && m.ingress in ingresses && m.ingress.key in controllers
              && m.route in IngressRoutes(m.ingress) && !m.route.isDefault
              && m.location == LocationOf(controllers[m.ingress.key], m.route)
  {
    FlatMapMember(ingresses, MembersOf(controllers));
    forall m | m in Members(ingresses, controllers)
      ensures && m.ingress in ingresses && m.ingress.key in controllers
              && m.route in IngressRoutes(m.ingress) && !m.route.isDefault
              && m.location == LocationOf(controllers[m.ingress.key], m.route)
    {
      var i :| i in ingresses && m in MembersOf(controllers)(i);
      FirstMembersFrom(i, controllers[i.key], IngressRoutes(i));
    }
  }

  lemma LinkMember(all: seq<Member>, l: CanaryLink)
    ensures l in AllLinks(all) <==>
              && l.canary.location in Locations(all)
              && l.canary in all && l.canary.Canary()
              && Oldest(all, l.canary.location) == Some(l.primary)
  {
    FlatMapMember(Locations(all), LinksAt(all));
    forall location | location in Locations(all)
      ensures l in LinksAt(all)(location) <==>
              l.canary in all && l.canary.Canary() && l.canary.location == location && Oldest(all, location) == Some(l.primary)
    {
      FilterMember(all, IsCanaryAt(location));
      if Oldest(all, location).Some? {
        var link := LinkTo(Oldest(all, location).value);
        FlatMapMember(CanariesAt(all)(location), link);
        assert l in link(l.canary) <==> l.primary == Oldest(all, location).value;
      }
    }
  }

  lemma {:induction false} LocationsMember(all: seq<Member>)
    ensures forall location :: location in Locations(all) <==> exists m :: m in all && m.location == location
  {
    if all != [] {
      LocationsMember(all[..|all| - 1]);
      assert all == all[..|all| - 1] + [all[|all| - 1]];
    }
  }

  lemma CanaryMember(all: seq<Member>, m: Member)
    ensures m in AllCanaries(all) <==> m in all && m.Canary()
  {
    LocationsMember(all);
    FlatMapMember(Locations(all), CanariesAt(all));
    forall location ensures m in CanariesAt(all)(location) <==> m in all && m.location == location && m.Canary() {
      FilterMember(all, IsCanaryAt(location));
    }
    if m in all && m.Canary() {
      assert m.location in Locations(all) && m in CanariesAt(all)(m.location);
    }
  }

  lemma OverlapLinks(all: seq<Member>, id: NodeID, l: CanaryLink)
    requires l in OverlapAt(RouteOverlaps(all), id).canaries
    ensures l.canary in all
  {
    var affected := IndexBy(all, AffectedID(all));
    var m := affected[id];
    FilterMember(AllLinks(all), SplitsUpstream(m.Upstream().value));
    LinkMember(all, l);
  }
}
