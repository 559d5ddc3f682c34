/** syncOptionalInformers: the running optional informers follow discovery. */
module OptionalSync {
  import opened Collections
  import opened OptionalInformers

  /** What discovery says: there is no client, it failed without any result, or
      these versions are served (a partial failure counts as its result). */
  datatype Discovery = NoClient | DiscoveryFailed | Serves(versions: set<GVR>)

  /** How registering a new informer ends. Its health is tracked before its watch
      error handler is set; that fails only for an informer that has started, and
      this one has not, so `FailsTracked` is a defensive branch. */
  datatype Registration = Starts | FailsUntracked | FailsTracked

  /** The running informers, and the optional names in the health report. */
  datatype State = State(running: map<GVR, Item>, tracked: set<GroupResource>)

  ghost function Available(o: Options, d: Discovery): Option<set<GVR>>
    requires !d.DiscoveryFailed?
  {
    match d
    case NoClient => None
    case Serves(versions) => Some(GVRs(PreferredEnabled(o, Some(versions))))
  }

  ghost function Wanted(o: Options, d: Discovery): map<GVR, Item>
    requires !d.DiscoveryFailed?
  {
    IndexBy(PreferredEnabled(o, Available(o, d)), GVROf)
  }

  function Names(versions: set<GVR>): set<GroupResource> {
    set g | g in versions :: g.Name()
  }

  ghost function Stopped(s: State, wanted: map<GVR, Item>): set<GVR> {
    s.running.Keys - wanted.Keys
  }

  ghost function NewlyTracked(s: State, wanted: map<GVR, Item>, register: GVR -> Registration): set<GVR> {
    set g | g in wanted && g !in s.running && register(g) != FailsUntracked
  }

  ghost function AfterStops(s: State, wanted: map<GVR, Item>): State {
    State(map g | g in s.running && g in wanted :: s.running[g], s.tracked - Names(Stopped(s, wanted)))
  }

  ghost function Reconciled(s: State, wanted: map<GVR, Item>, register: GVR -> Registration): State {
    State(map g | g in wanted && (g in s.running || register(g) == Starts) :: if g in s.running then s.running[g] else wanted[g],
          s.tracked - Names(Stopped(s, wanted)) + Names(NewlyTracked(s, wanted, register)))
  }

  ghost function Synced(o: Options, s: State, d: Discovery, register: GVR -> Registration): State {
    if d.DiscoveryFailed? then s else Reconciled(s, Wanted(o, d), register)
  }

  class InformerSet {
    const options: Options
    var running: map<GVR, Item>
    var tracked: set<GroupResource>
    /** Calls of rebuildAndPublishWhenReady. */
    var rebuildRequests: nat

    function Current(): State
      reads this
    {
      State(running, tracked)
    }

    constructor (options: Options)
      ensures this.options == options && Current() == State(map[], {}) && rebuildRequests == 0
    {
      this.options := options;
      running, tracked, rebuildRequests := map[], {}, 0;
    }

    method AvailableOptionalResourceGVRs(d: Discovery) returns (failed: bool, available: Option<set<GVR>>)
      ensures failed <==> d.DiscoveryFailed?
      ensures !failed ==> available == Available(options, d)
    {
      match d
      case NoClient => return false, None;
      case DiscoveryFailed => return true, None;
      case Serves(versions) =>
        var items := PreferredEnabledOptionalResources(options, Some(versions));
        var gvrs := {};
        for i := 0 to |items|
          invariant gvrs == GVRs(items[..i])
        {
          Extend(items, i);
          gvrs := gvrs + {items[i].gvr};
        }
        WholePrefix(items);
        return false, Some(gvrs);
    }

    method Sync(d: Discovery, register: GVR -> Registration)
      modifies this
      ensures Current() == Synced(options, old(Current()), d, register)
      ensures rebuildRequests == old(rebuildRequests) +
                if !d.DiscoveryFailed? && Stopped(old(Current()), Wanted(options, d)) != {} then 1 else 0
    {
      var failed, available := AvailableOptionalResourceGVRs(d);
      if failed {
        return;
      }
      var items := PreferredEnabledOptionalResources(options, available);
      var wanted: map<GVR, Item> := map[];
      for i := 0 to |items|
        invariant wanted == IndexBy(items[..i], GVROf)
        modifies {}
      {
        Extend(items, i);
        wanted := wanted[items[i].gvr := items[i]];
      }
      WholePrefix(items);
      var changed := StopUnwanted(wanted);
      StartWanted(wanted, register, old(Current()));
      if changed {
        rebuildRequests := rebuildRequests + 1;
      }
    }

    method StopUnwanted(wanted: map<GVR, Item>) returns (changed: bool)
      modifies this`running, this`tracked
      ensures Current() == AfterStops(old(Current()), wanted)
      ensures changed <==> Stopped(old(Current()), wanted) != {}
    {
      changed := false;
      var left := running.Keys;
      while left != {}
        invariant left <= old(running).Keys
        invariant running == map g | g in old(running) && (g in wanted || g in left) :: old(running)[g]
        invariant tracked == old(tracked) - Names(old(running).Keys - left - wanted.Keys)
        invariant changed <==> old(running).Keys - left - wanted.Keys != {}
        decreases left
      {
        var gvr :| gvr in left;
        ghost var done := old(running).Keys - left - wanted.Keys;
        left := left - {gvr};
        if gvr in wanted {
          assert old(running).Keys - left - wanted.Keys == done;
          continue;
        }
        assert old(running).Keys - left - wanted.Keys == done + {gvr};
        running := running - {gvr};
        tracked := tracked - {gvr.Name()};
        changed := true;
      }
    }

    method StartWanted(wanted: map<GVR, Item>, register: GVR -> Registration, ghost before: State)
      requires Current() == AfterStops(before, wanted)
      modifies this`running, this`tracked
      ensures Current() == Reconciled(before, wanted, register)
    {
      var left := wanted.Keys;
      ghost var kept := tracked;
      while left != {}
        invariant left <= wanted.Keys
        invariant running == map g | g in wanted && (g in before.running || (g !in left && register(g) == Starts)) ::
                               if g in before.running then before.running[g] else wanted[g]
        invariant tracked == kept + Names(NewlyTracked(before, wanted, register) - left)
        decreases left
      {
        var gvr :| gvr in left;
        ghost var done := NewlyTracked(before, wanted, register) - left;
        left := left - {gvr};
        if gvr in running {
          assert NewlyTracked(before, wanted, register) - left == done;
          continue;
        }
        if register(gvr) == FailsUntracked {
          assert NewlyTracked(before, wanted, register) - left == done;
          continue;
        }
        assert NewlyTracked(before, wanted, register) - left == done + {gvr};
        tracked := tracked + {gvr.Name()};
        if register(gvr) == Starts {
          running := running[gvr := wanted[gvr]];
        }
      }
      assert NewlyTracked(before, wanted, register) - {} == NewlyTracked(before, wanted, register);
    }
  }

  // ---- what a sync achieves ----

  ghost predicate RunsTableEntries(s: State) {
    forall g :: g in s.running ==> s.running[g] == ItemOf(g)
  }

  ghost predicate OneVersionEach(versions: set<GVR>) {
    forall a, b :: a in versions && b in versions && a.Name() == b.Name() ==> a == b
  }

  ghost predicate NeverFails(register: GVR -> Registration) {
    forall g :: register(g) == Starts
  }

  /** The versions served, or everything without a discovery client. */
  function ServedBy(d: Discovery): Option<set<GVR>>
    requires !d.DiscoveryFailed?
  {
    if d.Serves? then Some(d.versions) else None
  }

  lemma WantedItems(o: Options, d: Discovery)
    requires !d.DiscoveryFailed?
    ensures PreferredEnabled(o, Available(o, d)) == PreferredEnabled(o, ServedBy(d))
  {
    if d.Serves? {
      PreferredEnabledIdempotent(o, Some(d.versions));
    }
  }

  lemma TableEntries()
    ensures forall item :: item in TABLE ==> item == ItemOf(item.gvr)
  {
  }

  /** Wanted is, for each group and resource, the first version of the table that
      is served, if its API is enabled. */
  lemma WantedExactly(o: Options, d: Discovery, g: GVR)
    requires !d.DiscoveryFailed?
    ensures g in Wanted(o, d) <==> IsFirst(TABLE, ServedBy(d), ItemOf(g)) && IsEnabled(o)(ItemOf(g))
    ensures g in Wanted(o, d) ==> Wanted(o, d)[g] == ItemOf(g)
  {
    var items := PreferredEnabled(o, ServedBy(d));
    WantedItems(o, d);
    IndexMember(items, GVROf);
    FilterMember(Preferred(TABLE, ServedBy(d)), IsEnabled(o));
    PreferredExactly(TABLE, ServedBy(d), ItemOf(g));
    PreferredWithin(TABLE, ServedBy(d));
    TableEntries();
    if ItemOf(g) in items {
      assert GVROf(ItemOf(g)) == Some(g);
    }
  }

  lemma WantedOneVersion(o: Options, d: Discovery)
    requires !d.DiscoveryFailed?
    ensures OneVersionEach(Wanted(o, d).Keys)
  {
    var items := PreferredEnabled(o, Available(o, d));
    IndexMember(items, GVROf);
    PreferredDistinct(TABLE, Available(o, d));
    FilterDistinct(Preferred(TABLE, Available(o, d)), IsEnabled(o));
    DistinctByName(items);
  }

  lemma DistinctByName(items: seq<Item>)
    requires DistinctNames(items)
    ensures forall x, y :: x in items && y in items && x.gvr.Name() == y.gvr.Name() ==> x == y
  {
    forall x, y | x in items && y in items && x.gvr.Name() == y.gvr.Name() ensures x == y {
      var i :| 0 <= i < |items| && items[i] == x;
      var j :| 0 <= j < |items| && items[j] == y;
    }
  }

  /** Names no longer behind a running informer but still in the health report,
      left by registrations that failed late. */
  ghost function Leftover(s: State): set<GroupResource> {
    s.tracked - Names(s.running.Keys)
  }

  /** After a sync without registration errors, running is exactly wanted, one
      version each; the health report names the same, also across a change of
      versions, exactly when late failures left no name that is no longer
      wanted. */
  lemma SyncReachesWanted(o: Options, s: State, d: Discovery, register: GVR -> Registration)
    requires !d.DiscoveryFailed? && RunsTableEntries(s) && OneVersionEach(s.running.Keys)
    requires Names(s.running.Keys) <= s.tracked && NeverFails(register)
    ensures
      var after := Synced(o, s, d, register);
      && after.running == Wanted(o, d) && OneVersionEach(after.running.Keys)
      && (after.tracked == Names(after.running.Keys) <==> Leftover(s) <= Names(Wanted(o, d).Keys))
  {
    var wanted, after := Wanted(o, d), Synced(o, s, d, register);
    forall g | g in wanted ensures after.running[g] == wanted[g] {
      WantedExactly(o, d, g);
    }
    assert after.running == wanted;
    WantedOneVersion(o, d);
    TrackedAfterSync(s, wanted, register);
  }

  lemma TrackedAfterSync(s: State, wanted: map<GVR, Item>, register: GVR -> Registration)
    requires OneVersionEach(s.running.Keys) && Names(s.running.Keys) <= s.tracked && NeverFails(register)
    ensures Reconciled(s, wanted, register).tracked == Leftover(s) + Names(wanted.Keys)
    ensures Reconciled(s, wanted, register).tracked == Names(wanted.Keys) <==> Leftover(s) <= Names(wanted.Keys)
  {
    var after, stopped := Reconciled(s, wanted, register), Names(Stopped(s, wanted));
    forall n ensures n in after.tracked <==> n in Leftover(s) || n in Names(wanted.Keys) {
      if n in Names(wanted.Keys) {
        var g :| g in wanted.Keys && g.Name() == n;
        if g in s.running {
          assert n in Names(s.running.Keys);
        } else {
          assert g in NewlyTracked(s, wanted, register);
        }
      } else if n in s.tracked {
        if n in Names(s.running.Keys) {
          var g :| g in s.running.Keys && g.Name() == n;
          assert g in Stopped(s, wanted);
        }
      }
    }
    assert after.tracked == Leftover(s) + Names(wanted.Keys);
  }

  /** Every sync, also one with registration errors, keeps what the theorem above
      asks of the state before it. */
  lemma SyncKeepsShape(o: Options, s: State, d: Discovery, register: GVR -> Registration)
    requires RunsTableEntries(s) && OneVersionEach(s.running.Keys) && Names(s.running.Keys) <= s.tracked
    ensures
      var after := Synced(o, s, d, register);
      RunsTableEntries(after) && OneVersionEach(after.running.Keys) && Names(after.running.Keys) <= after.tracked
  {
    if !d.DiscoveryFailed? {
      var wanted, after := Wanted(o, d), Synced(o, s, d, register);
      WantedOneVersion(o, d);
      forall g | g in after.running ensures after.running[g] == ItemOf(g) {
        WantedExactly(o, d, g);
      }
      forall n | n in Names(after.running.Keys) ensures n in after.tracked {
        var g :| g in after.running.Keys && g.Name() == n;
        if g in s.running {
          assert n in Names(s.running.Keys);
        } else {
          assert g in NewlyTracked(s, wanted, register);
        }
      }
    }
  }

  /** Repeating a sync that met no registration error does nothing: nothing is
      stopped, started, tracked or requested. */
  lemma SyncAgainDoesNothing(o: Options, s: State, d: Discovery, register: GVR -> Registration, again: GVR -> Registration)
    requires !d.DiscoveryFailed? && NeverFails(register)
    ensures
      var after := Synced(o, s, d, register);
      Synced(o, after, d, again) == after && Stopped(after, Wanted(o, d)) == {}
  {
    var wanted, after := Wanted(o, d), Synced(o, s, d, register);
    assert after.running.Keys == wanted.Keys;
    assert Stopped(after, wanted) == {} && NewlyTracked(after, wanted, again) == {};
    assert Names({}) == {};
    assert Synced(o, after, d, again).tracked == after.tracked;
    assert Synced(o, after, d, again).running == after.running;
  }

  // ---- whole runs ----

  /** One sync: what discovery says and how registrations end. */
  datatype Round = Round(discovery: Discovery, register: GVR -> Registration)

  /** The state after syncing again and again since the start. */
  ghost function AfterRounds(o: Options, rounds: seq<Round>): State {
    if rounds == [] then State(map[], {})
    else
      var last := rounds[|rounds| - 1];
      Synced(o, AfterRounds(o, rounds[..|rounds| - 1]), last.discovery, last.register)
  }

  ghost predicate FailsEarly(register: GVR -> Registration) {
    forall g :: register(g) != FailsTracked
  }

  /** The report names exactly what runs, one version each. */
  ghost predicate ReportsRunning(s: State) {
    RunsTableEntries(s) && OneVersionEach(s.running.Keys) && s.tracked == Names(s.running.Keys)
  }

  lemma SyncReportsRunning(o: Options, s: State, d: Discovery, register: GVR -> Registration)
    requires ReportsRunning(s) && FailsEarly(register)
    ensures ReportsRunning(Synced(o, s, d, register))
  {
    SyncKeepsShape(o, s, d, register);
    if !d.DiscoveryFailed? {
      var wanted := Wanted(o, d);
      WantedOneVersion(o, d);
      NothingExtra(s, wanted, register);
    }
  }

  lemma NothingExtra(s: State, wanted: map<GVR, Item>, register: GVR -> Registration)
    requires s.tracked == Names(s.running.Keys) && FailsEarly(register)
    ensures Reconciled(s, wanted, register).tracked <= Names(Reconciled(s, wanted, register).running.Keys)
  {
    var after := Reconciled(s, wanted, register);
    forall n | n in after.tracked ensures n in Names(after.running.Keys) {
      if n in Names(NewlyTracked(s, wanted, register)) {
        var g :| g in NewlyTracked(s, wanted, register) && g.Name() == n;
        assert g in after.running.Keys;
      } else {
        var g :| g in s.running.Keys && g.Name() == n;
        assert g !in Stopped(s, wanted);
        assert g in after.running.Keys;
      }
    }
  }

  /** After every sequence of syncs, whatever discovery answered or failed to and
      whatever registrations failed before their health was tracked, the report
      names exactly the running informers, one version each. */
  lemma {:induction false} ReportFollowsRunning(o: Options, rounds: seq<Round>)
    requires forall k :: 0 <= k < |rounds| ==> FailsEarly(rounds[k].register)
    ensures ReportsRunning(AfterRounds(o, rounds))
  {
    if rounds == [] {
      assert Names({}) == {};
    } else {
      var last := rounds[|rounds| - 1];
      ReportFollowsRunning(o, rounds[..|rounds| - 1]);
      SyncReportsRunning(o, AfterRounds(o, rounds[..|rounds| - 1]), last.discovery, last.register);
    }
  }

  /** Whatever went wrong in earlier syncs, one that meets no error leaves exactly
      the wanted informers running and reported. */
  lemma ErrorFreeSyncRecovers(o: Options, rounds: seq<Round>, d: Discovery, register: GVR -> Registration)
    requires !d.DiscoveryFailed? && NeverFails(register)
    requires forall k :: 0 <= k < |rounds| ==> FailsEarly(rounds[k].register)
    ensures
      var after := Synced(o, AfterRounds(o, rounds), d, register);
      after.running == Wanted(o, d) && after.tracked == Names(Wanted(o, d).Keys)
  {
    var before := AfterRounds(o, rounds);
    ReportFollowsRunning(o, rounds);
    assert Leftover(before) == {};
    SyncReachesWanted(o, before, d, register);
  }

  // ---- the defensive branch ----

  /** A late registration failure would leave a name in the report that no informer
      stands behind; once its resource is gone, no later sync removes it. */
  lemma LateFailureLingers(o: Options, g: GVR, register: GVR -> Registration, d: Discovery)
    requires !d.DiscoveryFailed? && g in Wanted(o, d) && register(g) == FailsTracked
    ensures
      var after := Synced(o, State(map[], {}), d, register);
      && g.Name() in Leftover(after)
      && forall later, r ::
           g.Name() in Synced(o, after, Serves(later), r).tracked
  {
    var s := State(map[], {});
    var after := Synced(o, s, d, register);
    assert g in NewlyTracked(s, Wanted(o, d), register);
    WantedOneVersion(o, d);
    assert Names(after.running.Keys) <= Names(Wanted(o, d).Keys - {g});
  }
}
