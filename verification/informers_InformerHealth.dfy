/** Watch health per resource: informer_health.go. */
module InformerHealths {
  import opened Collections
  import Sorting

  /** What a list or watch ended with. A transient close is an ending client-go
      recovers from by itself. */
  datatype WatchError = NoError | TransientClose(text: string) | Lasting(text: string)

  datatype ResourceState = ResourceState(
    optional: bool, lastSuccess: Option<int>, lastError: string, lastErrorAt: Option<int>, errorCount: nat,
    degradedSince: Option<int>)

  type Resources = map<string, ResourceState>

  datatype Event =
    | Track(resource: string, optional: bool)
    | Untrack(resource: string)
    | Success(resource: string, watching: bool, at: int)
    | Failure(resource: string, error: WatchError, at: int)

  function NewState(optional: bool): ResourceState {
    ResourceState(optional, None, "", None, 0, None)
  }

  function Succeeded(s: ResourceState, watching: bool, at: int): ResourceState {
    s.(lastSuccess := Some(at), degradedSince := if watching then None else s.degradedSince)
  }

  function Failed(s: ResourceState, text: string, at: int): ResourceState {
    s.(errorCount := s.errorCount + 1, lastError := text, lastErrorAt := Some(at),
       degradedSince := if s.degradedSince.None? then Some(at) else s.degradedSince)
  }

  function Applied(rs: Resources, e: Event): Resources {
    match e
    case Track(r, optional) => rs[r := NewState(optional)]
    case Untrack(r) => rs - {r}
    case Success(r, watching, at) => if r in rs then rs[r := Succeeded(rs[r], watching, at)] else rs
    case Failure(r, error, at) => if r in rs && error.Lasting? then rs[r := Failed(rs[r], error.text, at)] else rs
  }

  predicate IsDegraded(rs: Resources, r: string) {
    r in rs && rs[r].degradedSince.Some?
  }

  /** A success or failure that changes whether its resource is degraded. */
  predicate Flips(rs: Resources, e: Event) {
    (e.Success? || e.Failure?) && IsDegraded(rs, e.resource) != IsDegraded(Applied(rs, e), e.resource)
  }

  class InformerHealth {
    var resources: Resources
    /** How often `onChange` was called. */
    var changes: nat
    ghost var history: seq<Event>

    /** The fields are what the events so far make of them, and every flip was
        reported once. */
    ghost predicate Valid()
      reads this
    {
      resources == Replay(history) && changes == Flipped(history)
    }

    constructor ()
      ensures Valid() && history == []
    {
      resources, changes, history := map[], 0, [];
    }

    ghost method Happened(e: Event)
      modifies this`history
      ensures history == old(history) + [e]
      ensures Replay(history) == Applied(Replay(old(history)), e)
      ensures Flipped(history) == Flipped(old(history)) + if Flips(Replay(old(history)), e) then 1 else 0
    {
      ghost var before := history;
      history := before + [e];
      assert history[..|before|] == before;
    }

    method RegisterResource(resource: string, optional: bool)
      requires Valid()
      modifies this
      ensures Valid() && history == old(history) + [Track(resource, optional)]
    {
      Happened(Track(resource, optional));
      resources := resources[resource := NewState(optional)];
    }

    method ForgetResource(resource: string)
      requires Valid()
      modifies this
      ensures Valid() && history == old(history) + [Untrack(resource)]
    {
      Happened(Untrack(resource));
      resources := resources - {resource};
    }

    method RecordSuccess(resource: string, watching: bool, now: int)
      requires Valid()
      modifies this
      ensures Valid() && history == old(history) + [Success(resource, watching, now)]
    {
      Happened(Success(resource, watching, now));
      if resource !in resources {
        return;
      }
      var state := resources[resource];
      state := state.(lastSuccess := Some(now));
      var recovered := watching && state.degradedSince.Some?;
      if recovered {
        state := state.(degradedSince := None);
      }
      resources := resources[resource := state];
      if recovered {
        changes := changes + 1;
      }
    }

    method RecordError(resource: string, error: WatchError, now: int)
      requires Valid()
      modifies this
      ensures Valid() && history == old(history) + [Failure(resource, error, now)]
    {
      Happened(Failure(resource, error, now));
      if error.NoError? || error.TransientClose? {
        return;
      }
      if resource !in resources {
        return;
      }
      var state := resources[resource];
      state := state.(errorCount := state.errorCount + 1, lastError := error.text, lastErrorAt := Some(now));
      var degraded := state.degradedSince.None?;
      if degraded {
        state := state.(degradedSince := Some(now));
      }
      resources := resources[resource := state];
      if degraded {
        changes := changes + 1;
      }
    }

    /** The report that goes into a snapshot; `synced` are the informers that
        have completed their first list. */
    method SnapshotHealth(synced: set<string>) returns (health: Health)
      ensures health == HealthOf(resources, synced)
    {
      Sorting.BeforeIsStrictOrder();
      var names := Sorting.SortedMembers(resources.Keys, Sorting.Before);
      Sorting.OrderedMembers(resources.Keys, Sorting.Before);
      var degraded := [];
      for i := 0 to |names|
        invariant degraded == FlatMap(names[..i], DegradedEntry(resources, synced))
      {
        FlatMapStep(names, DegradedEntry(resources, synced), i);
        assert names[i] in names;
        var state := resources[names[i]];
        if state.degradedSince.Some? {
          degraded := degraded + [DegradedResource(names[i], names[i] in synced, state.degradedSince.value, state.lastError)];
        }
      }
      WholePrefix(names);
      health := Health(degraded == [], degraded);
    }
  }

  // ---- whole traces ----

  function Replay(events: seq<Event>): Resources {
    if events == [] then map[] else Applied(Replay(events[..|events| - 1]), events[|events| - 1])
  }

  /** Tracking or forgetting the resource, or proof that its watch delivers. */
  predicate Resets(e: Event, r: string) {
    e.resource == r && (e.Track? || e.Untrack? || (e.Success? && e.watching))
  }

  ghost predicate TrackedSince(events: seq<Event>, r: string, k: nat) {
    && k < |events| && events[k].Track? && events[k].resource == r
    && forall j :: k < j < |events| ==> !((events[j].Track? || events[j].Untrack?) && events[j].resource == r)
  }

  ghost predicate Tracked(events: seq<Event>, r: string) {
    exists k :: TrackedSince(events, r, k)
  }

  /** A lasting error of the resource that nothing has reset since. */
  ghost predicate Trouble(events: seq<Event>, r: string, i: nat) {
    && i < |events| && events[i].Failure? && events[i].resource == r && events[i].error.Lasting?
    && forall j :: i < j < |events| ==> !Resets(events[j], r)
  }

  ghost predicate FirstTrouble(events: seq<Event>, r: string, i: nat) {
    Trouble(events, r, i) && forall j :: 0 <= j < i ==> !Trouble(events, r, j)
  }

  lemma TrackedStep(events: seq<Event>, r: string)
    requires events != []
    ensures
      var n := |events| - 1;
      Tracked(events, r) <==>
        if events[n].resource == r && (events[n].Track? || events[n].Untrack?) then events[n].Track?
        else Tracked(events[..n], r)
  {
    var n := |events| - 1;
    var front, e := events[..n], events[n];
    if e.resource == r && e.Track? {
      assert TrackedSince(events, r, n);
    } else if !(e.resource == r && e.Untrack?) {
      if Tracked(front, r) {
        var k :| TrackedSince(front, r, k);
        assert TrackedSince(events, r, k);
      }
      if Tracked(events, r) {
        var k :| TrackedSince(events, r, k);
        assert TrackedSince(front, r, k);
      }
    }
  }

  lemma TroubleStep(events: seq<Event>, r: string, i: nat)
    requires events != []
    ensures
      var n := |events| - 1;
      Trouble(events, r, i) <==>
        if i == n then events[n].Failure? && events[n].resource == r && events[n].error.Lasting?
        else i < n && Trouble(events[..n], r, i) && !Resets(events[n], r)
  {
    var n := |events| - 1;
    if i < n {
      assert events[..n][i] == events[i];
      if Trouble(events[..n], r, i) && !Resets(events[n], r) {
        forall j | i < j < |events| ensures !Resets(events[j], r) {
          assert j < n ==> events[..n][j] == events[j];
        }
      }
      if Trouble(events, r, i) {
        forall j | i < j < n ensures !Resets(events[..n][j], r) {
          assert events[..n][j] == events[j];
        }
      }
    }
  }

  lemma {:induction false} TrackedExactly(events: seq<Event>, r: string)
    ensures r in Replay(events) <==> Tracked(events, r)
  {
    if events != [] {
      TrackedExactly(events[..|events| - 1], r);
      TrackedStep(events, r);
    }
  }

  /** Degraded, and since when, in one formula: `since` is the time of the first
      error that nothing has reset, if there is one. */
  ghost predicate SinceFirstTrouble(events: seq<Event>, r: string, since: Option<int>) {
    match since
    case None => forall i: nat :: !Trouble(events, r, i)
    case Some(t) => exists i: nat :: FirstTrouble(events, r, i) && events[i].at == t
  }

  lemma SinceStep(events: seq<Event>, r: string, since: Option<int>)
    requires events != [] && SinceFirstTrouble(events[..|events| - 1], r, since)
    ensures
      var e := events[|events| - 1];
      SinceFirstTrouble(events, r,
        if Resets(e, r) then None
        else if since.None? && e.Failure? && e.resource == r && e.error.Lasting? then Some(e.at)
        else since)
  {
    var n := |events| - 1;
    var front, e := events[..n], events[n];
    forall i: nat ensures Trouble(events, r, i) <==>
        if i == n then e.Failure? && e.resource == r && e.error.Lasting?
        else i < n && Trouble(front, r, i) && !Resets(e, r)
    {
      TroubleStep(events, r, i);
    }
    if !Resets(e, r) {
      if since.Some? {
        var i: nat :| FirstTrouble(front, r, i) && front[i].at == since.value;
        assert FirstTrouble(events, r, i) && events[i].at == since.value;
      } else if e.Failure? && e.resource == r && e.error.Lasting? {
        assert FirstTrouble(events, r, n);
      }
    }
  }

  /** After every sequence of events, a tracked resource is degraded exactly when
      an error that lasts came after the last event that resets it, and since the
      first such error. A successful list changes neither. */
  lemma {:induction false} DegradedExactly(events: seq<Event>, r: string)
    requires r in Replay(events)
    ensures SinceFirstTrouble(events, r, Replay(events)[r].degradedSince)
  {
    var n := |events| - 1;
    var front, e := events[..n], events[n];
    if e.resource == r && e.Track? {
      forall i: nat ensures !Trouble(events, r, i) {
        TroubleStep(events, r, i);
      }
    } else {
      DegradedExactly(front, r);
      SinceStep(events, r, Replay(front)[r].degradedSince);
    }
  }

  predicate IsError(e: Event, r: string) { e.Failure? && e.resource == r && e.error.Lasting? }

  predicate Restarts(e: Event, r: string) { e.resource == r && (e.Track? || e.Untrack?) }

  ghost predicate ErrorSince(events: seq<Event>, r: string, i: int) {
    0 <= i < |events| && IsError(events[i], r) && forall j :: i < j < |events| ==> !Restarts(events[j], r)
  }

  /** The lasting errors of the resource since it was tracked. */
  ghost function ErrorsSince(events: seq<Event>, r: string): set<int> {
    set i | 0 <= i < |events| && ErrorSince(events, r, i)
  }

  lemma ErrorsStep(events: seq<Event>, r: string)
    requires events != []
    ensures
      var n := |events| - 1;
      ErrorsSince(events, r) ==
        if Restarts(events[n], r) then {}
        else ErrorsSince(events[..n], r) + if IsError(events[n], r) then {n} else {}
  {
    var n := |events| - 1;
    forall i ensures ErrorSince(events, r, i) <==>
        !Restarts(events[n], r) && (ErrorSince(events[..n], r, i) || (i == n && IsError(events[n], r)))
    {
      if 0 <= i < n {
        assert events[..n][i] == events[i];
        assert forall j :: i < j < n ==> events[..n][j] == events[j];
      }
    }
  }

  /** The report's error is that of the last one since the resource was tracked. */
  ghost predicate LastError(events: seq<Event>, r: string, s: ResourceState) {
    if ErrorsSince(events, r) == {} then s.lastErrorAt.None? && s.lastError == ""
    else exists i :: ErrorSince(events, r, i) && (forall j :: ErrorSince(events, r, j) ==> j <= i)
                     && s.lastErrorAt == Some(events[i].at) && s.lastError == events[i].error.text
  }

  /** The error count of a tracked resource is that of its lasting errors since it
      was tracked, and its last error is the last of them. */
  lemma {:induction false} ErrorsExactly(events: seq<Event>, r: string)
    requires r in Replay(events)
    ensures Replay(events)[r].errorCount == |ErrorsSince(events, r)| && LastError(events, r, Replay(events)[r])
  {
    var n := |events| - 1;
    var front, e := events[..n], events[n];
    ErrorsStep(events, r);
    if !Restarts(e, r) {
      ErrorsExactly(front, r);
      forall i ensures ErrorSince(events, r, i) <==> ErrorSince(front, r, i) || (i == n && IsError(e, r)) {
        assert ErrorSince(events, r, i) <==> i in ErrorsSince(events, r);
        assert ErrorSince(front, r, i) <==> i in ErrorsSince(front, r);
      }
      if IsError(e, r) {
        assert ErrorSince(events, r, n);
      } else if ErrorsSince(front, r) != {} {
        var i :| ErrorSince(front, r, i) && (forall j :: ErrorSince(front, r, j) ==> j <= i)
                 && Replay(front)[r].lastErrorAt == Some(front[i].at) && Replay(front)[r].lastError == front[i].error.text;
        assert ErrorSince(events, r, i) && events[i] == front[i];
      }
    }
  }

  function Flipped(events: seq<Event>): nat {
    if events == [] then 0
    else Flipped(events[..|events| - 1]) + if Flips(Replay(events[..|events| - 1]), events[|events| - 1]) then 1 else 0
  }

  // ---- the published report ----

  datatype DegradedResource = DegradedResource(resource: string, synced: bool, since: int, error: string)

  /** `ok` is the status: ok or degraded. */
  datatype Health = Health(ok: bool, degraded: seq<DegradedResource>)

  function DegradedEntry(rs: Resources, synced: set<string>): string -> seq<DegradedResource> {
    (r: string) =>
      if r in rs && rs[r].degradedSince.Some?
      then [DegradedResource(r, r in synced, rs[r].degradedSince.value, rs[r].lastError)]
      else []
  }

  ghost function HealthOf(rs: Resources, synced: set<string>): Health {
    var degraded := FlatMap(Sorting.Ordered(rs.Keys, Sorting.Before), DegradedEntry(rs, synced));
    Health(degraded == [], degraded)
  }

  predicate SameEntry(a: DegradedResource, b: DegradedResource) {
    a.resource == b.resource && a.synced == b.synced
  }

  ghost predicate AlikeHealth(a: Health, b: Health) {
    a.ok == b.ok && |a.degraded| == |b.degraded| &&
    forall i :: 0 <= i < |a.degraded| ==> SameEntry(a.degraded[i], b.degraded[i])
  }

  /** sameHealth */
  method SameHealth(a: Health, b: Health) returns (same: bool)
    ensures same <==> AlikeHealth(a, b)
  {
    if a.ok != b.ok || |a.degraded| != |b.degraded| {
      return false;
    }
    for i := 0 to |a.degraded|
      invariant forall j :: 0 <= j < i ==> SameEntry(a.degraded[j], b.degraded[j])
    {
      if a.degraded[i].resource != b.degraded[i].resource || a.degraded[i].synced != b.degraded[i].synced {
        return false;
      }
    }
    return true;
  }

  /** What a snapshot's health shows apart from times and texts. */
  ghost function DegradedNames(rs: Resources): set<string> {
    set r | r in rs && rs[r].degradedSince.Some?
  }

  function IsDegradedIn(rs: Resources): string -> bool {
    (r: string) => IsDegraded(rs, r)
  }

  /** The report lists the degraded names in order. */
  lemma {:induction false} EntriesAreNames(names: seq<string>, rs: Resources, synced: set<string>)
    ensures
      var entries, degraded := FlatMap(names, DegradedEntry(rs, synced)), Filter(names, IsDegradedIn(rs));
      && |entries| == |degraded|
      && forall i :: 0 <= i < |entries| ==> entries[i].resource == degraded[i] && entries[i].synced == (degraded[i] in synced)
  {
    if names != [] {
      EntriesAreNames(names[..|names| - 1], rs, synced);
    }
  }

  lemma DegradedInOrder(rs: Resources)
    ensures Filter(Sorting.Ordered(rs.Keys, Sorting.Before), IsDegradedIn(rs)) == Sorting.Ordered(DegradedNames(rs), Sorting.Before)
  {
    var names := Sorting.Ordered(rs.Keys, Sorting.Before);
    Sorting.BeforeIsStrictOrder();
    Sorting.OrderedMembers(rs.Keys, Sorting.Before);
    FilterSame(names, IsDegradedIn(rs), Sorting.Among(DegradedNames(rs)));
    Sorting.OrderedSubset(rs.Keys, DegradedNames(rs), Sorting.Before);
  }

  lemma NamesAlike(a: seq<string>, b: seq<string>, syncedX: set<string>, syncedY: set<string>)
    ensures
      var xs, ys := (set r | r in a), (set r | r in b);
      |a| == |b| && (forall i :: 0 <= i < |a| ==> a[i] == b[i] && (a[i] in syncedX <==> b[i] in syncedY)) <==>
        a == b && xs * syncedX == ys * syncedY
  {
    var xs, ys := (set r | r in a), (set r | r in b);
    if |a| == |b| && (forall i :: 0 <= i < |a| ==> a[i] == b[i] && (a[i] in syncedX <==> b[i] in syncedY)) {
      assert a == b;
      forall r ensures r in xs * syncedX <==> r in ys * syncedY {
        if r in a {
          var i :| 0 <= i < |a| && a[i] == r;
          assert a[i] in syncedX <==> b[i] in syncedY;
        }
      }
    }
    if a == b && xs * syncedX == ys * syncedY {
      forall i | 0 <= i < |a| ensures a[i] in syncedX <==> b[i] in syncedY {
        assert a[i] in xs * syncedX <==> a[i] in syncedX;
        assert b[i] in ys * syncedY <==> b[i] in syncedY;
      }
    }
  }

  lemma OrderedDetermines(xs: set<string>, ys: set<string>)
    ensures
      var a, b := Sorting.Ordered(xs, Sorting.Before), Sorting.Ordered(ys, Sorting.Before);
      (a == b <==> xs == ys) && (set r | r in a) == xs && (set r | r in b) == ys
  {
    Sorting.OrderedMembers(xs, Sorting.Before);
    Sorting.OrderedMembers(ys, Sorting.Before);
    var a, b := Sorting.Ordered(xs, Sorting.Before), Sorting.Ordered(ys, Sorting.Before);
    if a == b {
      forall r ensures r in xs <==> r in ys {
        assert r in a <==> r in b;
      }
    }
  }

  /** The report, seen through its names. */
  ghost predicate Shows(health: Health, names: seq<string>, synced: set<string>) {
    && (health.ok <==> names == []) && |health.degraded| == |names|
    && forall i :: 0 <= i < |names| ==>
         health.degraded[i].resource == names[i] && health.degraded[i].synced == (names[i] in synced)
  }

  lemma HealthShows(rs: Resources, synced: set<string>)
    ensures Shows(HealthOf(rs, synced), Sorting.Ordered(DegradedNames(rs), Sorting.Before), synced)
  {
    EntriesAreNames(Sorting.Ordered(rs.Keys, Sorting.Before), rs, synced);
    DegradedInOrder(rs);
  }

  lemma AlikeShown(x: Health, y: Health, a: seq<string>, b: seq<string>, syncedX: set<string>, syncedY: set<string>)
    requires Shows(x, a, syncedX) && Shows(y, b, syncedY)
    ensures AlikeHealth(x, y) <==>
              |a| == |b| && forall i :: 0 <= i < |a| ==> a[i] == b[i] && (a[i] in syncedX <==> b[i] in syncedY)
  {
    if AlikeHealth(x, y) {
      forall i | 0 <= i < |a| ensures a[i] == b[i] && (a[i] in syncedX <==> b[i] in syncedY) {
        assert SameEntry(x.degraded[i], y.degraded[i]);
      }
    }
  }

  /** Two reports count as the same exactly when the same resources are degraded,
      with the same sync state: error texts, counts and times do not matter. */
  lemma AlikeExactly(xs: Resources, ys: Resources, syncedX: set<string>, syncedY: set<string>)
    ensures AlikeHealth(HealthOf(xs, syncedX), HealthOf(ys, syncedY)) <==>
              && DegradedNames(xs) == DegradedNames(ys)
              && DegradedNames(xs) * syncedX == DegradedNames(ys) * syncedY
  {
    var a, b := Sorting.Ordered(DegradedNames(xs), Sorting.Before), Sorting.Ordered(DegradedNames(ys), Sorting.Before);
    HealthShows(xs, syncedX);
    HealthShows(ys, syncedY);
    AlikeShown(HealthOf(xs, syncedX), HealthOf(ys, syncedY), a, b, syncedX, syncedY);
    NamesAlike(a, b, syncedX, syncedY);
    OrderedDetermines(DegradedNames(xs), DegradedNames(ys));
  }
}
