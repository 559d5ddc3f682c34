/** builder_endpoints.go as loops over maps and counters, proved against
    EndpointModel, and what the counts mean. */
module EndpointCollection {
  import opened Collections
  import opened Kube
  import opened EndpointModel

  function StatsAt(stats: map<Key, Stats>, k: Key): Stats {
    if k in stats then stats[k] else NO_STATS
  }

  lemma SumStatsStep<T>(xs: seq<T>, f: T -> Stats, i: nat)
    requires i < |xs|
    ensures SumStats(xs[..i + 1], f) == SumStats(xs[..i], f).Plus(f(xs[i]))
  {
    Extend(xs, i);
  }

  lemma PlusAssociative(a: Stats, b: Stats, c: Stats)
    ensures a.Plus(b).Plus(c) == a.Plus(b.Plus(c))
  {
  }

  /** Counts one endpoint by its conditions. */
  method CountEndpoint(stats: Stats, e: SliceEndpoint) returns (r: Stats)
    ensures r == stats.Plus(EndpointStats(e))
  {
    r := stats.(total := stats.total + 1);
    var ready := ConditionValue(e.ready, true);
    var serving := ConditionValue(e.serving, ready);
    var terminating := ConditionValue(e.terminating, false);
    if ready {
      r := r.(ready := r.ready + 1);
    }
    if serving {
      r := r.(serving := r.serving + 1);
    }
    if terminating {
      r := r.(terminating := r.terminating + 1);
    }
    if ready && serving && !terminating {
      r := r.(usable := r.usable + 1);
    }
  }

  /** Adds one slice's endpoints to a Service's counters. */
  method CountEndpoints(stats: Stats, s: EndpointSlice) returns (r: Stats)
    ensures r == stats.Plus(SliceStats(s))
  {
    r := stats;
    for i := 0 to |s.endpoints|
      invariant r == stats.Plus(SumStats(s.endpoints[..i], EndpointStats))
    {
      SumStatsStep(s.endpoints, EndpointStats, i);
      PlusAssociative(stats, SumStats(s.endpoints[..i], EndpointStats), EndpointStats(s.endpoints[i]));
      r := CountEndpoint(r, s.endpoints[i]);
    }
    WholePrefix(s.endpoints);
  }

  lemma SliceServiceStep(slices: seq<EndpointSlice>, i: nat, k: Key)
    requires i < |slices|
    ensures HasSlice(slices[..i + 1], k) <==> HasSlice(slices[..i], k) || SliceService(slices[i]) == Some(k)
  {
    Extend(slices, i);
    assert slices[i] in slices[..i + 1];
  }

  lemma SliceStep(slices: seq<EndpointSlice>, i: nat, k: Key)
    requires i < |slices|
    ensures HasSlice(slices[..i + 1], k) <==> HasSlice(slices[..i], k) || SliceService(slices[i]) == Some(k)
    ensures SumStats(slices[..i + 1], StatsFor(k)) ==
            if SliceService(slices[i]) == Some(k) then SumStats(slices[..i], StatsFor(k)).Plus(SliceStats(slices[i]))
            else SumStats(slices[..i], StatsFor(k))
  {
    Extend(slices, i);
    assert slices[i] in slices[..i + 1];
    SumStatsStep(slices, StatsFor(k), i);
    PlusNoStats(SumStats(slices[..i], StatsFor(k)));
  }

  /** collectEndpointStats */
  method CollectEndpointStats(slices: seq<EndpointSlice>) returns (stats: map<Key, Stats>)
    ensures forall k :: k in stats <==> HasSlice(slices, k)
    ensures forall k :: StatsAt(stats, k) == SumStats(slices, StatsFor(k))
  {
    stats := map[];
    for i := 0 to |slices|
      invariant forall k :: k in stats <==> HasSlice(slices[..i], k)
      invariant forall k :: StatsAt(stats, k) == SumStats(slices[..i], StatsFor(k))
    {
      var service := SliceService(slices[i]);
      if service.Some? {
        var counted := CountEndpoints(StatsAt(stats, service.value), slices[i]);
        stats := stats[service.value := counted];
      }
      forall k ensures k in stats <==> HasSlice(slices[..i + 1], k) {
        SliceStep(slices, i, k);
      }
      forall k ensures StatsAt(stats, k) == SumStats(slices[..i + 1], StatsFor(k)) {
        SliceStep(slices, i, k);
      }
    }
    WholePrefix(slices);
  }

  lemma LegacyStep(endpoints: seq<Endpoints>, i: nat, k: Key)
    requires i < |endpoints|
    ensures HasLegacy(endpoints[..i + 1], k) <==> HasLegacy(endpoints[..i], k) || endpoints[i].key == k
    ensures SumStats(endpoints[..i + 1], LegacyStatsFor(k)) ==
            if endpoints[i].key == k then SumStats(endpoints[..i], LegacyStatsFor(k)).Plus(LegacyStats(endpoints[i]))
            else SumStats(endpoints[..i], LegacyStatsFor(k))
  {
    Extend(endpoints, i);
    assert endpoints[i] in endpoints[..i + 1];
    SumStatsStep(endpoints, LegacyStatsFor(k), i);
    PlusNoStats(SumStats(endpoints[..i], LegacyStatsFor(k)));
  }

  /** Ready addresses count as usable, the others only towards the total. */
  method CountSubsets(stats: Stats, e: Endpoints) returns (r: Stats)
    ensures r == stats.Plus(LegacyStats(e))
  {
    r := stats;
    for i := 0 to |e.subsets|
      invariant r == stats.Plus(SumStats(e.subsets[..i], SubsetStats))
    {
      var n, m := |e.subsets[i].addresses|, |e.subsets[i].notReady|;
      SumStatsStep(e.subsets, SubsetStats, i);
      PlusAssociative(stats, SumStats(e.subsets[..i], SubsetStats), SubsetStats(e.subsets[i]));
      r := Stats(r.total + n + m, r.usable + n, r.ready + n, r.serving + n, r.terminating);
    }
    WholePrefix(e.subsets);
  }

  /** collectLegacyEndpointStats */
  method CollectLegacyEndpointStats(endpoints: seq<Endpoints>) returns (stats: map<Key, Stats>)
    ensures forall k :: k in stats <==> HasLegacy(endpoints, k)
    ensures forall k :: StatsAt(stats, k) == SumStats(endpoints, LegacyStatsFor(k))
  {
    stats := map[];
    for i := 0 to |endpoints|
      invariant forall k :: k in stats <==> HasLegacy(endpoints[..i], k)
      invariant forall k :: StatsAt(stats, k) == SumStats(endpoints[..i], LegacyStatsFor(k))
    {
      var e := endpoints[i];
      var counted := CountSubsets(StatsAt(stats, e.key), e);
      stats := stats[e.key := counted];
      forall k ensures k in stats <==> HasLegacy(endpoints[..i + 1], k) {
        LegacyStep(endpoints, i, k);
      }
      forall k ensures StatsAt(stats, k) == SumStats(endpoints[..i + 1], LegacyStatsFor(k)) {
        LegacyStep(endpoints, i, k);
      }
    }
    WholePrefix(endpoints);
  }

  /** servicesWithEndpointSlices */
  method ServicesWithEndpointSlices(slices: seq<EndpointSlice>) returns (keys: set<Key>)
    ensures forall k :: k in keys <==> HasSlice(slices, k)
  {
    keys := {};
    for i := 0 to |slices|
      invariant forall k :: k in keys <==> HasSlice(slices[..i], k)
    {
      Extend(slices, i);
      match SliceService(slices[i])
      case None =>
      case Some(key) => keys := keys + {key};
    }
    WholePrefix(slices);
  }

  /** mergeEndpointStats, in whatever order the source map is iterated. */
  method MergeEndpointStats(target: map<Key, Stats>, source: map<Key, Stats>, skip: set<Key>) returns (merged: map<Key, Stats>)
    ensures merged.Keys == target.Keys + (source.Keys - skip)
    ensures forall k :: StatsAt(merged, k) == if k in source && k !in skip then StatsAt(target, k).Plus(source[k]) else StatsAt(target, k)
  {
    merged := target;
    var remaining := source.Keys;
    while remaining != {}
      invariant remaining <= source.Keys
      invariant merged.Keys == target.Keys + (source.Keys - skip - remaining)
      invariant forall k :: StatsAt(merged, k) ==
                  if k in source && k !in skip && k !in remaining then StatsAt(target, k).Plus(source[k]) else StatsAt(target, k)
      decreases remaining
    {
      var k :| k in remaining;
      remaining := remaining - {k};
      if k !in skip {
        merged := merged[k := StatsAt(merged, k).Plus(source[k])];
      }
    }
  }

  /** The statistics a build looks up: a Service with slices never also counts
      its legacy Endpoints. */
  method EndpointStatsByService(slices: seq<EndpointSlice>, endpoints: seq<Endpoints>) returns (stats: map<Key, Stats>)
    ensures forall k :: k in stats <==> HasSlice(slices, k) || HasLegacy(endpoints, k)
    ensures forall k :: StatsAt(stats, k) == ServiceStats(slices, endpoints, k)
  {
    var fromSlices := CollectEndpointStats(slices);
    var withSlices := ServicesWithEndpointSlices(slices);
    var legacy := CollectLegacyEndpointStats(endpoints);
    stats := MergeEndpointStats(fromSlices, legacy, withSlices);
    forall k ensures StatsAt(stats, k) == ServiceStats(slices, endpoints, k) {
      if !HasSlice(slices, k) {
        assert StatsAt(fromSlices, k) == NO_STATS;
        PlusNoStats(StatsAt(legacy, k));
        assert NO_STATS.Plus(StatsAt(legacy, k)) == StatsAt(legacy, k);
      }
    }
  }

  // ---- what the counts mean ----

  function SliceOf(service: Key): EndpointSlice -> bool { (s: EndpointSlice) => SliceService(s) == Some(service) }
  function EndpointsOf(s: EndpointSlice): seq<SliceEndpoint> { s.endpoints }
  function LegacyOf(service: Key): Endpoints -> bool { (e: Endpoints) => e.key == service }

  /** Every endpoint listed for a Service by its slices. */
  function ListedEndpoints(slices: seq<EndpointSlice>, service: Key): seq<SliceEndpoint> {
    FlatMap(Filter(slices, SliceOf(service)), EndpointsOf)
  }

  /** Every address listed for a Service by legacy Endpoints. */
  function ListedAddresses(endpoints: seq<Endpoints>, service: Key): seq<LegacyAddress> {
    FlatMap(Filter(endpoints, LegacyOf(service)), LegacyAddresses)
  }

  function CountsOf(es: seq<SliceEndpoint>): Stats {
    Stats(|es|, |Filter(es, IsUsable)|, |Filter(es, IsReady)|, |Filter(es, IsServing)|, |Filter(es, IsTerminating)|)
  }

  function MarkedReady(a: LegacyAddress): bool { a.ready }

  function LegacyCounts(as_: seq<LegacyAddress>): Stats {
    var ready := |Filter(as_, MarkedReady)|;
    Stats(|as_|, ready, ready, ready, 0)
  }

  lemma CountConcat<T>(a: seq<T>, b: seq<T>, keep: T -> bool)
    ensures |Filter(a + b, keep)| == |Filter(a, keep)| + |Filter(b, keep)|
  {
    FilterConcat(a, b, keep);
  }

  lemma CountsConcat(a: seq<SliceEndpoint>, b: seq<SliceEndpoint>)
    ensures CountsOf(a + b) == CountsOf(a).Plus(CountsOf(b))
  {
    CountConcat(a, b, IsUsable);
    CountConcat(a, b, IsReady);
    CountConcat(a, b, IsServing);
    CountConcat(a, b, IsTerminating);
  }

  lemma {:induction false} SliceStatsCount(es: seq<SliceEndpoint>)
    ensures SumStats(es, EndpointStats) == CountsOf(es)
  {
    if es != [] {
      SliceStatsCount(es[..|es| - 1]);
    }
  }

  lemma {:induction false} SliceTotalsCount(slices: seq<EndpointSlice>, service: Key)
    ensures SumStats(slices, StatsFor(service)) == CountsOf(ListedEndpoints(slices, service))
  {
    if slices != [] {
      var front, s := slices[..|slices| - 1], slices[|slices| - 1];
      SliceTotalsCount(front, service);
      var kept := Filter(front, SliceOf(service));
      if SliceService(s) == Some(service) {
        SliceStatsCount(s.endpoints);
        assert (kept + [s])[..|kept|] == kept;
        CountsConcat(ListedEndpoints(front, service), s.endpoints);
      } else {
        PlusNoStats(SumStats(front, StatsFor(service)));
      }
    }
  }

  lemma LegacyCountsConcat(a: seq<LegacyAddress>, b: seq<LegacyAddress>)
    ensures LegacyCounts(a + b) == LegacyCounts(a).Plus(LegacyCounts(b))
  {
    CountConcat(a, b, MarkedReady);
    PlusLegacy(|a|, |b|, |Filter(a, MarkedReady)|, |Filter(b, MarkedReady)|);
  }

  lemma PlusLegacy(n: nat, m: nat, ready: nat, more: nat)
    ensures Stats(n, ready, ready, ready, 0).Plus(Stats(m, more, more, more, 0)) ==
            Stats(n + m, ready + more, ready + more, ready + more, 0)
  {
  }

  lemma {:induction false} MarkedCounts(addresses: seq<EndpointAddress>, ready: bool)
    ensures |Filter(Marked(addresses, ready), MarkedReady)| == if ready then |addresses| else 0
  {
    if addresses != [] {
      var front := addresses[..|addresses| - 1];
      MarkedCounts(front, ready);
      assert Marked(addresses, ready)[..|addresses| - 1] == Marked(front, ready);
    }
  }

  lemma {:induction false} LegacyStatsCount(subsets: seq<Subset>)
    ensures SumStats(subsets, SubsetStats) == LegacyCounts(FlatMap(subsets, SubsetAddresses))
  {
    if subsets != [] {
      var s := subsets[|subsets| - 1];
      LegacyStatsCount(subsets[..|subsets| - 1]);
      MarkedCounts(s.addresses, true);
      MarkedCounts(s.notReady, false);
      FilterConcat(Marked(s.addresses, true), Marked(s.notReady, false), MarkedReady);
      LegacyCountsConcat(FlatMap(subsets[..|subsets| - 1], SubsetAddresses), SubsetAddresses(s));
    }
  }

  lemma {:induction false} LegacyTotalsCount(endpoints: seq<Endpoints>, service: Key)
    ensures SumStats(endpoints, LegacyStatsFor(service)) == LegacyCounts(ListedAddresses(endpoints, service))
  {
    if endpoints != [] {
      var front, e := endpoints[..|endpoints| - 1], endpoints[|endpoints| - 1];
      LegacyTotalsCount(front, service);
      var kept := Filter(front, LegacyOf(service));
      if e.key == service {
        LegacyStatsCount(e.subsets);
        assert (kept + [e])[..|kept|] == kept;
        LegacyCountsConcat(ListedAddresses(front, service), LegacyAddresses(e));
      } else {
        PlusNoStats(SumStats(front, LegacyStatsFor(service)));
      }
    }
  }

  /** A Service's totals count its listed endpoints, each one once, and never
      mix the two sources. */
  lemma StatsAreCounts(slices: seq<EndpointSlice>, endpoints: seq<Endpoints>, service: Key)
    ensures ServiceStats(slices, endpoints, service) ==
            if HasSlice(slices, service) then CountsOf(ListedEndpoints(slices, service))
            else LegacyCounts(ListedAddresses(endpoints, service))
  {
    SliceTotalsCount(slices, service);
    LegacyTotalsCount(endpoints, service);
  }

  ghost predicate Bounded(s: Stats) {
    s.usable <= s.ready <= s.total && s.usable <= s.serving <= s.total && s.usable + s.terminating <= s.total
  }

  lemma {:induction false} SumBounded<T>(xs: seq<T>, f: T -> Stats)
    requires forall x :: x in xs ==> Bounded(f(x))
    ensures Bounded(SumStats(xs, f))
  {
    if xs != [] {
      SumBounded(xs[..|xs| - 1], f);
    }
  }

  lemma StatsAreBounded(slices: seq<EndpointSlice>, endpoints: seq<Endpoints>, service: Key)
    ensures Bounded(ServiceStats(slices, endpoints, service))
  {
    forall s | s in slices ensures Bounded(StatsFor(service)(s)) {
      SumBounded(s.endpoints, EndpointStats);
    }
    SumBounded(slices, StatsFor(service));
    forall e | e in endpoints ensures Bounded(LegacyStatsFor(service)(e)) {
      SumBounded(e.subsets, SubsetStats);
    }
    SumBounded(endpoints, LegacyStatsFor(service));
  }

  // ---- resolving Pods ----

  /** endpointReferencesPod and endpointAddressReferencesPod, which decide
      separately from the Pod collectors whether an address is a Pod's. */
  method ReferencesPod(target: Option<TargetRef>, namespace: string, address: string, index: PodIndex) returns (known: bool)
    ensures known == ResolvePod(target, namespace, address, index).Some?
  {
    match TargetKey(target, namespace) {
      case Some(k) =>
        if k in index.byName {
          return true;
        }
      case None =>
    }
    known := Key(namespace, address) in index.byIP;
  }

  /** The Pod one endpoint address stands for, entered under its own key. */
  method AddResolved(seen: map<Key, Pod>, target: Option<TargetRef>, namespace: string, address: string, index: PodIndex)
    returns (r: map<Key, Pod>)
    requires forall k :: k in seen ==> seen[k].key == k
    ensures r.Keys == seen.Keys + PodSet(ResolvePod(target, namespace, address, index))
    ensures forall k :: k in r ==> r[k].key == k
  {
    r := seen;
    var named := TargetKey(target, namespace);
    if named.Some? && named.value in index.byName {
      var pod := index.byName[named.value];
      r := seen[pod.key := pod];
    } else if Key(namespace, address) in index.byIP {
      var pod := index.byIP[Key(namespace, address)];
      r := seen[pod.key := pod];
    }
  }

  method AddEndpointPods(seen: map<Key, Pod>, e: SliceEndpoint, namespace: string, index: PodIndex) returns (r: map<Key, Pod>)
    requires forall k :: k in seen ==> seen[k].key == k
    ensures r.Keys == seen.Keys + EndpointPods(namespace, index)(e)
    ensures forall k :: k in r ==> r[k].key == k
  {
    r := seen;
    for j := 0 to |e.addresses|
      invariant r.Keys == seen.Keys + Collect(e.addresses[..j], AddressPods(e, namespace, index))
      invariant forall k :: k in r ==> r[k].key == k
    {
      CollectStep(e.addresses, AddressPods(e, namespace, index), j);
      r := AddResolved(r, e.target, namespace, e.addresses[j], index);
    }
    WholePrefix(e.addresses);
  }

  /** endpointSlicePods */
  method EndpointSlicePods(s: EndpointSlice, index: PodIndex) returns (seen: map<Key, Pod>)
    ensures seen.Keys == SlicePods(s, index)
    ensures forall k :: k in seen ==> seen[k].key == k
  {
    seen := map[];
    for i := 0 to |s.endpoints|
      invariant seen.Keys == Collect(s.endpoints[..i], EndpointPods(s.namespace, index))
      invariant forall k :: k in seen ==> seen[k].key == k
    {
      CollectStep(s.endpoints, EndpointPods(s.namespace, index), i);
      seen := AddEndpointPods(seen, s.endpoints[i], s.namespace, index);
    }
    WholePrefix(s.endpoints);
  }

  /** endpointPods, over the addresses of one or more subsets. */
  method LegacyEndpointPods(addresses: seq<LegacyAddress>, namespace: string, index: PodIndex) returns (seen: map<Key, Pod>)
    ensures seen.Keys == Collect(addresses, LegacyAddressPods(namespace, index))
    ensures forall k :: k in seen ==> seen[k].key == k
  {
    seen := map[];
    for i := 0 to |addresses|
      invariant seen.Keys == Collect(addresses[..i], LegacyAddressPods(namespace, index))
      invariant forall k :: k in seen ==> seen[k].key == k
    {
      CollectStep(addresses, LegacyAddressPods(namespace, index), i);
      seen := AddResolved(seen, addresses[i].address.target, namespace, addresses[i].address.ip, index);
    }
    WholePrefix(addresses);
  }

  // ---- endpoint Pods per port ----

  type PortIndex = map<Key, map<string, set<Key>>>

  function Listed(index: PortIndex, service: Key, port: string): Option<set<Key>> {
    if service !in index then None
    else Some(if port in index[service] then index[service][port] else {})
  }

  function ListedOrNone(index: PortIndex, service: Key, port: string): set<Key> {
    if Listed(index, service, port).Some? then Listed(index, service, port).value else {}
  }

  /** The `add` closure of endpointPodsByService. */
  method AddPortPods(index: PortIndex, service: Key, ports: seq<string>, pods: set<Key>) returns (r: PortIndex)
    ensures forall k, p :: k != service ==> Listed(r, k, p) == Listed(index, k, p)
    ensures forall p :: Listed(r, service, p) == Some(ListedOrNone(index, service, p) + if p in ports then pods else {})
  {
    var own := if service in index then index[service] else map[];
    ghost var before := own;
    for i := 0 to |ports|
      invariant forall p :: (if p in own then own[p] else {}) ==
                  (if p in before then before[p] else {}) + if p in ports[..i] then pods else {}
    {
      Extend(ports, i);
      own := own[ports[i] := (if ports[i] in own then own[ports[i]] else {}) + pods];
    }
    WholePrefix(ports);
    r := index[service := own];
  }

  function PortNames(ports: seq<Option<string>>): seq<string> {
    seq(|ports|, i requires 0 <= i < |ports| => PortName(ports[i]))
  }

  /** What the EndpointSlices seen so far list for a Service port. */
  ghost function SliceListing(slices: seq<EndpointSlice>, index: PodIndex, service: Key, port: string): Option<set<Key>> {
    if HasSlice(slices, service) then Some(Collect(slices, SlicePortPods(service, port, index))) else None
  }

  method SlicePortIndex(slices: seq<EndpointSlice>, index: PodIndex) returns (r: PortIndex)
    ensures forall k, p :: Listed(r, k, p) == SliceListing(slices, index, k, p)
  {
    r := map[];
    for i := 0 to |slices|
      invariant forall k, p :: Listed(r, k, p) == SliceListing(slices[..i], index, k, p)
    {
      var s := slices[i];
      ghost var before := r;
      match SliceService(s) {
        case None =>
        case Some(service) =>
          var pods := EndpointSlicePods(s, index);
          r := AddPortPods(r, service, PortNames(s.ports), pods.Keys);
      }
      forall k, p ensures Listed(r, k, p) == SliceListing(slices[..i + 1], index, k, p) {
        SliceListingStep(slices, index, i, k, p);
        NamesServed(s, p);
      }
    }
    WholePrefix(slices);
  }

  lemma NamesServed(s: EndpointSlice, port: string)
    ensures port in PortNames(s.ports) <==> ServesPort(s, port)
  {
    if ServesPort(s, port) {
      var p :| p in s.ports && PortName(p) == port;
      var i :| 0 <= i < |s.ports| && s.ports[i] == p;
      assert PortNames(s.ports)[i] == port;
    }
  }

  lemma CollectNothing<T, K>(xs: seq<T>, f: T -> set<K>)
    requires forall x :: x in xs ==> f(x) == {}
    ensures Collect(xs, f) == {}
  {
    CollectMember(xs, f);
  }

  lemma SliceListingStep(slices: seq<EndpointSlice>, index: PodIndex, i: nat, service: Key, port: string)
    requires i < |slices|
    ensures SliceListing(slices[..i + 1], index, service, port) ==
            if SliceService(slices[i]) != Some(service) then SliceListing(slices[..i], index, service, port)
            else Some(OrNone(SliceListing(slices[..i], index, service, port)) +
                      if ServesPort(slices[i], port) then SlicePods(slices[i], index) else {})
  {
    var f := SlicePortPods(service, port, index);
    var earlier, added := Collect(slices[..i], f), f(slices[i]);
    SliceServiceStep(slices, i, service);
    CollectStep(slices, f, i);
    assert Collect(slices[..i + 1], f) == earlier + added;
    if SliceService(slices[i]) != Some(service) {
      assert earlier + added == earlier;
    } else if !HasSlice(slices[..i], service) {
      CollectNothing(slices[..i], f);
    }
  }

  function OrNone(listed: Option<set<Key>>): set<Key> {
    if listed.Some? then listed.value else {}
  }

  lemma SubsetStep(subsets: seq<Subset>, namespace: string, port: string, pods: PodIndex, i: nat)
    requires i < |subsets|
    ensures Collect(subsets[..i + 1], SubsetPortPods(namespace, port, pods)) ==
            Collect(subsets[..i], SubsetPortPods(namespace, port, pods)) +
            if port in subsets[i].ports then Collect(SubsetAddresses(subsets[i]), LegacyAddressPods(namespace, pods)) else {}
  {
    CollectStep(subsets, SubsetPortPods(namespace, port, pods), i);
  }

  ghost predicate ListsSubsets(r: PortIndex, before: PortIndex, k: Key, subsets: seq<Subset>, pods: PodIndex) {
    forall p :: Listed(r, k, p) == Some(ListedOrNone(before, k, p) + Collect(subsets, SubsetPortPods(k.namespace, p, pods)))
  }

  ghost predicate SameElsewhere(r: PortIndex, before: PortIndex, k: Key) {
    forall other, p :: other != k ==> Listed(r, other, p) == Listed(before, other, p)
  }

  method AddSubset(index: PortIndex, service: Key, subset: Subset, pods: PodIndex) returns (r: PortIndex)
    ensures SameElsewhere(r, index, service)
    ensures forall p :: Listed(r, service, p) == Some(ListedOrNone(index, service, p) +
              if p in subset.ports then Collect(SubsetAddresses(subset), LegacyAddressPods(service.namespace, pods)) else {})
  {
    var seen := LegacyEndpointPods(SubsetAddresses(subset), service.namespace, pods);
    r := AddPortPods(index, service, subset.ports, seen.Keys);
  }

  /** Adds one legacy Endpoints object, subset by subset. */
  method AddLegacy(index: PortIndex, e: Endpoints, pods: PodIndex) returns (r: PortIndex)
    ensures SameElsewhere(r, index, e.key)
    ensures ListsSubsets(r, index, e.key, e.subsets, pods)
  {
    r := AddPortPods(index, e.key, [], {});
    for i := 0 to |e.subsets|
      invariant SameElsewhere(r, index, e.key)
      invariant ListsSubsets(r, index, e.key, e.subsets[..i], pods)
    {
      ghost var before := r;
      r := AddSubset(r, e.key, e.subsets[i], pods);
      forall p ensures Listed(r, e.key, p) ==
          Some(ListedOrNone(index, e.key, p) + Collect(e.subsets[..i + 1], SubsetPortPods(e.key.namespace, p, pods)))
      {
        SubsetStep(e.subsets, e.key.namespace, p, pods, i);
        var added := if p in e.subsets[i].ports
                     then Collect(SubsetAddresses(e.subsets[i]), LegacyAddressPods(e.key.namespace, pods)) else {};
        var base, earlier := ListedOrNone(index, e.key, p), Collect(e.subsets[..i], SubsetPortPods(e.key.namespace, p, pods));
        assert Listed(before, e.key, p) == Some(base + earlier);
        assert (base + earlier) + added == base + (earlier + added);
      }
    }
    WholePrefix(e.subsets);
  }

  /** endpointPodsByService: None exactly when a Service has no endpoint data,
      which is also when its statistics have no entry. */
  method EndpointPodsByService(slices: seq<EndpointSlice>, endpoints: seq<Endpoints>, pods: PodIndex) returns (r: PortIndex)
    ensures forall k, p :: Listed(r, k, p) == PortPods(slices, endpoints, pods, k, p)
  {
    var withSlices := ServicesWithEndpointSlices(slices);
    r := SlicePortIndex(slices, pods);
    for i := 0 to |endpoints|
      invariant forall k, p :: Listed(r, k, p) == PortPods(slices, endpoints[..i], pods, k, p)
    {
      var e := endpoints[i];
      ghost var before := r;
      if e.key !in withSlices {
        r := AddLegacy(r, e, pods);
      }
      forall k, p ensures Listed(r, k, p) == PortPods(slices, endpoints[..i + 1], pods, k, p) {
        PortPodsStep(slices, endpoints, pods, i, k, p);
      }
    }
    WholePrefix(endpoints);
  }

  lemma PortPodsStep(slices: seq<EndpointSlice>, endpoints: seq<Endpoints>, pods: PodIndex, i: nat, service: Key, port: string)
    requires i < |endpoints|
    ensures PortPods(slices, endpoints[..i + 1], pods, service, port) ==
            if HasSlice(slices, service) || endpoints[i].key != service then PortPods(slices, endpoints[..i], pods, service, port)
            else Some(OrNone(PortPods(slices, endpoints[..i], pods, service, port)) +
                      Collect(endpoints[i].subsets, SubsetPortPods(service.namespace, port, pods)))
  {
    var f := LegacyPortPods(service, port, pods);
    var earlier, added := Collect(endpoints[..i], f), f(endpoints[i]);
    LegacyStep(endpoints, i, service);
    CollectStep(endpoints, f, i);
    assert Collect(endpoints[..i + 1], f) == earlier + added;
    if endpoints[i].key != service {
      assert earlier + added == earlier;
    } else if !HasLegacy(endpoints[..i], service) {
      CollectNothing(endpoints[..i], f);
    }
  }

  /** countNonEndpointPods */
  method CountNonEndpointPods(selected: seq<Pod>, listed: Option<set<Key>>) returns (count: nat)
    ensures count == NonEndpointPods(selected, listed)
  {
    count := 0;
    if listed.None? {
      return;
    }
    for i := 0 to |selected|
      invariant count == |Filter(selected[..i], NotListed(listed.value))|
    {
      var pod := selected[i];
      FilterStep(selected, NotListed(listed.value), i);
      if pod.podIP == "" || pod.phase != Running || pod.deleting {
        continue;
      }
      if pod.key !in listed.value {
        count := count + 1;
      }
    }
    WholePrefix(selected);
  }
}
