/** Endpoints told by the fields of slices, Endpoints objects and Pods: which Pod an
    address stands for, and what the statistics count. */
module EndpointFields {
  import opened Collections
  import opened Kube
  import opened EndpointModel
  import opened EndpointCollection

  // ---- conditions ----

  predicate Ready(e: SliceEndpoint) { e.ready != Some(false) }

  predicate Serving(e: SliceEndpoint) {
    e.serving == Some(true) || (e.serving.None? && e.ready != Some(false))
  }

  predicate Terminating(e: SliceEndpoint) { e.terminating == Some(true) }

  predicate Usable(e: SliceEndpoint) {
    e.ready != Some(false) && e.serving != Some(false) && e.terminating != Some(true)
  }

  /** What missing conditions mean. */
  lemma ConditionsExactly(e: SliceEndpoint)
    ensures IsReady(e) == Ready(e) && IsServing(e) == Serving(e) && IsTerminating(e) == Terminating(e) && IsUsable(e) == Usable(e)
  {
  }

  // ---- which Pod an address stands for ----

  /** The reference names a Pod of that key, by default in the endpoint's own
      namespace. */
  predicate Refers(target: Option<TargetRef>, namespace: string, key: Key) {
    && target.Some? && target.value.kind == "Pod" && target.value.name != "" && key.name == target.value.name
    && key.namespace == if target.value.namespace == "" then namespace else target.value.namespace
  }

  predicate HasAddress(pod: Pod, namespace: string, address: string) {
    pod.podIP != "" && pod.podIP == address && pod.key.namespace == namespace
  }

  /** The last Pod of the list that the reference names. */
  ghost predicate LastNamed(pods: seq<Pod>, target: Option<TargetRef>, namespace: string, pod: Pod, j: nat) {
    && j < |pods| && pods[j] == pod && Refers(target, namespace, pod.key)
    && forall l :: j < l < |pods| ==> !Refers(target, namespace, pods[l].key)
  }

  /** The last Pod of the list that has the address. */
  ghost predicate LastAddressed(pods: seq<Pod>, namespace: string, address: string, pod: Pod, j: nat) {
    && j < |pods| && pods[j] == pod && HasAddress(pod, namespace, address)
    && forall l :: j < l < |pods| ==> !HasAddress(pods[l], namespace, address)
  }

  /** The endpoint address stands for the Pod its reference names, or, when that
      names no listed Pod, for the Pod that has the address. */
  ghost predicate StandsFor(pods: seq<Pod>, target: Option<TargetRef>, namespace: string, address: string, pod: Pod) {
    || (exists j: nat :: LastNamed(pods, target, namespace, pod, j))
    || ((forall q :: q in pods ==> !Refers(target, namespace, q.key))
        && exists j: nat :: LastAddressed(pods, namespace, address, pod, j))
  }

  lemma NamedExactly(pods: seq<Pod>, target: Option<TargetRef>, namespace: string, pod: Pod)
    ensures TargetPod(target, namespace, IndexPods(pods)) == Some(pod) <==>
            exists j: nat :: LastNamed(pods, target, namespace, pod, j)
  {
    var named := TargetKey(target, namespace);
    forall key ensures Refers(target, namespace, key) <==> named == Some(key) {
    }
    if named.Some? {
      IndexLast(pods, PodKey, named.value, pod);
      forall j: nat ensures LastAt(pods, PodKey, named.value, pod, j) <==> LastNamed(pods, target, namespace, pod, j) {
      }
    }
  }

  lemma AddressedExactly(pods: seq<Pod>, namespace: string, address: string, pod: Pod)
    ensures Lookup(IndexPods(pods).byIP, Key(namespace, address)) == Some(pod) <==>
            exists j: nat :: LastAddressed(pods, namespace, address, pod, j)
  {
    IndexLast(pods, PodAddress, Key(namespace, address), pod);
    forall j: nat
      ensures LastAt(pods, PodAddress, Key(namespace, address), pod, j) <==> LastAddressed(pods, namespace, address, pod, j)
    {
    }
  }

  lemma NoneNamed(pods: seq<Pod>, target: Option<TargetRef>, namespace: string)
    ensures TargetPod(target, namespace, IndexPods(pods)).None? <==> forall q :: q in pods ==> !Refers(target, namespace, q.key)
  {
    IndexMember(pods, PodKey);
    var named := TargetKey(target, namespace);
    if q :| q in pods && Refers(target, namespace, q.key) {
      assert PodKey(q) == named;
    }
  }

  /** Which Pod an address stands for. */
  lemma ResolvesExactly(pods: seq<Pod>, target: Option<TargetRef>, namespace: string, address: string, pod: Pod)
    ensures ResolvePod(target, namespace, address, IndexPods(pods)) == Some(pod) <==>
            StandsFor(pods, target, namespace, address, pod)
  {
    NamedExactly(pods, target, namespace, pod);
    AddressedExactly(pods, namespace, address, pod);
    NoneNamed(pods, target, namespace);
  }

  // ---- what a Service's endpoints are ----

  /** The slice is labelled with the Service. */
  predicate SliceBelongs(s: EndpointSlice, service: Key) {
    s.service != "" && s.service == service.name && s.namespace == service.namespace
  }

  lemma BelongsExactly(s: EndpointSlice, service: Key)
    ensures SliceService(s) == Some(service) <==> SliceBelongs(s, service)
  {
  }

  ghost predicate Sliced(slices: seq<EndpointSlice>, service: Key) {
    exists s :: s in slices && SliceBelongs(s, service)
  }

  /** The places in the slices of a Service whose endpoint passes. */
  ghost function EndpointPlaces(slices: seq<EndpointSlice>, service: Key, keep: SliceEndpoint -> bool): set<(int, int)> {
    Spread(slices, PlacesIn(service, keep))
  }

  ghost function PlacesIn(service: Key, keep: SliceEndpoint -> bool): EndpointSlice -> set<int> {
    (s: EndpointSlice) => if SliceBelongs(s, service) then Places(s.endpoints, keep) else {}
  }

  lemma {:induction false} ListedPlaces(slices: seq<EndpointSlice>, service: Key, keep: SliceEndpoint -> bool)
    ensures |Filter(ListedEndpoints(slices, service), keep)| == |EndpointPlaces(slices, service, keep)|
  {
    if slices == [] {
      assert EndpointPlaces(slices, service, keep) == {};
    } else {
      var s := slices[|slices| - 1];
      ListedPlaces(slices[..|slices| - 1], service, keep);
      BelongsExactly(s, service);
      ListedStep(slices, service, keep);
      FilterPlaces(s.endpoints, keep);
      SpreadStep(slices, PlacesIn(service, keep));
    }
  }

  lemma ListedStep(slices: seq<EndpointSlice>, service: Key, keep: SliceEndpoint -> bool)
    requires slices != []
    ensures
      var front, s := slices[..|slices| - 1], slices[|slices| - 1];
      |Filter(ListedEndpoints(slices, service), keep)| ==
        |Filter(ListedEndpoints(front, service), keep)| + if SliceService(s) == Some(service) then |Filter(s.endpoints, keep)| else 0
  {
    var front, s := slices[..|slices| - 1], slices[|slices| - 1];
    var kept := Filter(front, SliceOf(service));
    if SliceService(s) == Some(service) {
      assert (kept + [s])[..|kept|] == kept;
      CountConcat(ListedEndpoints(front, service), s.endpoints, keep);
    }
  }

  /** The places of the ready, or of the other, addresses in the Service's
      Endpoints. */
  ghost function AddressPlaces(endpoints: seq<Endpoints>, service: Key, ready: bool): set<(int, (int, int))> {
    Spread(endpoints, AddressesIn(service, ready))
  }

  ghost function AddressesIn(service: Key, ready: bool): Endpoints -> set<(int, int)> {
    (e: Endpoints) => if e.key == service then Spread(e.subsets, SideOf(ready)) else {}
  }

  ghost function SideOf(ready: bool): Subset -> set<int> {
    (s: Subset) => Places(if ready then s.addresses else s.notReady, AnyAddress)
  }

  predicate AnyAddress(a: EndpointAddress) { true }

  lemma {:induction false} SubsetPlaces(subsets: seq<Subset>)
    ensures SumStats(subsets, SubsetStats).usable == |Spread(subsets, SideOf(true))|
    ensures SumStats(subsets, SubsetStats).total == |Spread(subsets, SideOf(true))| + |Spread(subsets, SideOf(false))|
  {
    if subsets == [] {
      assert Spread(subsets, SideOf(true)) == {} && Spread(subsets, SideOf(false)) == {};
    } else {
      var s := subsets[|subsets| - 1];
      SubsetPlaces(subsets[..|subsets| - 1]);
      SpreadStep(subsets, SideOf(true));
      SpreadStep(subsets, SideOf(false));
      FilterPlaces(s.addresses, AnyAddress);
      FilterPlaces(s.notReady, AnyAddress);
      AllPass(s.addresses, AnyAddress);
      AllPass(s.notReady, AnyAddress);
    }
  }

  lemma {:induction false} LegacyPlaces(endpoints: seq<Endpoints>, service: Key)
    ensures
      var stats := SumStats(endpoints, LegacyStatsFor(service));
      && stats.usable == |AddressPlaces(endpoints, service, true)|
      && stats.total == |AddressPlaces(endpoints, service, true)| + |AddressPlaces(endpoints, service, false)|
  {
    if endpoints == [] {
      assert AddressPlaces(endpoints, service, true) == {} && AddressPlaces(endpoints, service, false) == {};
    } else {
      LegacyPlaces(endpoints[..|endpoints| - 1], service);
      SubsetPlaces(endpoints[|endpoints| - 1].subsets);
      SpreadStep(endpoints, AddressesIn(service, true));
      SpreadStep(endpoints, AddressesIn(service, false));
    }
  }

  predicate Any(e: SliceEndpoint) { true }

  /** What the statistics of a Service count: over its slices by their conditions,
      and only without slices the addresses of its Endpoints. */
  lemma StatsExactly(slices: seq<EndpointSlice>, endpoints: seq<Endpoints>, service: Key)
    ensures
      var stats := ServiceStats(slices, endpoints, service);
      if Sliced(slices, service) then
        && stats.total == |EndpointPlaces(slices, service, Any)|
        && stats.usable == |EndpointPlaces(slices, service, Usable)|
        && stats.ready == |EndpointPlaces(slices, service, Ready)|
        && stats.serving == |EndpointPlaces(slices, service, Serving)|
        && stats.terminating == |EndpointPlaces(slices, service, Terminating)|
      else
        && stats.total == |AddressPlaces(endpoints, service, true)| + |AddressPlaces(endpoints, service, false)|
        && stats.usable == |AddressPlaces(endpoints, service, true)|
        && stats.ready == stats.usable && stats.serving == stats.usable && stats.terminating == 0
  {
    StatsAreCounts(slices, endpoints, service);
    LegacyPlaces(endpoints, service);
    SlicedExactly(slices, service);
    if Sliced(slices, service) {
      SliceCounts(slices, service);
    }
  }

  lemma SlicedExactly(slices: seq<EndpointSlice>, service: Key)
    ensures HasSlice(slices, service) <==> Sliced(slices, service)
  {
    forall s ensures SliceService(s) == Some(service) <==> SliceBelongs(s, service) {
      BelongsExactly(s, service);
    }
  }

  lemma SliceCounts(slices: seq<EndpointSlice>, service: Key)
    ensures
      var counts := CountsOf(ListedEndpoints(slices, service));
      && counts.total == |EndpointPlaces(slices, service, Any)|
      && counts.usable == |EndpointPlaces(slices, service, Usable)|
      && counts.ready == |EndpointPlaces(slices, service, Ready)|
      && counts.serving == |EndpointPlaces(slices, service, Serving)|
      && counts.terminating == |EndpointPlaces(slices, service, Terminating)|
  {
    var listed := ListedEndpoints(slices, service);
    forall e | e in listed
      ensures IsReady(e) == Ready(e) && IsServing(e) == Serving(e) && IsTerminating(e) == Terminating(e) && IsUsable(e) == Usable(e)
    {
      ConditionsExactly(e);
    }
    FilterSame(listed, IsUsable, Usable);
    FilterSame(listed, IsReady, Ready);
    FilterSame(listed, IsServing, Serving);
    FilterSame(listed, IsTerminating, Terminating);
    AllPass(listed, Any);
    ListedPlaces(slices, service, Any);
    ListedPlaces(slices, service, Usable);
    ListedPlaces(slices, service, Ready);
    ListedPlaces(slices, service, Serving);
    ListedPlaces(slices, service, Terminating);
  }

  lemma {:induction false} AllPass<T>(xs: seq<T>, keep: T -> bool)
    requires forall x :: x in xs ==> keep(x)
    ensures Filter(xs, keep) == xs
  {
    if xs != [] {
      AllPass(xs[..|xs| - 1], keep);
    }
  }
}
