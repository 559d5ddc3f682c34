/** Endpoint statistics, and which Pods a Service's endpoints stand for, as
    builder_endpoints.go computes them from EndpointSlices and legacy Endpoints. */
module EndpointModel {
  import opened Collections
  import opened Kube

  datatype Stats = Stats(total: nat, usable: nat, ready: nat, serving: nat, terminating: nat)
  {
    function Plus(o: Stats): Stats {
      Stats(total + o.total, usable + o.usable, ready + o.ready, serving + o.serving, terminating + o.terminating)
    }
  }

  const NO_STATS := Stats(0, 0, 0, 0, 0)

  function SumStats<T>(xs: seq<T>, f: T -> Stats): Stats {
    if xs == [] then NO_STATS else SumStats(xs[..|xs| - 1], f).Plus(f(xs[|xs| - 1]))
  }

  function ConditionValue(value: Option<bool>, fallback: bool): bool {
    match value
    case Some(b) => b
    case None => fallback
  }

  predicate IsReady(e: SliceEndpoint) { ConditionValue(e.ready, true) }
  predicate IsServing(e: SliceEndpoint) { ConditionValue(e.serving, IsReady(e)) }
  predicate IsTerminating(e: SliceEndpoint) { ConditionValue(e.terminating, false) }
  predicate IsUsable(e: SliceEndpoint) { IsReady(e) && IsServing(e) && !IsTerminating(e) }

  function One(b: bool): nat { if b then 1 else 0 }

  function EndpointStats(e: SliceEndpoint): Stats {
    Stats(1, One(IsUsable(e)), One(IsReady(e)), One(IsServing(e)), One(IsTerminating(e)))
  }

  function SliceStats(s: EndpointSlice): Stats { SumStats(s.endpoints, EndpointStats) }

  function SubsetStats(s: Subset): Stats {
    Stats(|s.addresses| + |s.notReady|, |s.addresses|, |s.addresses|, |s.addresses|, 0)
  }

  function LegacyStats(e: Endpoints): Stats { SumStats(e.subsets, SubsetStats) }

  /** The Service a slice belongs to, if it is labelled with one. */
  function SliceService(s: EndpointSlice): Option<Key> {
    if s.service == "" then None else Some(Key(s.namespace, s.service))
  }

  predicate HasSlice(slices: seq<EndpointSlice>, service: Key) {
    exists s :: s in slices && SliceService(s) == Some(service)
  }

  predicate HasLegacy(endpoints: seq<Endpoints>, service: Key) {
    exists e :: e in endpoints && e.key == service
  }

  function StatsFor(service: Key): EndpointSlice -> Stats {
    (s: EndpointSlice) => if SliceService(s) == Some(service) then SliceStats(s) else NO_STATS
  }

  function LegacyStatsFor(service: Key): Endpoints -> Stats {
    (e: Endpoints) => if e.key == service then LegacyStats(e) else NO_STATS
  }

  /** A Service's totals: over its slices, or over its legacy Endpoints only
      when it has no slice. */
  function ServiceStats(slices: seq<EndpointSlice>, endpoints: seq<Endpoints>, service: Key): Stats {
    if HasSlice(slices, service) then SumStats(slices, StatsFor(service))
    else SumStats(endpoints, LegacyStatsFor(service))
  }

  // ---- resolving endpoints to Pods ----

  datatype PodIndex = PodIndex(byName: map<Key, Pod>, byIP: map<Key, Pod>)

  function IndexPods(pods: seq<Pod>): PodIndex {
    PodIndex(IndexBy(pods, PodKey), IndexBy(pods, PodAddress))
  }

  /** The Pod named by a target reference, in the given namespace when the
      reference has none. */
  function TargetKey(target: Option<TargetRef>, namespace: string): Option<Key> {
    match target
    case None => None
    case Some(t) =>
      if t.kind == "Pod" && t.name != ""
      then Some(Key(if t.namespace == "" then namespace else t.namespace, t.name))
      else None
  }

  function TargetPod(target: Option<TargetRef>, namespace: string, index: PodIndex): Option<Pod> {
    match TargetKey(target, namespace)
    case None => None
    case Some(k) => Lookup(index.byName, k)
  }

  /** The reference wins; the address is looked up only when it names no known
      Pod. */
  function ResolvePod(target: Option<TargetRef>, namespace: string, address: string, index: PodIndex): Option<Pod> {
    match TargetPod(target, namespace, index)
    case Some(pod) => Some(pod)
    case None => Lookup(index.byIP, Key(namespace, address))
  }

  function PodSet(pod: Option<Pod>): set<Key> {
    match pod
    case Some(p) => {p.key}
    case None => {}
  }

  function AddressPods(e: SliceEndpoint, namespace: string, index: PodIndex): string -> set<Key> {
    (address: string) => PodSet(ResolvePod(e.target, namespace, address, index))
  }

  function EndpointPods(namespace: string, index: PodIndex): SliceEndpoint -> set<Key> {
    (e: SliceEndpoint) => Collect(e.addresses, AddressPods(e, namespace, index))
  }

  function SlicePods(s: EndpointSlice, index: PodIndex): set<Key> {
    Collect(s.endpoints, EndpointPods(s.namespace, index))
  }

  datatype LegacyAddress = LegacyAddress(address: EndpointAddress, ready: bool)

  function Marked(addresses: seq<EndpointAddress>, ready: bool): seq<LegacyAddress> {
    seq(|addresses|, i requires 0 <= i < |addresses| => LegacyAddress(addresses[i], ready))
  }

  function SubsetAddresses(s: Subset): seq<LegacyAddress> {
    Marked(s.addresses, true) + Marked(s.notReady, false)
  }

  function LegacyAddresses(e: Endpoints): seq<LegacyAddress> {
    FlatMap(e.subsets, SubsetAddresses)
  }

  function LegacyAddressPods(namespace: string, index: PodIndex): LegacyAddress -> set<Key> {
    (a: LegacyAddress) => PodSet(ResolvePod(a.address.target, namespace, a.address.ip, index))
  }

  function LegacyPods(e: Endpoints, index: PodIndex): set<Key> {
    Collect(LegacyAddresses(e), LegacyAddressPods(e.key.namespace, index))
  }

  // ---- endpoint Pods per Service port ----

  function PortName(name: Option<string>): string {
    match name
    case Some(n) => n
    case None => ""
  }

  predicate ServesPort(s: EndpointSlice, port: string) {
    exists p :: p in s.ports && PortName(p) == port
  }

  function SlicePortPods(service: Key, port: string, index: PodIndex): EndpointSlice -> set<Key> {
    (s: EndpointSlice) =>
      if SliceService(s) == Some(service) && ServesPort(s, port) then SlicePods(s, index) else {}
  }

  function SubsetPortPods(namespace: string, port: string, index: PodIndex): Subset -> set<Key> {
    (s: Subset) =>
      if port in s.ports then Collect(SubsetAddresses(s), LegacyAddressPods(namespace, index)) else {}
  }

  function LegacyPortPods(service: Key, port: string, index: PodIndex): Endpoints -> set<Key> {
    (e: Endpoints) =>
      if e.key == service then Collect(e.subsets, SubsetPortPods(service.namespace, port, index)) else {}
  }

  /** The Pods listed for one Service port; None when the Service has no
      endpoint data at all. */
  function PortPods(slices: seq<EndpointSlice>, endpoints: seq<Endpoints>, index: PodIndex, service: Key, port: string):
      Option<set<Key>>
  {
    if HasSlice(slices, service) then Some(Collect(slices, SlicePortPods(service, port, index)))
    else if HasLegacy(endpoints, service) then Some(Collect(endpoints, LegacyPortPods(service, port, index)))
    else None
  }

  predicate ExpectsTraffic(pod: Pod) {
    pod.podIP != "" && pod.phase == Running && !pod.deleting
  }

  function NotListed(members: set<Key>): Pod -> bool {
    (pod: Pod) => ExpectsTraffic(pod) && pod.key !in members
  }

  /** Running Pods a Service selects that are not endpoints for the port. */
  function NonEndpointPods(selected: seq<Pod>, listed: Option<set<Key>>): nat {
    match listed
    case None => 0
    case Some(members) => |Filter(selected, NotListed(members))|
  }

  predicate PortMatches(port: ServicePort, backend: PortRef) {
    (backend.name != "" && port.name == backend.name) || (backend.number != 0 && port.port == backend.number)
  }

  function PortNameIn(ports: seq<ServicePort>, backend: PortRef): Option<string> {
    if ports == [] then None
    else if PortMatches(ports[0], backend) then Some(ports[0].name)
    else PortNameIn(ports[1..], backend)
  }

  lemma PlusNoStats(a: Stats)
    ensures a.Plus(NO_STATS) == a
  {
  }

  /** Objects without statistics can be dropped from a total. */
  lemma {:induction false} SumStatsKept<T>(xs: seq<T>, f: T -> Stats, keep: T -> bool)
    requires forall x :: x in xs && !keep(x) ==> f(x) == NO_STATS
    ensures SumStats(Filter(xs, keep), f) == SumStats(xs, f)
  {
    if xs != [] {
      var front, x := xs[..|xs| - 1], xs[|xs| - 1];
      var kept := Filter(front, keep);
      SumStatsKept(front, f, keep);
      if keep(x) {
        assert (kept + [x])[..|kept|] == kept;
        assert SumStats(kept + [x], f) == SumStats(kept, f).Plus(f(x));
      } else {
        PlusNoStats(SumStats(front, f));
        assert Filter(xs, keep) == kept;
      }
    }
  }
}
