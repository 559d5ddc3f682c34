/** scopeTrafficInputs (topology_inputs.go): the part of the cluster a build
    needs, and the proof that building from it changes nothing that scoping
    keeps. */
module Pruning {
  import opened Collections
  import opened Kube
  import opened NodeIDs
  import opened EndpointModel
  import opened ControllerModel
  import opened Overlaps
  import opened Topology
  import opened Builder

  // ---- the Services that carry traffic ----

  function RouteServiceKey(i: Ingress): Route -> set<Key> {
    (r: Route) => if r.serviceName != "" then {Key(i.key.namespace, r.serviceName)} else {}
  }

  function IngressRefs(i: Ingress): set<Key> { Collect(IngressRoutes(i), RouteServiceKey(i)) }

  function BackendRefKey(r: ExternalResource): BackendRef -> set<Key> {
    (b: BackendRef) => if IsServiceBackend(b) then {BackendKey(b, r)} else {}
  }

  function SelectedKey(r: ExternalResource): Service -> set<Key> {
    (s: Service) => if ResourceSelects(r, s) then {s.key} else {}
  }

  function ResourceRefs(services: seq<Service>): ExternalResource -> set<Key> {
    (r: ExternalResource) => Collect(r.backends, BackendRefKey(r)) + Collect(services, SelectedKey(r))
  }

  function ExposedKey(s: Service): set<Key> { if s.Exposed() then {s.key} else {} }

  function ServiceKeys(c: Cluster): set<Key> {
    Collect(c.ingresses, IngressRefs) + Collect(c.external, ResourceRefs(c.services)) + Collect(c.services, ExposedKey)
  }

  function KeepService(keys: set<Key>): Service -> bool { (s: Service) => s.key in keys }

  function KeepSlice(keys: set<Key>): EndpointSlice -> bool {
    (s: EndpointSlice) => SliceService(s).Some? && SliceService(s).value in keys
  }

  function KeepEndpoints(keys: set<Key>): Endpoints -> bool { (e: Endpoints) => e.key in keys }

  // ---- the Pods and machines behind them ----

  function TargetSet(target: Option<TargetRef>, namespace: string): set<Key> {
    match TargetKey(target, namespace)
    case Some(k) => {k}
    case None => {}
  }

  function EndpointTargets(namespace: string): SliceEndpoint -> set<Key> {
    (e: SliceEndpoint) => TargetSet(e.target, namespace)
  }

  function SliceTargets(s: EndpointSlice): set<Key> { Collect(s.endpoints, EndpointTargets(s.namespace)) }

  function AddressKey(namespace: string): string -> set<Key> { (a: string) => {Key(namespace, a)} }

  function EndpointAddressKeys(namespace: string): SliceEndpoint -> set<Key> {
    (e: SliceEndpoint) => Collect(e.addresses, AddressKey(namespace))
  }

  function SliceAddresses(s: EndpointSlice): set<Key> { Collect(s.endpoints, EndpointAddressKeys(s.namespace)) }

  function LegacyTarget(namespace: string): LegacyAddress -> set<Key> {
    (a: LegacyAddress) => TargetSet(a.address.target, namespace)
  }

  function LegacyTargets(e: Endpoints): set<Key> { Collect(LegacyAddresses(e), LegacyTarget(e.key.namespace)) }

  function LegacyAddressKey(namespace: string): LegacyAddress -> set<Key> {
    (a: LegacyAddress) => if a.address.ip != "" then {Key(namespace, a.address.ip)} else {}
  }

  function LegacyAddressKeys(e: Endpoints): set<Key> { Collect(LegacyAddresses(e), LegacyAddressKey(e.key.namespace)) }

  /** What the kept endpoint objects refer to, and the kept Services. */
  datatype Refs = Refs(services: seq<Service>, pods: set<Key>, addresses: set<Key>)

  function ScopedRefs(c: Cluster, keys: set<Key>): Refs {
    var slices, endpoints := Filter(c.slices, KeepSlice(keys)), Filter(c.endpoints, KeepEndpoints(keys));
    Refs(Filter(c.services, KeepService(keys)),
         Collect(slices, SliceTargets) + Collect(endpoints, LegacyTargets),
         Collect(slices, SliceAddresses) + Collect(endpoints, LegacyAddressKeys))
  }

  /** podBelongsToTrafficService */
  predicate BelongsToService(pod: Pod, services: seq<Service>) {
    exists s :: s in services && s.key.namespace == pod.key.namespace && s.selector != map[] &&
                SelectorMatches(pod.labels, s.selector)
  }

  function KeepPod(refs: Refs): Pod -> bool {
    (pod: Pod) =>
      || BelongsToService(pod, refs.services)
      || pod.key in refs.pods
      || (pod.podIP != "" && Key(pod.key.namespace, pod.podIP) in refs.addresses)
  }

  function PodMachine(pod: Pod): set<string> { if pod.nodeName != "" then {pod.nodeName} else {} }

  function KeepMachine(names: set<string>): Machine -> bool { (m: Machine) => m.name in names }

  /** The scoped inputs. */
  function Prune(c: Cluster): Cluster {
    var keys := ServiceKeys(c);
    var refs := ScopedRefs(c, keys);
    var pods := Filter(c.pods, KeepPod(refs));
    c.(services := refs.services,
       pods := pods,
       machines := Filter(c.machines, KeepMachine(Collect(pods, PodMachine))),
       endpoints := Filter(c.endpoints, KeepEndpoints(keys)),
       slices := Filter(c.slices, KeepSlice(keys)))
  }

  // ---- the part of a graph that pruning keeps ----

  datatype Kept = Kept(services: set<Key>, pods: set<Key>, machines: set<string>)
  {
    predicate Keeps(id: NodeID) {
      match id
      case ServiceID(k) => k in services
      case SliceEndpointID(k, _, _) => k in services
      case LegacyEndpointID(k, _) => k in services
      case ExternalNameID(k) => k in services
      case PodID(k) => k in pods
      case MachineID(name) => name in machines
      case _ => true
    }

    predicate KeepsEdge(e: Edge) { Keeps(e.source) && Keeps(e.target) }

    function Restrict(g: Graph): Graph {
      Graph(map id | id in g.nodes && Keeps(id) :: g.nodes[id],
            map e | e in g.edges && KeepsEdge(e) :: g.edges[e])
    }

    ghost predicate Within(g: Graph) {
      && (forall id :: id in g.nodes ==> Keeps(id))
      && (forall e :: e in g.edges ==> KeepsEdge(e))
    }

    ghost predicate Outside(g: Graph) {
      && (forall id :: id in g.nodes ==> !Keeps(id))
      && (forall e :: e in g.edges ==> !KeepsEdge(e))
    }
  }

  function KeptBy(c: Cluster): Kept {
    var pods := Prune(c).pods;
    Kept(ServiceKeys(c), PodKeys(pods), Collect(pods, PodMachine))
  }

  /** What Kubernetes guarantees of the listed objects: Pod names are unique
      within a namespace, and no Service has an empty name. */
  ghost predicate WellFormed(c: Cluster) {
    && (forall p, q :: p in c.pods && q in c.pods && p.key == q.key ==> p == q)
    && (forall s :: s in c.services ==> s.key.name != "")
  }

  lemma RestrictPlusNodes(kept: Kept, a: Graph, b: Graph)
    ensures kept.Restrict(a.Plus(b)).nodes == kept.Restrict(a).nodes + kept.Restrict(b).nodes
  {
  }

  lemma RestrictPlusEdges(kept: Kept, a: Graph, b: Graph)
    ensures kept.Restrict(a.Plus(b)).edges == kept.Restrict(a).edges + kept.Restrict(b).edges
  {
  }

  lemma RestrictPlus(kept: Kept, a: Graph, b: Graph)
    ensures kept.Restrict(a.Plus(b)) == kept.Restrict(a).Plus(kept.Restrict(b))
  {
    RestrictPlusNodes(kept, a, b);
    RestrictPlusEdges(kept, a, b);
  }

  lemma {:induction false} RestrictSum<T>(kept: Kept, xs: seq<T>, keep: T -> bool, full: T -> Graph, pruned: T -> Graph)
    requires forall x :: x in xs ==> kept.Restrict(full(x)) == if keep(x) then pruned(x) else EMPTY_GRAPH
    ensures kept.Restrict(Sum(xs, full)) == Sum(Filter(xs, keep), pruned)
  {
    if xs != [] {
      var front, x := xs[..|xs| - 1], xs[|xs| - 1];
      RestrictSum(kept, front, keep, full, pruned);
      RestrictPlus(kept, Sum(front, full), full(x));
      if keep(x) {
        assert (Filter(front, keep) + [x])[..|Filter(front, keep)|] == Filter(front, keep);
      } else {
        PlusEmpty(Sum(Filter(front, keep), pruned));
      }
    }
  }

  lemma {:induction false} RestrictAll<T>(kept: Kept, xs: seq<T>, full: T -> Graph, pruned: T -> Graph)
    requires forall x :: x in xs ==> kept.Restrict(full(x)) == pruned(x)
    ensures kept.Restrict(Sum(xs, full)) == Sum(xs, pruned)
  {
    if xs != [] {
      RestrictAll(kept, xs[..|xs| - 1], full, pruned);
      RestrictPlus(kept, Sum(xs[..|xs| - 1], full), full(xs[|xs| - 1]));
    }
  }
}
