/** The verdict on one Ingress route (builder_diagnostics.go) and what route
    overlaps change about it (builder_overlaps.go). Message, next-step and
    kubectl text is left out. */
module Diagnosis {
  import opened Collections
  import opened Kube
  import opened EndpointModel
  import opened Overlaps

  datatype Severity = Error | Warning | Info | Ok

  datatype Finding =
    | ResourceBackendUnresolved
    | ServiceMissing
    | PortMismatch
    | NoController
    | ExternalNameReference
    | SelectorMatchesNothing
    | NoReadyPods
    | NoUsableEndpoints
    | NoDataForSelectorless
    | PodsNotEndpoints(count: nat)
    | NoEndpointData
    | TerminatingEndpoints(count: nat)
    | BackendsReady(endpoints: nat)
    | CanaryWithoutPrimary
    | CanaryServiceShared(names: string)
    | SeveralCanaries(names: string)
    | LocationConflict(names: string, served: Option<Key>)
  {
    function Severity(): Severity {
      match this
      case ResourceBackendUnresolved => Error
      case ServiceMissing => Error
      case PortMismatch => Error
      case NoController => Warning
      case ExternalNameReference => Info
      case SelectorMatchesNothing => Error
      case NoReadyPods => Error
      case NoUsableEndpoints => Error
      case NoDataForSelectorless => Warning
      case PodsNotEndpoints(_) => Warning
      case NoEndpointData => Warning
      case TerminatingEndpoints(_) => Warning
      case BackendsReady(_) => Ok
      case CanaryWithoutPrimary => Warning
      case CanaryServiceShared(_) => Warning
      case SeveralCanaries(_) => Warning
      case LocationConflict(_, _) => Warning
    }

    predicate Healthy() { Severity().Ok? || Severity().Info? }
  }

  predicate HasBackendPort(service: Service, backend: PortRef) {
    exists p :: p in service.ports && PortMatches(p, backend)
  }

  predicate PodIsReady(pod: Pod) { pod.ready == Some(true) }

  function Max(a: nat, b: nat): nat { if a > b then a else b }

  /** diagnoseIngressRoute */
  function Diagnose(route: Route, hasController: bool, service: Option<Service>, pods: seq<Pod>,
                    stats: Stats, nonEndpointPods: nat): Finding
  {
    if route.resourceKind != "" then ResourceBackendUnresolved
    else if service.None? then ServiceMissing
    else
      var s := service.value;
      var portless := s.kind == ExternalName && s.ports == [];
      var ready := |Filter(pods, PodIsReady)|;
      if !portless && !HasBackendPort(s, route.servicePort) then PortMismatch
      else if !hasController then NoController
      else if s.kind == ExternalName && s.externalName != "" then ExternalNameReference
      else if s.selector != map[] && pods == [] then SelectorMatchesNothing
      else if pods != [] && ready == 0 then NoReadyPods
      else if stats.total > 0 && stats.usable == 0 then NoUsableEndpoints
      else if stats.total == 0 && s.selector == map[] then NoDataForSelectorless
      else if nonEndpointPods > 0 then PodsNotEndpoints(nonEndpointPods)
      else if stats.total == 0 && s.selector != map[] then NoEndpointData
      else if stats.terminating > 0 then TerminatingEndpoints(stats.terminating)
      else BackendsReady(Max(stats.usable, ready))
  }

  /** applyRouteOverlap: conflicts and canary findings replace a healthy verdict
      and never hide an error or a warning. */
  function ApplyOverlap(finding: Finding, overlap: Overlap): Finding {
    if !overlap.hasSelf || !finding.Healthy() then finding
    else if overlap.canary then
      if overlap.primaries == [] then CanaryWithoutPrimary
      else if overlap.sharedService != [] then CanaryServiceShared(NameList(overlap.sharedService))
      else if overlap.locationCanaries != [] then SeveralCanaries(NameList(overlap.locationCanaries))
      else finding
    else if overlap.primaries != [] then
      LocationConflict(NameList(overlap.primaries),
                       if overlap.oldest.Some? then Some(overlap.oldest.value.ingress.key) else None)
    else finding
  }
}
