/** Graph node IDs. The source joins these parts with `:`; names contain none,
    so each constructor stands for one shape of ID text. */
module NodeIDs {
  import opened Kube

  datatype NodeKind =
    | DNSKind | GatewayKind | IngressKind | ControllerKind | LoadBalancerKind | NodePortKind | NodeKind
    | RouteKind | ServiceKind | EndpointKind | EndpointSliceKind | PodKind

  datatype NodeID =
    | DNSID(host: string)
    | GatewayID(gateway: Key)
    | IngressID(ingress: Key)
    | ClassControllerID(className: string)
    | GatewayClassControllerID(className: string)
    | StatusControllerID(service: Key)
    | ServiceLBID(service: Key)
    | IngressLBID(ingress: Key, address: string)
    | GatewayLBID(gateway: Key, address: string)
    | ExternalLBID(kind: ExternalKind, resource: Key)
    | NodePortID(service: Key, port: string)
    | MachineID(machine: string)
    | IngressRouteID(ingress: Key, route: nat)
    | GatewayRouteID(kind: ExternalKind, resource: Key)
    | ServiceID(service: Key)
    | SliceEndpointID(service: Key, slice: string, address: string)
    | LegacyEndpointID(service: Key, address: string)
    | ExternalNameID(service: Key)
    | PodID(pod: Key)
  {
    /** The kind that starts the ID text. */
    function Kind(): NodeKind {
      match this
      case DNSID(_) => DNSKind
      case GatewayID(_) => GatewayKind
      case IngressID(_) => IngressKind
      case ClassControllerID(_) => ControllerKind
      case GatewayClassControllerID(_) => ControllerKind
      case StatusControllerID(_) => ControllerKind
      case ServiceLBID(_) => LoadBalancerKind
      case IngressLBID(_, _) => LoadBalancerKind
      case GatewayLBID(_, _) => LoadBalancerKind
      case ExternalLBID(_, _) => LoadBalancerKind
      case NodePortID(_, _) => NodePortKind
      case MachineID(_) => NodeKind
      case IngressRouteID(_, _) => RouteKind
      case GatewayRouteID(_, _) => RouteKind
      case ServiceID(_) => ServiceKind
      case SliceEndpointID(_, _, _) => EndpointSliceKind
      case LegacyEndpointID(_, _) => EndpointKind
      case ExternalNameID(_) => EndpointKind
      case PodID(_) => PodKind
    }
  }
}
