/** The topologyBuilder of builder_nodes.go: two maps that `add` methods fill.
    Each method is the addition of one piece of the specified graph. */
module GraphBuilding {
  import opened Collections
  import opened Kube
  import opened NodeIDs
  import opened EndpointModel
  import opened Topology
  import opened Builder
  import ControllerModel
  import EndpointCollection
  import Text

  // ---- several additions in a row ----

  lemma Plus3(base: Graph, a: Graph, b: Graph, c: Graph)
    ensures base.Plus(a).Plus(b).Plus(c) == base.Plus(a.Plus(b).Plus(c))
  {
    PlusAssociative(base, a, b);
    PlusAssociative(base, a.Plus(b), c);
  }

  lemma Plus4(base: Graph, a: Graph, b: Graph, c: Graph, d: Graph)
    ensures base.Plus(a).Plus(b).Plus(c).Plus(d) == base.Plus(a.Plus(b).Plus(c).Plus(d))
  {
    Plus3(base, a, b, c);
    PlusAssociative(base, a.Plus(b).Plus(c), d);
  }

  lemma Plus5(base: Graph, a: Graph, b: Graph, c: Graph, d: Graph, e: Graph)
    ensures base.Plus(a).Plus(b).Plus(c).Plus(d).Plus(e) == base.Plus(a.Plus(b).Plus(c).Plus(d).Plus(e))
  {
    Plus4(base, a, b, c, d);
    PlusAssociative(base, a.Plus(b).Plus(c).Plus(d), e);
  }

  lemma FanEdges(source: NodeID, targets: set<NodeID>, kind: EdgeKind, text: string)
    ensures forall e :: e in Fan(source, targets, kind, text).edges <==>
              e.source == source && e.kind == kind && e.target in targets
    ensures forall e :: e in Fan(source, targets, kind, text).edges ==> Fan(source, targets, kind, text).edges[e] == text
  {
  }

  lemma FanStep(source: NodeID, targets: set<NodeID>, t: NodeID, kind: EdgeKind, text: string)
    ensures Fan(source, targets + {t}, kind, text) == Fan(source, targets, kind, text).Plus(OneEdge(source, t, kind, text))
  {
    FanEdges(source, targets + {t}, kind, text);
    FanEdges(source, targets, kind, text);
    var whole, part := Fan(source, targets + {t}, kind, text).edges, Fan(source, targets, kind, text).edges;
    assert whole == part[Edge(source, t, kind) := text];
    assert part[Edge(source, t, kind) := text] == part + map[Edge(source, t, kind) := text];
  }

  class TopologyBuilder {
    var nodesByID: map<NodeID, NodeInfo>
    var edgesByID: map<Edge, string>

    function Contents(): Graph
      reads this
    {
      Graph(nodesByID, edgesByID)
    }

    constructor ()
      ensures Contents() == EMPTY_GRAPH
    {
      nodesByID, edgesByID := map[], map[];
    }

    method AddNode(id: NodeID, info: NodeInfo)
      modifies this
      ensures Contents() == old(Contents()).Plus(OneNode(id, info))
    {
      nodesByID := nodesByID[id := info];
      assert nodesByID == old(nodesByID) + map[id := info];
      assert edgesByID == edgesByID + map[];
    }

    method AddEdge(source: NodeID, target: NodeID, kind: EdgeKind, text: string)
      modifies this
      ensures Contents() == old(Contents()).Plus(OneEdge(source, target, kind, text))
    {
      edgesByID := edgesByID[Edge(source, target, kind) := text];
      assert edgesByID == old(edgesByID) + map[Edge(source, target, kind) := text];
      assert nodesByID == nodesByID + map[];
    }

    method AddDNS(host: string, target: NodeID)
      modifies this
      ensures Contents() == old(Contents()).Plus(DNSPiece(target)(host))
    {
      PlusEmpty(Contents());
      if host == "" {
        return;
      }
      PlusAssociative(Contents(), OneNode(DNSID(host), DNSInfo(host)), OneEdge(DNSID(host), target, Resolves, "DNS"));
      AddNode(DNSID(host), DNSInfo(host));
      AddEdge(DNSID(host), target, Resolves, "DNS");
    }

    method AddHosts(hosts: seq<string>, target: NodeID)
      modifies this
      ensures Contents() == old(Contents()).Plus(Sum(hosts, DNSPiece(target)))
    {
      ghost var base := Contents();
      PlusEmpty(base);
      for i := 0 to |hosts|
        invariant Contents() == base.Plus(Sum(hosts[..i], DNSPiece(target)))
      {
        AddDNS(hosts[i], target);
        SumStep(base, hosts, DNSPiece(target), i);
      }
      WholePrefix(hosts);
    }

    /** Edges with one label from one node to each of several. */
    method AddFan(source: NodeID, targets: set<NodeID>, kind: EdgeKind, text: string)
      modifies this
      ensures Contents() == old(Contents()).Plus(Fan(source, targets, kind, text))
    {
      ghost var base := Contents();
      var left := targets;
      assert Fan(source, {}, kind, text) == EMPTY_GRAPH;
      PlusEmpty(base);
      assert targets - left == {};
      while left != {}
        invariant left <= targets
        invariant Contents() == base.Plus(Fan(source, targets - left, kind, text))
        decreases left
      {
        var t :| t in left;
        FanStep(source, targets - left, t, kind, text);
        PlusAssociative(base, Fan(source, targets - left, kind, text), OneEdge(source, t, kind, text));
        assert targets - (left - {t}) == targets - left + {t};
        left := left - {t};
        AddEdge(source, t, kind, text);
      }
      assert targets - left == targets;
    }

    method AddPod(pod: Pod, machines: set<string>, ghost c: Cluster)
      requires machines == MachineNames(c)
      modifies this
      ensures Contents() == old(Contents()).Plus(PodPiece(c)(pod))
    {
      ghost var base := Contents();
      AddNode(PodID(pod.key), PodInfo(pod));
      PlusEmpty(Contents());
      ghost var hosts := EMPTY_GRAPH;
      if pod.nodeName != "" && pod.nodeName in machines {
        hosts := OneEdge(MachineID(pod.nodeName), PodID(pod.key), Hosts, "Node");
        AddEdge(MachineID(pod.nodeName), PodID(pod.key), Hosts, "Node");
      }
      PlusAssociative(base, OneNode(PodID(pod.key), PodInfo(pod)), hosts);
    }

    method AddService(s: Service)
      modifies this
      ensures Contents() == old(Contents()).Plus(ServicePiece(s))
    {
      ghost var base := Contents();
      AddNode(ServiceID(s.key), ServiceInfo(s));
      PlusEmpty(Contents());
      ghost var rest := EMPTY_GRAPH;
      if s.kind == ExternalName && s.externalName != "" {
        var id := ExternalNameID(s.key);
        rest := OneNode(id, ExternalNameInfo(s)).Plus(OneEdge(ServiceID(s.key), id, ExternalNameEdge, "ExternalName"));
        PlusAssociative(Contents(), OneNode(id, ExternalNameInfo(s)), OneEdge(ServiceID(s.key), id, ExternalNameEdge, "ExternalName"));
        AddNode(id, ExternalNameInfo(s));
        AddEdge(ServiceID(s.key), id, ExternalNameEdge, "ExternalName");
      }
      PlusAssociative(base, OneNode(ServiceID(s.key), ServiceInfo(s)), rest);
    }

    // ---- exposure ----

    method AddPort(s: Service, port: ServicePort, target: NodeID, ghost c: Cluster)
      requires target == ExposureTarget(c, s)
      modifies this
      ensures Contents() == old(Contents()).Plus(PortPiece(c, s)(port))
    {
      ghost var base := Contents();
      PlusEmpty(base);
      if port.nodePort == 0 {
        return;
      }
      var id := NodePortID(s.key, port.NameForID());
      AddNode(id, NodePortInfo(s, port));
      PlusEmpty(Contents());
      ghost var exposes := EMPTY_GRAPH;
      if s.kind == LoadBalancer {
        exposes := OneEdge(ServiceLBID(s.key), id, Exposes, "LoadBalancer");
        AddEdge(ServiceLBID(s.key), id, Exposes, "LoadBalancer");
      }
      AddEdge(id, target, Forwards, "NodePort");
      Plus3(base, OneNode(id, NodePortInfo(s, port)), exposes, OneEdge(id, target, Forwards, "NodePort"));
    }

    method AddPorts(s: Service, target: NodeID, ghost c: Cluster) returns (hasNodePort: bool)
      requires target == ExposureTarget(c, s)
      modifies this
      ensures Contents() == old(Contents()).Plus(Sum(s.ports, PortPiece(c, s)))
      ensures hasNodePort == HasNodePort(s)
    {
      ghost var base := Contents();
      PlusEmpty(base);
      hasNodePort := false;
      for i := 0 to |s.ports|
        invariant Contents() == base.Plus(Sum(s.ports[..i], PortPiece(c, s)))
        invariant hasNodePort <==> exists p :: p in s.ports[..i] && p.nodePort != 0
      {
        Extend(s.ports, i);
        AddPort(s, s.ports[i], target, c);
        SumStep(base, s.ports, PortPiece(c, s), i);
        hasNodePort := hasNodePort || s.ports[i].nodePort != 0;
      }
      WholePrefix(s.ports);
    }

    method AddExposure(s: Service, target: NodeID, ghost c: Cluster)
      requires target == ExposureTarget(c, s)
      modifies this
      ensures Contents() == old(Contents()).Plus(ExposurePiece(c)(s))
    {
      ghost var base := Contents();
      PlusEmpty(base);
      if s.kind == LoadBalancer {
        AddNode(ServiceLBID(s.key), ServiceLBInfo(s));
        var hasNodePort := AddPorts(s, target, c);
        PlusEmpty(Contents());
        ghost var balances := EMPTY_GRAPH;
        if !hasNodePort {
          balances := OneEdge(ServiceLBID(s.key), target, Balances, "LoadBalancer");
          AddEdge(ServiceLBID(s.key), target, Balances, "LoadBalancer");
        }
        Plus3(base, OneNode(ServiceLBID(s.key), ServiceLBInfo(s)), Sum(s.ports, PortPiece(c, s)), balances);
      } else if s.kind == NodePort {
        var _ := AddPorts(s, target, c);
      }
    }

    // ---- endpoints without a Pod ----

    method AddExternalEndpoint(slice: EndpointSlice, service: Key, e: SliceEndpoint, address: string)
      modifies this
      ensures Contents() == old(Contents()).Plus(
                if address == "" then EMPTY_GRAPH
                else OneNode(SliceEndpointID(service, slice.name, Text.SafeID(address)), SliceEndpointInfo(slice, e, address)))
    {
      PlusEmpty(Contents());
      if address != "" {
        AddNode(SliceEndpointID(service, slice.name, Text.SafeID(address)), SliceEndpointInfo(slice, e, address));
      }
    }

    method AddLegacyEndpoint(e: Endpoints, a: LegacyAddress)
      modifies this
      ensures Contents() == old(Contents()).Plus(
                if a.address.ip == "" then EMPTY_GRAPH
                else OneNode(LegacyEndpointID(e.key, Text.SafeID(a.address.ip)), LegacyEndpointInfo(e.key, a.address, a.ready)))
    {
      PlusEmpty(Contents());
      if a.address.ip != "" {
        AddNode(LegacyEndpointID(e.key, Text.SafeID(a.address.ip)), LegacyEndpointInfo(e.key, a.address, a.ready));
      }
    }

    method AddSliceAddress(slice: EndpointSlice, e: SliceEndpoint, service: Key, address: string, index: PodIndex, ghost c: Cluster)
      requires index == IndexPods(c.pods)
      modifies this
      ensures Contents() == old(Contents()).Plus(SliceAddressPiece(c, slice, e, service)(address))
    {
      ghost var base := Contents();
      PlusEmpty(base);
      var known := EndpointCollection.ReferencesPod(e.target, slice.namespace, address, index);
      if known {
        return;
      }
      var id := SliceEndpointID(service, slice.name, Text.SafeID(address));
      AddExternalEndpoint(slice, service, e, address);
      AddEdge(ServiceID(service), id, SliceEdge, "EndpointSlice");
      PlusAssociative(base, if address == "" then EMPTY_GRAPH else OneNode(id, SliceEndpointInfo(slice, e, address)),
                      OneEdge(ServiceID(service), id, SliceEdge, "EndpointSlice"));
    }

    method AddLegacyAddress(e: Endpoints, a: LegacyAddress, index: PodIndex, ghost c: Cluster)
      requires index == IndexPods(c.pods)
      modifies this
      ensures Contents() == old(Contents()).Plus(LegacyAddressPiece(c, e)(a))
    {
      ghost var base := Contents();
      PlusEmpty(base);
      var known := EndpointCollection.ReferencesPod(a.address.target, e.key.namespace, a.address.ip, index);
      if known {
        return;
      }
      var id := LegacyEndpointID(e.key, Text.SafeID(a.address.ip));
      AddLegacyEndpoint(e, a);
      AddEdge(ServiceID(e.key), id, EndpointEdge, "Endpoints");
      PlusAssociative(base, if a.address.ip == "" then EMPTY_GRAPH else OneNode(id, LegacyEndpointInfo(e.key, a.address, a.ready)),
                      OneEdge(ServiceID(e.key), id, EndpointEdge, "Endpoints"));
    }
  }
}
