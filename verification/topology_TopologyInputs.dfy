/** scopeTrafficInputs as the source runs it: loops that fill key sets and
    append the kept objects. */
module TopologyInputs {
  import opened Collections
  import opened Kube
  import opened EndpointModel
  import opened Builder
  import opened Pruning

  method IngressServiceKeys(ingresses: seq<Ingress>) returns (keys: set<Key>)
    ensures keys == Collect(ingresses, IngressRefs)
  {
    keys := {};
    for i := 0 to |ingresses|
      invariant keys == Collect(ingresses[..i], IngressRefs)
    {
      var ingress := ingresses[i];
      var routes := IngressRoutes(ingress);
      ghost var before := keys;
      for j := 0 to |routes|
        invariant keys == before + Collect(routes[..j], RouteServiceKey(ingress))
      {
        CollectStep(routes, RouteServiceKey(ingress), j);
        if routes[j].serviceName != "" {
          keys := keys + {Key(ingress.key.namespace, routes[j].serviceName)};
        }
      }
      WholePrefix(routes);
      CollectStep(ingresses, IngressRefs, i);
    }
    WholePrefix(ingresses);
  }

  method ResourceServiceKeys(r: ExternalResource, services: seq<Service>) returns (keys: set<Key>)
    ensures keys == ResourceRefs(services)(r)
  {
    keys := {};
    for i := 0 to |r.backends|
      invariant keys == Collect(r.backends[..i], BackendRefKey(r))
    {
      CollectStep(r.backends, BackendRefKey(r), i);
      if IsServiceBackend(r.backends[i]) {
        keys := keys + {BackendKey(r.backends[i], r)};
      }
    }
    WholePrefix(r.backends);
    for i := 0 to |services|
      invariant keys == Collect(r.backends, BackendRefKey(r)) + Collect(services[..i], SelectedKey(r))
    {
      CollectStep(services, SelectedKey(r), i);
      if ResourceSelects(r, services[i]) {
        keys := keys + {services[i].key};
      }
    }
    WholePrefix(services);
  }

  method TrafficServiceKeys(c: Cluster) returns (keys: set<Key>)
    ensures keys == ServiceKeys(c)
  {
    var ingressKeys := IngressServiceKeys(c.ingresses);
    keys := ingressKeys;
    for i := 0 to |c.external|
      invariant keys == ingressKeys + Collect(c.external[..i], ResourceRefs(c.services))
    {
      CollectStep(c.external, ResourceRefs(c.services), i);
      var more := ResourceServiceKeys(c.external[i], c.services);
      keys := keys + more;
    }
    WholePrefix(c.external);
    ghost var referenced := keys;
    for i := 0 to |c.services|
      invariant keys == referenced + Collect(c.services[..i], ExposedKey)
    {
      CollectStep(c.services, ExposedKey, i);
      if c.services[i].Exposed() {
        keys := keys + {c.services[i].key};
      }
    }
    WholePrefix(c.services);
  }

  method SliceReferences(s: EndpointSlice) returns (pods: set<Key>, addresses: set<Key>)
    ensures pods == SliceTargets(s) && addresses == SliceAddresses(s)
  {
    pods, addresses := {}, {};
    for i := 0 to |s.endpoints|
      invariant pods == Collect(s.endpoints[..i], EndpointTargets(s.namespace))
      invariant addresses == Collect(s.endpoints[..i], EndpointAddressKeys(s.namespace))
    {
      var e := s.endpoints[i];
      CollectStep(s.endpoints, EndpointTargets(s.namespace), i);
      CollectStep(s.endpoints, EndpointAddressKeys(s.namespace), i);
      if TargetKey(e.target, s.namespace).Some? {
        pods := pods + {TargetKey(e.target, s.namespace).value};
      }
      ghost var before := addresses;
      for j := 0 to |e.addresses|
        invariant addresses == before + Collect(e.addresses[..j], AddressKey(s.namespace))
      {
        CollectStep(e.addresses, AddressKey(s.namespace), j);
        addresses := addresses + {Key(s.namespace, e.addresses[j])};
      }
      WholePrefix(e.addresses);
    }
    WholePrefix(s.endpoints);
  }

  method LegacyReferences(e: Endpoints) returns (pods: set<Key>, addresses: set<Key>)
    ensures pods == LegacyTargets(e) && addresses == LegacyAddressKeys(e)
  {
    pods, addresses := {}, {};
    var listed := LegacyAddresses(e);
    for i := 0 to |listed|
      invariant pods == Collect(listed[..i], LegacyTarget(e.key.namespace))
      invariant addresses == Collect(listed[..i], LegacyAddressKey(e.key.namespace))
    {
      var a := listed[i].address;
      CollectStep(listed, LegacyTarget(e.key.namespace), i);
      CollectStep(listed, LegacyAddressKey(e.key.namespace), i);
      if TargetKey(a.target, e.key.namespace).Some? {
        pods := pods + {TargetKey(a.target, e.key.namespace).value};
      }
      if a.ip != "" {
        addresses := addresses + {Key(e.key.namespace, a.ip)};
      }
    }
    WholePrefix(listed);
  }

  method KeptServices(services: seq<Service>, keys: set<Key>) returns (kept: seq<Service>)
    ensures kept == Filter(services, KeepService(keys))
  {
    kept := [];
    for i := 0 to |services|
      invariant kept == Filter(services[..i], KeepService(keys))
    {
      FilterStep(services, KeepService(keys), i);
      if services[i].key in keys {
        kept := kept + [services[i]];
      }
    }
    WholePrefix(services);
  }

  method KeptSlices(slices: seq<EndpointSlice>, keys: set<Key>)
    returns (kept: seq<EndpointSlice>, pods: set<Key>, addresses: set<Key>)
    ensures kept == Filter(slices, KeepSlice(keys))
    ensures pods == Collect(kept, SliceTargets) && addresses == Collect(kept, SliceAddresses)
  {
    kept, pods, addresses := [], {}, {};
    for i := 0 to |slices|
      invariant kept == Filter(slices[..i], KeepSlice(keys))
      invariant pods == Collect(kept, SliceTargets) && addresses == Collect(kept, SliceAddresses)
    {
      FilterStep(slices, KeepSlice(keys), i);
      var s := slices[i];
      if KeepSlice(keys)(s) {
        CollectAppend(kept, SliceTargets, s);
        CollectAppend(kept, SliceAddresses, s);
        kept := kept + [s];
        var morePods, moreAddresses := SliceReferences(s);
        pods, addresses := pods + morePods, addresses + moreAddresses;
      }
    }
    WholePrefix(slices);
  }

  method KeptLegacy(endpoints: seq<Endpoints>, keys: set<Key>)
    returns (kept: seq<Endpoints>, pods: set<Key>, addresses: set<Key>)
    ensures kept == Filter(endpoints, KeepEndpoints(keys))
    ensures pods == Collect(kept, LegacyTargets) && addresses == Collect(kept, LegacyAddressKeys)
  {
    kept, pods, addresses := [], {}, {};
    for i := 0 to |endpoints|
      invariant kept == Filter(endpoints[..i], KeepEndpoints(keys))
      invariant pods == Collect(kept, LegacyTargets) && addresses == Collect(kept, LegacyAddressKeys)
    {
      FilterStep(endpoints, KeepEndpoints(keys), i);
      var e := endpoints[i];
      if e.key in keys {
        CollectAppend(kept, LegacyTargets, e);
        CollectAppend(kept, LegacyAddressKeys, e);
        kept := kept + [e];
        var morePods, moreAddresses := LegacyReferences(e);
        pods, addresses := pods + morePods, addresses + moreAddresses;
      }
    }
    WholePrefix(endpoints);
  }

  /** podBelongsToTrafficService */
  method PodBelongsToService(pod: Pod, services: seq<Service>) returns (belongs: bool)
    ensures belongs == BelongsToService(pod, services)
  {
    for i := 0 to |services|
      invariant forall s :: s in services[..i] ==>
                  !(s.key.namespace == pod.key.namespace && s.selector != map[] && SelectorMatches(pod.labels, s.selector))
    {
      var s := services[i];
      Extend(services, i);
      if s.key.namespace == pod.key.namespace && s.selector != map[] && SelectorMatches(pod.labels, s.selector) {
        return true;
      }
    }
    WholePrefix(services);
    return false;
  }

  method KeptPods(pods: seq<Pod>, refs: Refs) returns (kept: seq<Pod>, machines: set<string>)
    ensures kept == Filter(pods, KeepPod(refs))
    ensures machines == Collect(kept, PodMachine)
  {
    kept, machines := [], {};
    for i := 0 to |pods|
      invariant kept == Filter(pods[..i], KeepPod(refs))
      invariant machines == Collect(kept, PodMachine)
    {
      FilterStep(pods, KeepPod(refs), i);
      var pod := pods[i];
      var belongs := PodBelongsToService(pod, refs.services);
      if !belongs && pod.key !in refs.pods {
        if Key(pod.key.namespace, pod.podIP) !in refs.addresses || pod.podIP == "" {
          continue;
        }
      }
      CollectAppend(kept, PodMachine, pod);
      kept := kept + [pod];
      if pod.nodeName != "" {
        machines := machines + {pod.nodeName};
      }
    }
    WholePrefix(pods);
  }

  method KeptMachines(machines: seq<Machine>, names: set<string>) returns (kept: seq<Machine>)
    ensures kept == Filter(machines, KeepMachine(names))
  {
    kept := [];
    for i := 0 to |machines|
      invariant kept == Filter(machines[..i], KeepMachine(names))
    {
      FilterStep(machines, KeepMachine(names), i);
      if machines[i].name in names {
        kept := kept + [machines[i]];
      }
    }
    WholePrefix(machines);
  }

  method ScopeTrafficInputs(c: Cluster) returns (scoped: Cluster)
    ensures scoped == Prune(c)
  {
    var keys := TrafficServiceKeys(c);
    var services := KeptServices(c.services, keys);
    var slices, slicePods, sliceAddresses := KeptSlices(c.slices, keys);
    var endpoints, legacyPods, legacyAddresses := KeptLegacy(c.endpoints, keys);
    var refs := Refs(services, slicePods + legacyPods, sliceAddresses + legacyAddresses);
    var pods, names := KeptPods(c.pods, refs);
    var machines := KeptMachines(c.machines, names);
    scoped := c.(services := services, pods := pods, machines := machines, endpoints := endpoints, slices := slices);
  }
}
