/** What pruning keeps, told by the fields of the cluster's objects: everything the
    traffic needs, and nothing else. */
module PrunedFields {
  import opened Collections
  import opened Kube
  import opened EndpointModel
  import opened EndpointFields
  import opened Builder
  import opened Pruning
  import opened PublishedServices
  import opened IngressFields
  import opened ReferenceGrants

  /** Every selected label has the selected value, a missing one reading as empty. */
  predicate LabelsMatch(labels: Labels, selector: Labels) {
    forall l :: l in selector ==> selector[l] == if l in labels then labels[l] else ""
  }

  /** The F5 resource selects the Service, in its own namespace when it has one. */
  predicate SelectsService(r: ExternalResource, s: Service) {
    && r.selector != map[] && (r.key.namespace == "" || r.key.namespace == s.key.namespace)
    && LabelsMatch(s.labels, r.selector)
  }

  lemma SelectsExactly(r: ExternalResource, s: Service)
    ensures ResourceSelects(r, s) <==> SelectsService(r, s)
  {
  }

  ghost predicate NamedByIngresses(c: Cluster, k: Key) {
    k.name != "" && exists i :: i in c.ingresses && IngressNames(i, k)
  }

  predicate RefersTo(r: ExternalResource, b: BackendRef, k: Key) { b in r.backends && NamesCoreService(r, b, k) }

  /** The Gateway API or F5 object names or selects the Service. */
  ghost predicate ResourceNeeds(c: Cluster, r: ExternalResource, k: Key) {
    || (exists b :: RefersTo(r, b, k))
    || exists s :: s in c.services && s.key == k && SelectsService(r, s)
  }

  ghost predicate NamedByResources(c: Cluster, k: Key) { exists r :: r in c.external && ResourceNeeds(c, r, k) }

  ghost predicate IsExposed(c: Cluster, k: Key) {
    exists s :: s in c.services && s.key == k && (s.kind == NodePort || s.kind == LoadBalancer)
  }

  /** Traffic needs the Service: an Ingress names it, a Gateway API or F5 object
      names or selects it, or it is exposed. */
  ghost predicate Needed(c: Cluster, k: Key) {
    NamedByIngresses(c, k) || NamedByResources(c, k) || IsExposed(c, k)
  }

  lemma IngressNeeds(i: Ingress, k: Key)
    ensures k in IngressRefs(i) <==> k.name != "" && IngressNames(i, k)
  {
    CollectMember(IngressRoutes(i), RouteServiceKey(i));
    if k in IngressRefs(i) {
      var route :| route in IngressRoutes(i) && k in RouteServiceKey(i)(route);
      assert NamesService(i, route, k);
    }
    if k.name != "" {
      RouteNames(i, k);
    }
    if route :| k.name != "" && NamesService(i, route, k) {
      assert k in RouteServiceKey(i)(route);
    }
  }

  lemma ResourceNeedsExactly(c: Cluster, r: ExternalResource, k: Key)
    ensures k in ResourceRefs(c.services)(r) <==> ResourceNeeds(c, r, k)
  {
    CollectMember(r.backends, BackendRefKey(r));
    CollectMember(c.services, SelectedKey(r));
    forall b: BackendRef ensures k in BackendRefKey(r)(b) <==> NamesCoreService(r, b, k) {
      CoreServiceExactly(r, b, k);
    }
    forall s: Service ensures k in SelectedKey(r)(s) <==> s.key == k && SelectsService(r, s) {
      SelectsExactly(r, s);
    }
    if b :| RefersTo(r, b, k) {
      assert b in r.backends && k in BackendRefKey(r)(b);
    }
    if b :| b in r.backends && k in BackendRefKey(r)(b) {
      assert RefersTo(r, b, k);
    }
  }

  lemma IngressPart(c: Cluster, k: Key)
    ensures k in Collect(c.ingresses, IngressRefs) <==> NamedByIngresses(c, k)
  {
    CollectMember(c.ingresses, IngressRefs);
    forall i ensures k in IngressRefs(i) <==> k.name != "" && IngressNames(i, k) {
      IngressNeeds(i, k);
    }
  }

  lemma ResourcePart(c: Cluster, k: Key)
    ensures k in Collect(c.external, ResourceRefs(c.services)) <==> NamedByResources(c, k)
  {
    CollectMember(c.external, ResourceRefs(c.services));
    forall r ensures k in ResourceRefs(c.services)(r) <==> ResourceNeeds(c, r, k) {
      ResourceNeedsExactly(c, r, k);
    }
  }

  lemma ExposedPart(c: Cluster, k: Key)
    ensures k in Collect(c.services, ExposedKey) <==> IsExposed(c, k)
  {
    CollectMember(c.services, ExposedKey);
    forall s: Service ensures k in ExposedKey(s) <==> s.key == k && (s.kind == NodePort || s.kind == LoadBalancer) {
    }
  }

  /** The kept Services. */
  lemma NeededExactly(c: Cluster, k: Key)
    ensures k in ServiceKeys(c) <==> Needed(c, k)
  {
    IngressPart(c, k);
    ResourcePart(c, k);
    ExposedPart(c, k);
  }

  // ---- Pods ----

  /** A kept slice or kept Endpoints names the Pod or its address. */
  ghost predicate SliceNeeds(c: Cluster, s: EndpointSlice, pod: Pod) {
    && s in c.slices && s.service != "" && Needed(c, Key(s.namespace, s.service))
    && exists e: SliceEndpoint :: e in s.endpoints && EndpointNeeds(s, e, pod)
  }

  predicate EndpointNeeds(s: EndpointSlice, e: SliceEndpoint, pod: Pod) {
    Refers(e.target, s.namespace, pod.key) || (pod.podIP != "" && pod.podIP in e.addresses && pod.key.namespace == s.namespace)
  }

  ghost predicate LegacyNeeds(c: Cluster, e: Endpoints, pod: Pod) {
    && e in c.endpoints && Needed(c, e.key)
    && exists a: LegacyAddress :: a in LegacyAddresses(e) && AddressNeeds(e, a, pod)
  }

  predicate AddressNeeds(e: Endpoints, a: LegacyAddress, pod: Pod) {
    || Refers(a.address.target, e.key.namespace, pod.key)
    || (pod.podIP != "" && pod.podIP == a.address.ip && pod.key.namespace == e.key.namespace)
  }

  ghost predicate ServiceNeeds(c: Cluster, s: Service, pod: Pod) {
    && s in c.services && Needed(c, s.key) && s.selector != map[] && s.key.namespace == pod.key.namespace
    && LabelsMatch(pod.labels, s.selector)
  }

  ghost predicate PodNeeded(c: Cluster, pod: Pod) {
    || (exists s :: ServiceNeeds(c, s, pod))
    || (exists s :: SliceNeeds(c, s, pod))
    || (exists e :: LegacyNeeds(c, e, pod))
  }

  lemma KeptServices(c: Cluster, s: Service)
    ensures s in Prune(c).services <==> s in c.services && Needed(c, s.key)
  {
    FilterMember(c.services, KeepService(ServiceKeys(c)));
    NeededExactly(c, s.key);
  }

  lemma KeptSlices(c: Cluster, s: EndpointSlice)
    ensures s in Prune(c).slices <==> s in c.slices && s.service != "" && Needed(c, Key(s.namespace, s.service))
  {
    FilterMember(c.slices, KeepSlice(ServiceKeys(c)));
    NeededExactly(c, Key(s.namespace, s.service));
  }

  lemma KeptEndpoints(c: Cluster, e: Endpoints)
    ensures e in Prune(c).endpoints <==> e in c.endpoints && Needed(c, e.key)
  {
    FilterMember(c.endpoints, KeepEndpoints(ServiceKeys(c)));
    NeededExactly(c, e.key);
  }

  lemma BelongsExactly(c: Cluster, pod: Pod)
    ensures BelongsToService(pod, Prune(c).services) <==> exists s :: ServiceNeeds(c, s, pod)
  {
    forall s ensures s in Prune(c).services <==> s in c.services && Needed(c, s.key) {
      KeptServices(c, s);
    }
    forall s: Service ensures SelectorMatches(pod.labels, s.selector) <==> LabelsMatch(pod.labels, s.selector) {
    }
    if s :| s in Prune(c).services && s.key.namespace == pod.key.namespace && s.selector != map[] &&
            SelectorMatches(pod.labels, s.selector) {
      assert ServiceNeeds(c, s, pod);
    }
    if s :| ServiceNeeds(c, s, pod) {
      assert s in Prune(c).services;
    }
  }

  lemma TargetExactly(target: Option<TargetRef>, namespace: string, key: Key)
    ensures key in TargetSet(target, namespace) <==> Refers(target, namespace, key)
  {
  }

  lemma SliceTargetsExactly(s: EndpointSlice, key: Key)
    ensures key in SliceTargets(s) <==> exists e: SliceEndpoint :: e in s.endpoints && Refers(e.target, s.namespace, key)
  {
    CollectMember(s.endpoints, EndpointTargets(s.namespace));
    forall e: SliceEndpoint ensures key in EndpointTargets(s.namespace)(e) <==> Refers(e.target, s.namespace, key) {
      TargetExactly(e.target, s.namespace, key);
    }
  }

  lemma SliceAddressesExactly(s: EndpointSlice, key: Key)
    ensures key in SliceAddresses(s) <==>
            exists e: SliceEndpoint :: e in s.endpoints && key.namespace == s.namespace && key.name in e.addresses
  {
    CollectMember(s.endpoints, EndpointAddressKeys(s.namespace));
    forall e: SliceEndpoint
      ensures key in EndpointAddressKeys(s.namespace)(e) <==> key.namespace == s.namespace && key.name in e.addresses
    {
      CollectMember(e.addresses, AddressKey(s.namespace));
    }
  }

  lemma LegacyTargetsExactly(e: Endpoints, key: Key)
    ensures key in LegacyTargets(e) <==>
            exists a: LegacyAddress :: a in LegacyAddresses(e) && Refers(a.address.target, e.key.namespace, key)
  {
    CollectMember(LegacyAddresses(e), LegacyTarget(e.key.namespace));
    forall a: LegacyAddress ensures key in LegacyTarget(e.key.namespace)(a) <==> Refers(a.address.target, e.key.namespace, key) {
      TargetExactly(a.address.target, e.key.namespace, key);
    }
  }

  lemma LegacyKeysExactly(e: Endpoints, key: Key)
    ensures key in LegacyAddressKeys(e) <==>
            exists a: LegacyAddress :: a in LegacyAddresses(e) && a.address.ip != "" && key == Key(e.key.namespace, a.address.ip)
  {
    CollectMember(LegacyAddresses(e), LegacyAddressKey(e.key.namespace));
  }

  /** A kept slice refers to the Pod. */
  ghost predicate SliceHolds(c: Cluster, pod: Pod) {
    exists s :: s in Prune(c).slices
                && (pod.key in SliceTargets(s) || (pod.podIP != "" && Key(pod.key.namespace, pod.podIP) in SliceAddresses(s)))
  }

  /** Kept Endpoints refer to the Pod. */
  ghost predicate LegacyHolds(c: Cluster, pod: Pod) {
    exists e :: e in Prune(c).endpoints
                && (pod.key in LegacyTargets(e) || (pod.podIP != "" && Key(pod.key.namespace, pod.podIP) in LegacyAddressKeys(e)))
  }

  lemma SlicePart(c: Cluster, pod: Pod)
    ensures SliceHolds(c, pod) <==> exists s :: SliceNeeds(c, s, pod)
  {
    forall s: EndpointSlice
      ensures s in Prune(c).slices
              && (pod.key in SliceTargets(s) || (pod.podIP != "" && Key(pod.key.namespace, pod.podIP) in SliceAddresses(s)))
         <==> SliceNeeds(c, s, pod)
    {
      KeptSlices(c, s);
      SliceTargetsExactly(s, pod.key);
      SliceAddressesExactly(s, Key(pod.key.namespace, pod.podIP));
    }
  }

  lemma LegacyPart(c: Cluster, pod: Pod)
    ensures LegacyHolds(c, pod) <==> exists e :: LegacyNeeds(c, e, pod)
  {
    forall e: Endpoints
      ensures e in Prune(c).endpoints
              && (pod.key in LegacyTargets(e) || (pod.podIP != "" && Key(pod.key.namespace, pod.podIP) in LegacyAddressKeys(e)))
         <==> LegacyNeeds(c, e, pod)
    {
      KeptEndpoints(c, e);
      LegacyTargetsExactly(e, pod.key);
      LegacyKeysExactly(e, Key(pod.key.namespace, pod.podIP));
    }
  }

  lemma RefsExactly(c: Cluster, k: Key)
    ensures k in ScopedRefs(c, ServiceKeys(c)).pods <==>
              (exists s :: s in Prune(c).slices && k in SliceTargets(s)) || exists e :: e in Prune(c).endpoints && k in LegacyTargets(e)
    ensures k in ScopedRefs(c, ServiceKeys(c)).addresses <==>
              || (exists s :: s in Prune(c).slices && k in SliceAddresses(s))
              || exists e :: e in Prune(c).endpoints && k in LegacyAddressKeys(e)
  {
    CollectMember(Prune(c).slices, SliceTargets);
    CollectMember(Prune(c).endpoints, LegacyTargets);
    CollectMember(Prune(c).slices, SliceAddresses);
    CollectMember(Prune(c).endpoints, LegacyAddressKeys);
  }

  lemma RefsHold(c: Cluster, pod: Pod, refs: Refs)
    requires refs == ScopedRefs(c, ServiceKeys(c))
    ensures pod.key in refs.pods || (pod.podIP != "" && Key(pod.key.namespace, pod.podIP) in refs.addresses) <==>
              SliceHolds(c, pod) || LegacyHolds(c, pod)
  {
    RefsExactly(c, pod.key);
    RefsExactly(c, Key(pod.key.namespace, pod.podIP));
  }

  /** The kept Pods. */
  lemma KeptPodsExactly(c: Cluster, pod: Pod)
    ensures pod in Prune(c).pods <==> pod in c.pods && PodNeeded(c, pod)
  {
    var refs := ScopedRefs(c, ServiceKeys(c));
    FilterMember(c.pods, KeepPod(refs));
    BelongsExactly(c, pod);
    RefsHold(c, pod, refs);
    SlicePart(c, pod);
    LegacyPart(c, pod);
  }

  /** Exactly what pruning keeps: the Services traffic needs, their slices and
      Endpoints, the Pods behind them and the machines those run on. */
  lemma PrunesExactly(c: Cluster, s: Service, slice: EndpointSlice, e: Endpoints, pod: Pod, m: Machine)
    ensures s in Prune(c).services <==> s in c.services && Needed(c, s.key)
    ensures slice in Prune(c).slices <==> slice in c.slices && slice.service != "" && Needed(c, Key(slice.namespace, slice.service))
    ensures e in Prune(c).endpoints <==> e in c.endpoints && Needed(c, e.key)
    ensures pod in Prune(c).pods <==> pod in c.pods && PodNeeded(c, pod)
    ensures m in Prune(c).machines <==>
              m in c.machines && m.name != "" && exists p :: p in c.pods && PodNeeded(c, p) && p.nodeName == m.name
  {
    KeptServices(c, s);
    KeptSlices(c, slice);
    KeptEndpoints(c, e);
    KeptPodsExactly(c, pod);
    KeptMachines(c, m);
  }

  lemma KeptMachines(c: Cluster, m: Machine)
    ensures m in Prune(c).machines <==>
              m in c.machines && m.name != "" && exists p :: p in c.pods && PodNeeded(c, p) && p.nodeName == m.name
  {
    FilterMember(c.machines, KeepMachine(Collect(Prune(c).pods, PodMachine)));
    CollectMember(Prune(c).pods, PodMachine);
    forall p ensures p in Prune(c).pods <==> p in c.pods && PodNeeded(c, p) {
      KeptPodsExactly(c, p);
    }
  }
}
