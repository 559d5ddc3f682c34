# NorthScope verification model

NorthScope watches a Kubernetes cluster, turns its caches into a traffic graph,
prunes and scopes that graph, and streams versions of it to browsers behind a
throttled login. This project models that logic in Dafny and proves properties
of it for all inputs and all runs.

Files are named by area (`auth_`, `informers_`, `stream_`, `topology_`); the rest
is shared. The parts, each in the form of the code it models:

- **Pruning, build, scoping.** `Builder` specifies the graph as a sum of pieces,
  one per input object; `TopologyBuild`, `IngressBuild`, `ExternalResources` and
  `GraphBuilding.TopologyBuilder` build it with index maps and one mutable
  builder. `Pruning` specifies what `TopologyInputs` keeps, `Scoping` is the
  search. The main theorem, `ScopedPruning.PruningPreservesTopology`, says that
  pruning never changes what is published; `SnapshotBuild.BuildSnapshot` is the
  same for the imperative pipeline from cluster to snapshot.
- **Endpoints, diagnosis, controllers, overlaps.** `EndpointCollection`,
  `ControllerInference` and `OverlapCollection` are the multi-pass algorithms;
  `ReadyRoutes`, `ControllerScores`, `OverlapRelation`, `CanaryRelation`,
  `OverlapOrder` and `IngressOrder` say what their results mean. `EndpointFields`,
  `RouteVerdicts`, `ControllerFields`, `OverlapFields`, `OverlapFindings` and
  `OverlapTexts` say it once more over the fields of the cluster's objects,
  independent of the predicates that the algorithms decide by.
- **The graph.** `DrawnEdges` and `DrawnNodes` say of every possible edge and node
  which objects of a cluster put it into the build; `GraphShapes`,
  `GraphIntegrity` and `IngressOrder` follow from that. `IngressFields`,
  `ReferenceGrants` and `PrunedFields` are over the fields again. `PublishedTraffic`,
  `PublishedCluster`, `PublishedExposure`, `PublishedServices`, `PublishedNames` and
  `PublishedGraph` say what is published of a cluster, kind by kind
  (`PublishedExactly`, `OthersPublishedExactly`).
- **Watcher.** `Streams` is publication to bounded channels as interleaved
  steps, `Browser` the receiving hook, `RebuildLoop` the whole system of stores,
  handlers, debounce, ticker, builds, publisher and consumers, `RebuildProgress`
  its liveness, `NoRepeats` what consumers get. `Publisher` is the same publication
  as one object.
- **Login throttle.** `Throttle` and `LoginThrottles` are the token buckets,
  `ThrottleRuns` compares every run with a reference that knows only the charged
  failures, `Logins` adds the proxy throttle. `Sessions` is the token format.
- **Informers.** `InformerHealths` and `OptionalInformers`/`OptionalSync` are two
  state machines with their trace specifications.

What the proofs found in the code, kept as it is:

- An Ingress that lists a location twice shows a conflict only on the first of
  the two routes (`RepeatedLocationHidesRival`; exact condition in
  `ConflictShownExactly`).
- A canary is said to split every route to its primary's Service and port, but a
  default backend and the second route for a location do not show it
  (`DefaultBackendMissesCanary`, `RepeatedLocationMissesCanary`; exact condition
  in `CanaryShownExactly`).
- Two addresses of one Ingress that differ only in separators or letter case share
  a node (`SafeIDExactly`); IPv4 addresses never do (`AddressesApart`).
- An empty endpoint address is drawn as an edge without a node
  (`EmptyAddressDangles`; exact condition in `IntegrityExactly`). The API
  server's own validation rejects such addresses, and scoping removes the edge
  before publication (`ScopedEdgesJoinNodes`).
- A failed build is retried only by the next change or tick, so a change can stay
  unpublished until then (`FailedBuildHidesChange`; otherwise `Settles`).
- The throttle's window bound needs a clock that does not go back
  (`ClockBackBreaksWindow`); Go's monotonic clock provides that.
- `podBelongsToTrafficService` reads a missing label as empty and so keeps more
  Pods than the selector selects; the build selects strictly.

Assumptions stated as preconditions: Pod, Ingress and Service names are unique
per namespace and a Service name is not empty (`WellFormed`, `UniqueInputs`,
`UniqueIngresses`, `UniqueServices`), so are IngressClass names, and Gateway API
and F5 objects by kind (`UniqueClasses`, `UniqueExternals`), comparing ID texts is a strict total order
(`IsIDOrder`), each consumer unsubscribes once (a second `Unsubscribe` would
close a closed channel; `Streams.Enabled`), and the throttle has a positive burst
and refill. Times are integers in nanoseconds.

## Model

| member | source | states |
|---|---|---|
| `SnapshotBuild.BuildSnapshot` | internal/k8s/watcher.go:517-543 | prune, build, sort, place and scope: the published nodes (rows aside), edges and labels are those of scoping a build of the whole cluster |
| `ScopedPruning.PruningPreservesTopology` | internal/k8s/topology_inputs.go:17-140 | for every cluster, scoping the build of the pruned inputs equals scoping the build of all inputs: same node IDs, node data, edges and labels, only rows may differ |
| `PrunedBackends.PrunedBuildIsRestriction` | internal/k8s/topology_inputs.go:17-140 | building the pruned inputs is the same as dropping the pruned nodes and their edges from the full build; no diagnosis, controller, overlap or endpoint of the kept part changes |
| `EdgeShapes.BuildGuarded` | internal/k8s/builder.go:58-364 | no edge that the scoping search follows leads from the kept part of the graph to a dropped node |
| `ScopedPruning.SameVisible` | internal/k8s/snapshot.go:10-69 | the search over the restricted graph visits exactly what the search over the full graph visits |
| `ScopedPruning.RestrictedAgrees` | internal/k8s/builder_nodes.go:726-747 | two graphs that agree on the visited part publish the same sorted lists, rows aside |
| `TopologyInputs.ScopeTrafficInputs` | internal/k8s/topology_inputs.go:17-140 | the loops over Service keys, slices, endpoints, Pods and Nodes keep exactly the objects the specification of pruning keeps, in order |
| `TopologyInputs.TrafficServiceKeys` | internal/k8s/topology_inputs.go:26-63 | the keys of all Services that Ingress routes, canaries, external backends, selectors or exposure need |
| `TopologyInputs.KeptPods` | internal/k8s/topology_inputs.go:75-133 | a Pod stays exactly when a kept Service selects it or an endpoint of a kept Service names it or its address, and its machine stays with it |
| `TopologyInputs.PodBelongsToService` | internal/k8s/topology_inputs.go:142-149 | true exactly when a kept Service of the namespace selects the Pod by labels, a missing label reading as empty |
| `PrunedIndexes.SameResolution` | internal/k8s/builder_endpoints.go:316-334 | target references and addresses of kept endpoints resolve to the same Pod before and after pruning, also when Pods share an address |
| `PrunedIndexes.SameStats` | internal/k8s/builder_endpoints.go:25-97 | endpoint statistics of a kept Service are unchanged by pruning |
| `PrunedIndexes.SamePortPods` | internal/k8s/builder_endpoints.go:218-274 | the endpoint Pods of a kept Service port are unchanged by pruning |
| `PrunedGraph.SameController` | internal/k8s/builder_controllers.go:223-246 | an Ingress has the same controller, by class or by status address, before and after pruning |
| `PrunedTraffic.SameDiagnosis` | internal/k8s/builder_diagnostics.go:73-215 | every Ingress route has the same diagnosis before and after pruning |
| `PrunedFields.PrunesExactly` | internal/k8s/topology_inputs.go:17-149 | exactly what pruning keeps, over the fields: the Services that an Ingress backend, a backend reference, a selector or their own type needs, their slices and Endpoints, the Pods behind them and the machines those run on |
| `Scoping.IngressScopedSnapshot` | internal/k8s/snapshot.go:10-69 | the breadth-first search terminates and keeps exactly the visible nodes and the edges between them, in their order; which nodes those are of a cluster, `PublishedServices.PublishedExactly` and `PublishedGraph.OthersPublishedExactly` say |
| `Scoping.VisibleIsLeastClosed` | internal/k8s/snapshot.go:10-139 | the visible nodes are the least set that holds the roots and is closed under the directed, kind-dependent steps |
| `Scoping.NeighborMeansStep` | internal/k8s/snapshot.go:71-116 | the neighbor lists of a node hold exactly the nodes one step away |
| `Scoping.ScopedEdgesJoinNodes` | internal/k8s/snapshot.go:57-64 | every published edge joins two published nodes, whatever the builder drew |
| `Scoping.ScopeIsIdempotent` | internal/k8s/snapshot.go:10-69 | scoping twice equals scoping once |
| `TopologyBuild.BuildTopology` | internal/k8s/builder.go:58-364 | the passes over one mutable builder with their index maps end in exactly the specified graph, for every order in which maps are iterated |
| `TopologyBuild.MatchingPodsForService` | internal/k8s/builder_controllers.go:185-197 | the Pods of the namespace that the selector selects, in order, and none for an empty selector |
| `TopologyBuild.IndexAllPods` | internal/k8s/builder.go:112-117 | Pods by name, by address (the last one wins) and by namespace |
| `TopologyBuild.TargetOf` | internal/k8s/builder.go:168-174 | an exposed Service leads to its matched class, else to a status controller it owns, else to itself |
| `TopologyBuild.AddExposures` | internal/k8s/builder.go:167-201 | the exposure pass adds exactly the load balancers, node ports and their edges |
| `TopologyBuild.AddSlice` | internal/k8s/builder.go:296-327 | a slice of a Service without selector adds its Pod edges and its external endpoints, any other slice nothing |
| `TopologyBuild.AddLegacy` | internal/k8s/builder.go:329-357 | legacy Endpoints are drawn only for a Service without selector and without slices |
| `IngressBuild.InferStatusControllers` | internal/k8s/builder.go:144-165 | the controllers inferred from status addresses, their nodes, and the Services that own one |
| `IngressBuild.ControllersByIngress` | internal/k8s/builder.go:204-212 | the controller of every Ingress that has one, by class first and by status address otherwise |
| `IngressBuild.AddIngress` | internal/k8s/builder.go:214-273 | an Ingress adds its node, hosts, addresses, controller edge and routes |
| `IngressBuild.AddRoute` | internal/k8s/builder.go:238-272 | a route adds its node with diagnosis and overlap properties, its canary edges, its definition edge and its backend edge; which diagnosis and finding, `RouteVerdicts.DiagnosisExactly` and `OverlapFindings.ShownFindingExactly` say |
| `IngressBuild.ListRoutes` | internal/k8s/builder_helpers.go:15-59 | the routable backends, default first, numbered by position; entries naming neither a Service nor a resource are skipped |
| `Kube.RoutesWellFormed` | internal/k8s/builder_helpers.go:15-59 | a route ID is its position, and a route without a Service has a resource |
| `ExternalResources.AddExternalResource` | internal/k8s/builder_nodes.go:426-558 | each Gateway API or F5 kind adds exactly its nodes and the edges of the references that resolve |
| `ExternalResources.ResolveBackend` | internal/k8s/builder_nodes.go:489-510 | a backend reference is unsupported, missing, outside the watched namespace, in need of a grant, or resolved |
| `ExternalResources.BackendReferenceGranted` | internal/k8s/builder_nodes.go:634-666 | the nested loops grant a reference exactly when some ReferenceGrant of the backend namespace matches route and Service; whom that lets in, `ReferenceGrants.BackendExactly` says over the fields |
| `ExternalResources.ServicesMatchingSelector` | internal/k8s/builder_helpers.go:315-332 | the Services of the namespace whose labels match, none for an empty selector |
| `GraphBuilding.TopologyBuilder.AddNode` | internal/k8s/builder_nodes.go:707-709 | a node replaces an earlier one with its ID and nothing else changes |
| `GraphBuilding.TopologyBuilder.AddEdge` | internal/k8s/builder_nodes.go:711-724 | an edge is identified by source, target and kind; its label replaces an earlier one |
| `GraphBuilding.TopologyBuilder.AddExposure` | internal/k8s/builder.go:176-200 | the load balancer, node port and forwarding edges of one Service |
| `GraphBuilding.TopologyBuilder.AddSliceAddress` | internal/k8s/builder.go:313-326 | an address without a Pod adds an external endpoint and its edge; an empty address adds the edge alone |
| `SnapshotBuild.SnapshotOf` | internal/k8s/builder_nodes.go:726-747 | nodes and edges sorted by ID, whatever order the maps are iterated in |
| `SnapshotBuild.AssignPositions` | internal/k8s/builder_nodes.go:754-764 | each node gets the number of earlier nodes of its kind as row |
| `GraphIntegrity.EdgesJoinNodes` | internal/k8s/builder.go:58-364 | every edge of the build joins two nodes of the build when no empty endpoint address is drawn |
| `DrawnEdges.EdgesExactly` | internal/k8s/builder.go:58-364 | the build has an edge if and only if some object of the cluster accounts for it: a closed list of reasons, independent of passes and maps |
| `DrawnNodes.NodesExactly` | internal/k8s/builder.go:58-364 | the build has a node if and only if some object of the cluster accounts for it |
| `IngressFields.RoutesExactly` | internal/k8s/builder_helpers.go:15-59 | the routes of an Ingress are, over its default backend and rules, exactly the backends that name a Service or a resource |
| `ReferenceGrants.BackendExactly` | internal/k8s/builder_nodes.go:489-511 | over the fields of routes, Services and grants, a reference is resolved when it names a core Service that is listed and lies in the namespace of the route or of a grant whose from-entry has the namespace, group and kind of the route and whose to-entry names the Service or none; in need of a grant when no grant does; missing or outside the watched namespace when it is not listed |
| `Text.TrimExactly` | internal/k8s/builder_nodes.go:613-624 | trimming takes away white space at both ends, all of it, and nothing else |
| `ReferenceGrants.UnsupportedExactly` | internal/k8s/builder_nodes.go:489-510 | a backend is unsupported if and only if it names no core Service |
| `ReferenceGrants.RouteLeadsExactly` | internal/k8s/builder_nodes.go:489-512 | the build has an edge from a Gateway API route to a Service if and only if some backend of the route names it, it is listed, and it shares the namespace or a grant of its namespace admits the route |
| `ReferenceGrants.ParentExactly` | internal/k8s/builder_nodes.go:464-482 | a parent reference is resolved, missing or outside the watched namespace, over the fields |
| `ReferenceGrants.RouteAttachesExactly` | internal/k8s/builder_nodes.go:464-487 | a route hangs below a Gateway if and only if some parent names a listed Gateway, and as rejected if and only if its status says so |
| `GraphIntegrity.IntegrityExactly` | internal/k8s/builder_nodes.go:329-400 | the build has referential integrity if and only if it draws no empty endpoint address |
| `GraphIntegrity.EmptyAddressDangles` | internal/k8s/builder_nodes.go:329-400 | a concrete cluster with an empty endpoint address, whose build has a dangling edge |
| `DrawnEndpoints.SliceDrawsEachAddressOnce` | internal/k8s/builder.go:296-327 | each address of a drawn slice gives exactly one edge: to the Pod it resolves to, or else to its external endpoint |
| `DrawnEndpoints.LegacyDrawsEachAddressOnce` | internal/k8s/builder.go:329-357 | the same for each address of drawn legacy Endpoints |
| `GraphShapes.BuildShaped` | internal/k8s/builder.go:58-364 | every edge of the build joins the kinds of nodes its kind stands for, in that direction, and no node has an empty endpoint address |
| `PublishedTraffic.ShownExactly` | internal/k8s/snapshot.go:10-69 | a node is published if and only if it is a root or one followed edge away from a published node |
| `PublishedTraffic.TrafficShown` | internal/k8s/snapshot.go:130-139 | every Ingress, Gateway and route of the graph is published |
| `PublishedTraffic.PodShown` | internal/k8s/snapshot.go:71-116 | a Pod is published if and only if a published Service selects it or lists it as an endpoint; sharing a machine is not enough |
| `PublishedTraffic.ServiceShown` | internal/k8s/snapshot.go:71-116 | a Service is published if and only if a published route, node port or load balancer leads to it |
| `PublishedTraffic.MachineShown` | internal/k8s/snapshot.go:71-116 | a machine is published if and only if it hosts a published Pod |
| `PublishedTraffic.ControllerShown` | internal/k8s/snapshot.go:71-116 | a controller is published if and only if it controls a published Ingress or Gateway, or a published node port or load balancer leads to it |
| `PublishedTraffic.BackendBuilt` | internal/k8s/builder.go:269-271 | the build leads from every Ingress route to its Service when that exists |
| `PublishedTraffic.PodOfService` | internal/k8s/builder.go:279-294 | the build leads from every Service to the Pods it selects |
| `PublishedServices.PublishedExactly` | internal/k8s/snapshot.go:10-139 | the published nodes of every build with unique Service names are all Ingresses, Gateways and routes, and of the Services, Pods, machines, controllers, load balancers and node ports exactly those that `ServicePublished`, `PodPublished`, `MachinePublished`, `ControllerPublished` and `ExposurePublishedExactly` name; the other kinds are in `PublishedGraph.OthersPublishedExactly` |
| `PublishedServices.SnapshotShows` | internal/k8s/watcher.go:517-543 | a snapshot that equals the scoped build of the whole cluster, rows aside, as the pipeline's result does, shows exactly the published nodes |
| `PublishedServices.ServicePublished` | internal/k8s/snapshot.go:71-116 | a Service is published if and only if an Ingress route names it, a Gateway API reference to it resolves or a published F5 resource balances to it; its own load balancer and node ports do not count |
| `PublishedCluster.PodPublished` | internal/k8s/snapshot.go:71-116 | a Pod is published if and only if a published Service selects it or, having no selector, lists it in its slices, or in legacy Endpoints when it has no slice |
| `PublishedCluster.MachinePublished` | internal/k8s/snapshot.go:71-116 | a machine is published if and only if a published Pod runs on it |
| `PublishedExposure.ControllerPublished` | internal/k8s/snapshot.go:71-116 | a controller is published if and only if some Ingress belongs to it; an exposed Service alone does not show it |
| `PublishedExposure.ExposurePublishedExactly` | internal/k8s/snapshot.go:71-116 | a load balancer or node port of a Service is published if and only if it leads to a controller that some Ingress belongs to |
| `PublishedExposure.GatewayClassPublished` | internal/k8s/snapshot.go:71-116 | a Gateway class is published if and only if it is listed and some Gateway names it |
| `PublishedGraph.OthersPublishedExactly` | internal/k8s/snapshot.go:10-139 | the published nodes of the remaining kinds, over the cluster: names, F5 resources, addresses, endpoints outside Pods, external names and Gateway classes, and nothing that no object accounts for |
| `PublishedNames.NamePublished` | internal/k8s/snapshot.go:71-116 | a DNS name is published if and only if an Ingress rule, a Gateway, a Gateway API route or a published F5 resource names it |
| `PublishedNames.BalancerPublished` | internal/k8s/snapshot.go:118-139 | an F5 resource is published if and only if its provider reads F5 or a published name is one of its hosts |
| `PublishedNames.NamesAreLeast` | internal/k8s/snapshot.go:10-69 | names and F5 resources do not hold each other up: the published ones are in every set closed under those two rules |
| `PublishedNames.IngressAddressPublished` | internal/k8s/builder.go:219-226 | the published addresses in front of an Ingress are exactly its status addresses |
| `PublishedNames.GatewayAddressPublished` | internal/k8s/builder_nodes.go:452-459 | the published addresses in front of a Gateway are exactly its own |
| `Text.SafeIDExactly` | internal/k8s/builder_helpers.go:359-363 | two addresses of one object share a node if and only if they differ in nothing but letter case and separators |
| `Text.AddressesApart` | internal/k8s/builder_helpers.go:359-363 | addresses of digits and dots never share one |
| `PublishedExposure.PortNodesExactly` | internal/k8s/builder_controllers.go:311-320 | two ports of a Service share a node if and only if they have one name, or no name and one number, or one is named like the number of the other |
| `PublishedNames.OutsidePublished` | internal/k8s/snapshot.go:71-116 | an endpoint outside the Pods, or an external name, in the build is published if and only if its Service is |
| `PublishedGraph.EdgesPublishedExactly` | internal/k8s/snapshot.go:57-64 | the published edges and labels are exactly those of the build between published nodes |
| `PublishedGraph.SelectsExactly` | internal/k8s/builder_controllers.go:185-197 | a Service selects a Pod if and only if both are listed in one namespace and the Pod carries every label of a selector that is not empty |
| `PublishedGraph.ListsExactly` | internal/k8s/builder.go:296-357 | a Service lists a Pod if and only if it has no selector and its slices, or without any its Endpoints, have an address that stands for the Pod |
| `IngressFields.NamedByIngressExactly` | internal/k8s/builder_helpers.go:15-59 | an Ingress names a Service if and only if its default backend or a path of it does |
| `PublishedGraph.NamedByGatewayExactly` | internal/k8s/builder_nodes.go:489-512 | a Gateway API reference resolves to a listed Service if and only if it names it as a core Service and may refer to it |
| `PublishedGraph.BalancesExactly` | internal/k8s/builder_nodes.go:530-557 | an F5 resource balances to a listed Service if and only if it names it or selects it |
| `EndpointCollection.EndpointStatsByService` | internal/k8s/builder.go:77-79 | merged statistics: over the slices of a Service, over its legacy Endpoints only when it has no slice |
| `EndpointCollection.StatsAreCounts` | internal/k8s/builder_endpoints.go:25-97 | totals are the counts of the listed endpoints, each once, never mixing the two sources |
| `EndpointFields.StatsExactly` | internal/k8s/builder_endpoints.go:25-97 | every statistic is the number of places in the slices, or in the Endpoints, where an endpoint of that sort stands |
| `EndpointFields.ConditionsExactly` | internal/k8s/builder_endpoints.go:25-57 | a missing ready condition reads as ready, a missing serving condition as ready does, a missing terminating condition as not terminating |
| `EndpointFields.ResolvesExactly` | internal/k8s/builder_endpoints.go:118-145 | an address stands for the last Pod its target reference names, in the namespace of the reference or else its own, and without such a Pod for the last Pod with that address |
| `EndpointCollection.StatsAreBounded` | internal/k8s/builder_endpoints.go:25-80 | usable is at most ready and serving, and usable plus terminating at most the total |
| `EndpointCollection.CollectEndpointStats` | internal/k8s/builder_endpoints.go:25-57 | statistics per Service of the labelled slices |
| `EndpointCollection.CollectLegacyEndpointStats` | internal/k8s/builder_endpoints.go:59-80 | statistics per Service of the legacy Endpoints |
| `EndpointCollection.MergeEndpointStats` | internal/k8s/builder_endpoints.go:82-97 | adds the second source except for the skipped keys |
| `EndpointCollection.EndpointSlicePods` | internal/k8s/builder_endpoints.go:118-152 | the Pods a slice stands for, by target reference or by address, each once |
| `EndpointCollection.LegacyEndpointPods` | internal/k8s/builder_endpoints.go:154-181 | the Pods legacy Endpoints stand for, each once |
| `EndpointCollection.ReferencesPod` | internal/k8s/builder_endpoints.go:316-334 | true exactly when the Pod collector would return a Pod for the endpoint address |
| `EndpointCollection.EndpointPodsByService` | internal/k8s/builder_endpoints.go:218-274 | the endpoint Pods per Service port, and no entry for a Service without endpoint data |
| `EndpointCollection.CountNonEndpointPods` | internal/k8s/builder_endpoints.go:280-295 | how many selected running Pods with an address are not endpoints for the port |
| `ReadyRoutes.SameDomain` | internal/k8s/builder.go:238-248 | statistics and the endpoint-Pod index cover the same Services |
| `RouteVerdicts.DiagnosisExactly` | internal/k8s/builder_diagnostics.go:73-215 | each of the verdicts, with what it counts, is given if and only if the routes, Services, Pods, slices and Endpoints call for it, for unique Service names |
| `RouteVerdicts.ErrorExactly` | internal/k8s/builder_diagnostics.go:73-215 | the diagnosis is an error if and only if the backend is a resource, its Service is missing, no port of it fits or, behind a controller, its selector finds no ready Pod or none of its endpoints is usable |
| `RouteVerdicts.HealthyExactly` | internal/k8s/builder_diagnostics.go:73-215 | it is neither error nor warning if and only if the backend can serve |
| `RouteVerdicts.ListedExactly` | internal/k8s/builder_endpoints.go:218-274 | the Pods listed for a Service port are exactly those that its slices with such a port, or its subsets, stand for, and there is no list without endpoint data |
| `RouteVerdicts.FirstFitExactly` | internal/k8s/builder_endpoints.go:299-306 | the port asked for is the first that fits the name or the number of the backend |
| `RouteVerdicts.MissedExactly` | internal/k8s/builder_endpoints.go:276-295 | the Pods missed are the running, addressed, selected ones that are not listed for the port |
| `ReadyRoutes.ReadyMeansReady` | internal/k8s/builder_diagnostics.go:73-215 | for other than ExternalName Services, "Backends ready" if and only if the backend is an existing Service and no resource, a controller exists, the port exists, a Service with a selector has a Ready Pod, an endpoint is usable, none terminates and every selected running Pod is listed for the port |
| `ReadyRoutes.ShownReady` | internal/k8s/builder_overlaps.go:279-342 | a route shows "Backends ready" if and only if that holds and its overlap record holds no finding |
| `ReadyRoutes.ShownReadyExactly` | internal/k8s/builder_overlaps.go:279-342 | for unique Ingress names, that is: it holds and the route takes no part in overlaps, or it is a primary without rival, or a canary with a primary, without another canary for its location and without one that shares its Service |
| `OverlapCollection.CollectRouteOverlaps` | internal/k8s/builder_overlaps.go:89-179 | the three passes over groups, backends and Services give every affected route the specified overlap |
| `OverlapRelation.ConflictsExactly` | internal/k8s/builder_overlaps.go:151-162 | primaries and location canaries are exactly the other Ingresses for the same controller, host, path and path type |
| `OverlapRelation.ConflictsAreSymmetric` | internal/k8s/builder_overlaps.go:151-162 | two primaries name each other |
| `OverlapRelation.CanariesExactly` | internal/k8s/builder_overlaps.go:122-171 | among the routes that take part in overlaps, a primary lists exactly the canaries that split the Service and port it sends to: those whose location is served by a primary with that backend |
| `CanaryRelation.CanaryShownExactly` | internal/k8s/builder_overlaps.go:89-179 | a route node lists a canary if and only if the canary splits the route's own Service and port, its Ingress has a controller and is no canary, and the route is no default backend and the first its Ingress lists for the location |
| `CanaryRelation.CanaryPropertiesExactly` | internal/k8s/builder_overlaps.go:346-380 | a route carries the list of canaries, or the list of canaries it shares its Service with, if and only if it takes part in overlaps and there is one to list |
| `CanaryRelation.RepeatedLocationMissesCanary` | internal/k8s/builder_overlaps.go:109-114 | a concrete input where the second route for a location shows no canary although it sends to the split Service and port |
| `CanaryRelation.DefaultBackendMissesCanary` | internal/k8s/builder_overlaps.go:99-102 | a concrete input where a default backend shows no canary although it is the split Service and port |
| `OverlapRelation.SharedExactly` | internal/k8s/builder_overlaps.go:163-168 | among the routes that take part in overlaps, a canary lists exactly the canaries of other Ingresses with its own Service and port |
| `CanaryRelation.SharedShownExactly` | internal/k8s/builder_overlaps.go:89-179 | a canary's route node lists a canary of another Ingress if and only if both send to one Service and port and the route is no default backend and the first its Ingress lists for the location |
| `CanaryRelation.LocationCanaryShownExactly` | internal/k8s/builder_overlaps.go:89-179 | a route node lists the canaries of other Ingresses for its location under the same condition |
| `OverlapRelation.OldestExactly` | internal/k8s/builder_overlaps.go:184-197 | the served Ingress is the unique primary older than all others at its location; by creation time and name, `OverlapFields.ServedExactly` says |
| `OverlapRelation.ConflictShownExactly` | internal/k8s/builder_overlaps.go:89-179 | a route node has conflicting primaries if and only if another Ingress has a primary for its location and it is the first route its own Ingress lists there |
| `OverlapRelation.ConflictPropertyExactly` | internal/k8s/builder_overlaps.go:346-380 | a route carries the conflict property if and only if its Ingress is no canary, a rival exists and it is the first route its Ingress lists for the location |
| `OverlapRelation.RepeatedLocationHidesRival` | internal/k8s/builder_overlaps.go:109-114 | a concrete input where the second route for a location shows no conflict although a rival exists, so the first-listed condition is needed |
| `OverlapFields.ServedExactly` | internal/k8s/builder_overlaps.go:184-197 | the served Ingress is the primary there that was created before every other, or at the same time with the smaller namespace and name |
| `OverlapFields.CanaryListedExactly` | internal/k8s/builder_overlaps.go:89-179 | a route node lists a canary behind a primary if and only if, over the fields of Ingresses and routes, the canary shares the location of the served primary and that sends to the Service and port of the route |
| `OverlapFields.TakesPartExactly` | internal/k8s/builder_overlaps.go:89-114 | a route takes part if and only if its Ingress has a controller, it is no default backend and no earlier route of the Ingress asks for the same requests |
| `OverlapFields.RivalsExactly` | internal/k8s/builder_overlaps.go:151-162 | a route has a rival if and only if another Ingress of the controller, which is no canary, has a route for the same requests |
| `OverlapFields.LocationsAgree` | internal/k8s/builder_overlaps.go:103-108 | two routes share a location if and only if controller, host in any letter case, path with the empty one as the root, and path type agree |
| `OverlapFields.UpstreamsAgree` | internal/k8s/builder_overlaps.go:48-55 | two routes share an upstream if and only if controller, namespace, Service and port agree |
| `OverlapTexts.PropertiesExactly` | internal/k8s/builder_overlaps.go:346-380 | each property about other Ingresses is on a route node, with its text, if and only if the route takes part and the Ingresses stand in the relation it tells of |
| `OverlapTexts.FindingNamesExactly` | internal/k8s/builder_overlaps.go:279-342 | a finding names the canaries that share the Service, those for the location, or the rivals, whichever it is about |
| `OverlapTexts.NameListExactly` | internal/k8s/builder_overlaps.go:267-277 | a list of names reads as the names of its Ingresses in ascending order with commas, whatever order they came in |
| `OverlapTexts.LinkTextExactly` | internal/k8s/builder_overlaps.go:346-380 | a canary is told as shared through the Service if and only if its primary is another route than the one shown |
| `Text.JoinConcat` | internal/k8s/builder_overlaps.go:267-277 | joining two lists joins each and puts one separator between them |
| `OverlapFindings.ShownFindingExactly` | internal/k8s/builder_overlaps.go:279-342 | a route node shows a canary without primary, a shared canary Service, several canaries or a conflict, with the served Ingress, if and only if its diagnosis is healthy and the Ingresses stand in that relation; otherwise its diagnosis |
| `OverlapOrder.OrderDoesNotShow` | internal/k8s/builder_overlaps.go:279-380 | with the controllers given, rearranging the Ingresses changes no overlap property of a route and nothing that overlaps do to its verdict |
| `IngressOrder.OrderKeepsController` | internal/k8s/builder_controllers.go:223-246 | rearranging the Ingresses of a cluster changes no controller of an Ingress |
| `IngressOrder.OrderKeepsRouteNode` | internal/k8s/builder.go:238-272 | it changes no verdict and no overlap property that a route node shows |
| `IngressOrder.OrderKeepsNodes` | internal/k8s/builder.go:58-364 | it adds and removes no node of the build |
| `IngressOrder.OrderKeepsEdges` | internal/k8s/builder.go:58-364 | it adds and removes no edge of the build |
| `ControllerInference.MatchingIngressClassName` | internal/k8s/builder_controllers.go:64-89 | the only class with the best score, when it reaches 6, and none on a tie, in whatever order the classes are iterated |
| `ControllerInference.DefaultIngressClassName` | internal/k8s/builder_controllers.go:91-103 | the default class when there is exactly one |
| `ControllerInference.IngressControllerClassName` | internal/k8s/builder_controllers.go:20-40 | the named class when it exists or is a legacy annotation, else the default class, else the only class |
| `ControllerInference.AnnotationOnlyIngressClasses` | internal/k8s/builder_controllers.go:49-62 | the sorted legacy annotation classes without a class object |
| `ControllerInference.ServicesByLoadBalancerAddress` | internal/k8s/builder_controllers.go:207-218 | the exposed Services at each address |
| `ControllerInference.IngressStatusControllerService` | internal/k8s/builder_controllers.go:223-246 | the only Service sharing an address with the Ingress, else the only one that looks like a controller, independent of map order |
| `ControllerScores.SoleMentionDecides` | internal/k8s/builder_controllers.go:64-141 | a class that a Service mentions, and no other class does, is matched if and only if its name is the Service's own, or a word of its controller or a sign of a controller supports it |
| `ControllerScores.MatchHasEvidence` | internal/k8s/builder_controllers.go:64-89 | the matched class has evidence of its own and strictly beats every other class |
| `ControllerFields.ClassExactly` | internal/k8s/builder_controllers.go:20-40 | over the fields: an Ingress has the class it names, which must be listed unless only the annotation names it; without a name the only class marked as default, else the only class |
| `ControllerFields.ControllerExactly` | internal/k8s/builder_controllers.go:223-246 | the controller of an Ingress is its class or else what the Service behind its status address gives: the class that matches, or the Service itself |
| `ControllerFields.StatusExactly` | internal/k8s/builder_controllers.go:207-246 | that Service is the only exposed one sharing an address, or among several the only one with a controller word in name or labels |
| `ControllerFields.LooksExactly` | internal/k8s/builder_controllers.go:248-260 | a Service looks like a controller if and only if its name or a label contains one of ten words, in any letter case |
| `ControllerFields.MatchExactly` | internal/k8s/builder_controllers.go:64-141 | a Service matches a class if and only if it is exposed, speaks of the class strongly enough and of every other class less strongly; strength is three for its own name, two for a mention, and one for each telling word of its controller that the class name lacks; enough is three, or less with signs of a controller |
| `ControllerFields.WordsExactly` | internal/k8s/builder_controllers.go:143-146 | the words of a controller name are its maximal runs of letters |
| `ControllerFields.TellingExactly` | internal/k8s/builder_controllers.go:143-166 | the telling words are those of at least four letters other than kubernetes, ingress and controller |
| `ControllerFields.SaysExactly` | internal/k8s/builder_controllers.go:168-183 | a text is mentioned if and only if a name, the type, a label or an annotation of the Service, or a name or label of its Pods, contains it in any letter case |
| `Text.ContainsExactly` | internal/k8s/builder_controllers.go:113 | a text contains another if and only if that occurs at some position |
| `Text.FoldExactly` | internal/k8s/snapshot.go:135 | equal apart from case means the same letters, in one case or the other, position by position |
| `ControllerFields.InferenceExactly` | internal/k8s/builder_controllers.go:42-62 | the classes inference knows are the listed ones and those only an annotation names |
| `ControllerFields.TargetExactly` | internal/k8s/builder.go:168-174 | where the ports of a Service lead: its matched class, itself as a status controller, or itself |
| `ThrottleRuns.AnswersFollowCharges` | internal/auth/throttle.go:48-101 | in every run with a clock that does not go back, each answer is determined by the failures charged to the client's bucket: refilling, pruning and re-creation do not show |
| `ThrottleRuns.OnlyFailuresMatter` | internal/auth/throttle.go:48-101 | below the cap, two throttles with the same budget answer alike after the same failures, whatever their caps and whatever else was looked up |
| `ThrottleRuns.PruningInvisible` | internal/auth/throttle.go:95-101 | below the cap, every answer and wait equals that of a throttle that never prunes |
| `ThrottleRuns.NeverPrunes` | internal/auth/throttle.go:71-78 | a throttle with at least as much room as operations never prunes and never uses the shared bucket |
| `ThrottleRuns.RunMemory` | internal/auth/throttle.go:19-21 | in every reachable state at most one bucket more than the cap is tracked, then the shared one is among them, and every bucket holds between zero and its burst |
| `ThrottleRuns.WindowBound` | internal/auth/throttle.go:46-67 | in any window a bucket key is charged at most the burst and one failure per refill period, when every charged failure was allowed |
| `ThrottleRuns.ClockBackBreaksWindow` | internal/auth/throttle.go:71-101 | a concrete run where a clock that goes back charges one key beyond the window bound |
| `ThrottleRuns.WaitIsExact` | internal/auth/throttle.go:48-58 | a rejected client is rejected with the remaining wait before its wait is over and allowed from then on, unless its bucket is charged |
| `ThrottleRuns.FewFailuresAllowed` | internal/auth/throttle.go:46-58 | a client whose bucket was charged fewer failures than the burst, ever, is allowed |
| `Throttle.FailedTakesOne` | internal/auth/throttle.go:61-67 | a failure takes one token from the bucket it is charged to, down to zero, and nothing from any other |
| `Throttle.OpenedKeepsCredit` | internal/auth/throttle.go:71-92 | looking a bucket up, with or without pruning, changes no key's credit at any later time |
| `Throttle.SameKeyAgain` | internal/auth/throttle.go:71-78 | allow followed by fail at the same time finds the same bucket |
| `LoginThrottles.LoginThrottle.Allow` | internal/auth/throttle.go:48-58 | answer and new buckets as specified |
| `LoginThrottles.LoginThrottle.Fail` | internal/auth/throttle.go:61-67 | new buckets as specified |
| `LoginThrottles.LoginThrottle.Prune` | internal/auth/throttle.go:95-101 | drops exactly the buckets that have refilled, in whatever order they are visited |
| `Logins.Authenticator.AllowLogin` | internal/auth/auth.go:366-376 | both throttles must allow; the wait is the longer one |
| `Logins.Authenticator.Submit` | internal/auth/auth.go:195-223 | a throttled submission is not checked; a wrong one is charged to the client and to its proxy; a right one to neither |
| `Logins.FailuresBounded` | internal/auth/auth.go:195-212 | over every run of submissions, each client bucket and each proxy bucket is charged at most its burst and one failure per refill in any window |
| `Logins.ClientGuessesBounded` | internal/auth/auth.go:195-212 | below the cap, a client guesses at most burst + T / refill passwords in any time T |
| `Logins.ProxyGuessesBounded` | internal/auth/throttle.go:14-18 | below the cap, all clients behind one proxy together guess at most the proxy's burst + T / refill passwords, whatever addresses they claim |
| `Logins.CombinedWaitIsExact` | internal/auth/auth.go:366-376 | in every run of submissions, one that is throttled would be throttled with the remaining wait before its wait is over and let through from then on, with or without a proxy, unless the bucket of the client or of the proxy is charged or replaced |
| `Logins.HeaderIsExact` | internal/auth/auth.go:195-202 | the Retry-After header is the least whole number of seconds after which it is let through, on the same condition |
| `Logins.FewGuessesPass` | internal/auth/auth.go:366-376 | a submission passes when fewer failures than the burst were ever charged to its client and to its proxy |
| `Sessions.IssuedVerifies` | internal/auth/session.go:61-103 | an issued token verifies at any later time if and only if that is before the truncated expiry, and for an earlier clock not before the lifetime allows; which tokens verify at all, `Sessions.VerifiesExactly` says |
| `Sessions.FormatParses` | internal/auth/session.go:67-92 | the decimal expiry parses back to itself |
| `Sessions.SplitPayload` | internal/auth/session.go:85-88 | splitting a payload gives version, expiry and nonce back |
| `Sessions.VerifiesExactly` | internal/auth/session.go:71-103 | a token verifies with an expiry if and only if it is the version, a number that reads as the expiry, a nonce and a text that decodes to the MAC of all before it, joined by dots, and now is before the expiry and not earlier than the lifetime allows |
| `Sessions.WrongSignatureExactly` | internal/auth/session.go:71-84 | the answer is a wrong signature if and only if the text after the last dot decodes to something else than that MAC |
| `Sessions.TamperingRejected` | internal/auth/session.go:81-84 | one signature verifies two payloads only if their MACs collide |
| `Sessions.IssuedLives` | internal/auth/session.go:61-103 | an issued token verifies until less than a second before its lifetime is over, and never after that |
| `Sessions.ParseExactly` | internal/auth/session.go:89-92 | a text reads as a number if and only if it is an optional sign and decimal digits with that value, within 64 bits |
| `Streams.StreamsIncrease` | internal/k8s/watcher.go:357-372 | in every interleaving of publisher, consumers, subscribe and unsubscribe, what a consumer received and what waits for it is strictly increasing and, once published, ends with the latest snapshot |
| `Publisher.ServedIsSend` | internal/k8s/watcher.go:446-460 | the interleaved steps on one channel, taken back to back, are one send that drops only from a full queue and only its oldest |
| `Streams.QueueIsNewest` | internal/k8s/watcher.go:446-460 | what waits for an open subscriber between publications is the newest versions, without a gap |
| `Streams.PublisherNeverBlocks` | internal/k8s/watcher.go:450-460 | the send after a drop always has room, and the publisher can go on until it releases the lock |
| `Streams.PublisherFinishes` | internal/k8s/watcher.go:450-461 | each publisher step brings the release of the lock closer; consumers do not set it back |
| `Streams.NothingSentAfterClose` | internal/k8s/watcher.go:762-767 | no step sends on a closed channel |
| `Streams.StepKeepsInv` | internal/k8s/watcher.go:422-461 | every step of the protocol keeps the invariant behind these |
| `Publisher.SnapshotPublisher.PublishIfChanged` | internal/k8s/watcher.go:435-461 | an unchanged snapshot is only counted; a new one gets the next version and is appended to every subscriber's queue, whose oldest entry makes room when it is full |
| `Publisher.SnapshotPublisher.Subscribe` | internal/k8s/watcher.go:357-372 | a new channel of at least one place starts with the latest snapshot, if there is one |
| `Publisher.SnapshotPublisher.Unsubscribe` | internal/k8s/watcher.go:762-767 | the channel is closed and no longer a subscriber |
| `Browser.NothingRejected` | ui/src/hooks/useTopologyStream.ts:80-92 | on one connection every message of an increasing stream is accepted, whatever was shown before |
| `Browser.NewestShown` | ui/src/hooks/useTopologyStream.ts:80-92 | for messages of one process in any order, the newest is shown, and of several with one version the first to come |
| `Browser.DrainedShowsLatest` | ui/src/hooks/useTopologyStream.ts:106-131 | a browser whose channel is drained shows the latest snapshot, also after connecting to another instance |
| `RebuildLoop.ActKeepsInv` | internal/k8s/watcher.go:245-289 | every step of stores, handlers, debounce, ticker, build, publisher and consumers keeps the invariant that no change is forgotten |
| `RebuildLoop.NoLostUpdate` | internal/k8s/watcher.go:200-213 | at quiescence the latest snapshot is a build of the stores as they are, also for changes before the ready flag was set or during a build |
| `RebuildLoop.BrowserConverges` | internal/k8s/watcher.go:408-461 | at quiescence a browser that received all its channel held shows the stores as they are |
| `RebuildLoop.NeverStuck` | internal/k8s/watcher.go:245-289 | unless quiescent, or idle after a failed build, some step other than a change, tick or consumer is possible |
| `RebuildProgress.ProgressCosts` | internal/k8s/watcher.go:245-289 | every step that needs no new change, tick, failure or consumer leaves less to do, counted over owed and pending requests, the debounce, the build and the publication |
| `RebuildProgress.Settles` | internal/k8s/watcher.go:245-289 | from every reachable state that is not idle after a failed build, however such steps are scheduled, they run out, and then the latest snapshot is a build of the stores as they are |
| `RebuildLoop.FailedBuildWaits` | internal/k8s/watcher.go:422-432 | a failed build is not retried until a change or the ticker asks for it |
| `RebuildProgress.TickRecovers` | internal/k8s/watcher.go:245-289 | a tick ends every wait after a failed build |
| `RebuildProgress.BuildStarts` | internal/k8s/watcher.go:245-289 | a build starts only at the start, by the ticker or by a request, debounced when there is a delay, reads everything anew and disarms the timer |
| `NoRepeats.VersionsDiffer` | internal/k8s/watcher.go:435-441 | in every run two successive versions that a consumer gets differ in content |
| `RebuildProgress.FailedBuildHidesChange` | internal/k8s/watcher.go:422-432 | a concrete run in which a store changed and the build for it fails, and the latest snapshot stays the old one through every later step that is no change and no tick |
| `InformerHealths.DegradedExactly` | internal/k8s/informer_health.go:103-148 | after every sequence of events a tracked resource is degraded if and only if a lasting error came after its last reset, and since the first such error; a list success alone resets nothing |
| `InformerHealths.ErrorsExactly` | internal/k8s/informer_health.go:123-148 | the error count and the last error are those of the lasting errors since the resource was last tracked |
| `InformerHealths.TrackedExactly` | internal/k8s/informer_health.go:57-76 | a resource is tracked if and only if it was tracked after it was last forgotten |
| `InformerHealths.InformerHealth.RegisterResource` | internal/k8s/informer_health.go:57-66 | registering a resource adds its track event to the history that the state follows |
| `InformerHealths.InformerHealth.ForgetResource` | internal/k8s/informer_health.go:70-76 | forgetting a resource adds its untrack event |
| `InformerHealths.InformerHealth.RecordSuccess` | internal/k8s/informer_health.go:103-121 | the state follows the events and onChange has fired once for every flip |
| `InformerHealths.InformerHealth.RecordError` | internal/k8s/informer_health.go:123-148 | transient closes and unknown resources change nothing; otherwise the state follows the events and onChange has fired once for every flip |
| `InformerHealths.InformerHealth.SnapshotHealth` | internal/k8s/informer_health.go:212-227 | the degraded resources sorted by name, and the status degraded exactly when there are some |
| `InformerHealths.SameHealth` | internal/k8s/informer_health.go:231-241 | compares status, names and sync state position by position |
| `InformerHealths.AlikeExactly` | internal/k8s/informer_health.go:229-241 | two reports count as the same if and only if the same resources are degraded with the same sync state |
| `OptionalInformers.PreferredOptionalResources` | internal/k8s/dynamic_resources.go:40-57 | the first available version of each group and resource, in table order |
| `OptionalInformers.PreferredExactly` | internal/k8s/dynamic_resources.go:40-57 | an entry is selected if and only if it is available and no earlier entry of its group and resource is |
| `OptionalInformers.StablePreferred` | internal/k8s/dynamic_resources.go:16-57 | another version than the stable one is selected only when that is not available |
| `OptionalInformers.PreferredEnabledIdempotent` | internal/k8s/watcher.go:733-750 | selecting again from what was selected selects the same |
| `OptionalSync.InformerSet.Sync` | internal/k8s/watcher.go:655-697 | the new running informers, tracked names and rebuild requests, in whatever order the maps are iterated; nothing changes when discovery fails |
| `OptionalSync.WantedExactly` | internal/k8s/watcher.go:595-628 | wanted is exactly the first served version per group and resource whose API is enabled |
| `OptionalSync.SyncReachesWanted` | internal/k8s/watcher.go:655-697 | after a sync without registration errors running is exactly wanted, one version each, and the tracked names match if and only if late failures left no unwanted name |
| `OptionalSync.SyncKeepsShape` | internal/k8s/watcher.go:655-697 | every sync, also one with registration errors, keeps one version each and tracks whatever runs |
| `OptionalSync.SyncAgainDoesNothing` | internal/k8s/watcher.go:655-697 | repeating a sync stops, starts, tracks and requests nothing |
| `OptionalSync.ReportFollowsRunning` | internal/k8s/watcher.go:655-731 | after every sequence of syncs, with discovery failures and registrations that fail before their health is tracked, the health report names exactly the running informers, one version each |
| `OptionalSync.ErrorFreeSyncRecovers` | internal/k8s/watcher.go:655-697 | whatever went wrong before, a sync without errors leaves exactly the wanted informers running and reported |
| `OptionalSync.LateFailureLingers` | internal/k8s/watcher.go:716-718 | if a registration could fail after its health is tracked, its name would stay in the report through all later syncs; a fresh informer cannot fail there |

## Left out

- Node and edge IDs as text: names contain no `/` or `:`, so IDs are datatype values and a route ID is its position; the order of ID texts is a parameter.
- Message, next-step and kubectl text, labels for display and copied metadata: a node's `NodeInfo` holds the objects its data is computed from.
- Inventory counts: they are taken from the unpruned lists, so pruning does not touch them.
- Layout positions: rows are modelled, columns are a function of the kind; the pruning theorem excludes rows because they are numbered before scoping.
- In-place change of a route resource's properties during a build: resources are fresh for each build.
- Canary annotations: `canaryRule` is the summary that the annotation parser returns.
- Text search for controller names: the identity text is a set of terms without spaces; letter case is ASCII.
- The `Slices` names and the order of Pod lists that only decide the order of additions with equal results.
- Full order-independence of the build: Pods sharing an address in a namespace make the address index depend on their order, and the label of a canary edge is that of the last of several canaries with one Service; `IngressOrder` covers Ingress order, route nodes, and which nodes and edges there are.
- Unstructured objects, v1beta1 conversion and discovery parsing: `ExternalResource` and `Discovery` are inputs; a partial discovery failure counts as its result.
- client-go informers, listers, timers and contexts: stores change and then owe a handler call; the debounce timer is an armed flag; cancellation is not modelled.
- The `Synced` bit and error text in published health do not trigger a rebuild and are not part of what converges.
- observedWatch.forward: the goroutine that turns watch events into success reports appears only as the events it reports.
- Waiting for initial cache sync, metrics and status pages.
- WebSocket and HTTP transport: a connection delivers the messages of its channel in order until it ends.
- Floating-point tokens: credit is an exact integer number of nanoseconds, one refill period per token.
- ThrottleRuns.WindowBound: covers failures that directly follow their own allow; several submissions between one submission's allow and fail are not modelled.
- Logins.ClientGuessesBounded: below the cap on tracked clients; at the cap clients share a bucket, which `FailuresBounded` bounds as one key.
- HMAC, SHA and base64 are parameters of `Sessions`; base64 decoding undoes encoding and produces no dot.
- Failure to read random bytes when a session is issued.
- Credential comparison, cookies, origin checks, redirects and trusted-proxy address parsing.
- React components, Helm charts, Docker files and scripts.
