# maestro, modelled in Dafny

maestro puts an Envoy sidecar in front of Kubernetes workloads and configures it. This
project models the parts of it that decide things:

- **the endpoint registrar** (`pkg/reconciler/registrar.go`, `internal/types`): a
  reconciler that keeps, per service and per EndpointSlice, the endpoints a slice
  lists, keyed by `protocol:ip:port`, and takes their union per service;
- **the ProxyConfig controllers** (`pkg/controller/controller.go` and the earlier
  `pkg/controllers/controller.go`): work-queue controllers that turn each ProxyConfig
  into a ConfigMap holding the rendered Envoy bootstrap, check ownership, update the
  data and write the ProxyConfig's status;
- **the Envoy configuration builders** (`internal/core/config/envoy`,
  `internal/core/config/proxy`, `internal/proxy`, `internal/util/sni.go`): virtual
  hosts, HTTP filter chains (authentication, authorization, router), TLS transport
  sockets, listeners, clusters, health checks and the bootstrap of the sidecar and of
  the controller;
- **the sidecar injection webhook** (`pkg/http/handlers/mutation.go`,
  `internal/config`): the mutation policy, the RFC 6902 JSON patch it emits and what
  that patch does to a pod;
- **the smaller pieces**: the health-checked HTTP server (`pkg/http/server`), the push
  version of the sidecar's xDS server (`internal/core/sidecar/server.go`) and the gRPC
  health probe's header flag and exit code (`cmd/grpcprobe.go`).

State that the source changes in place is a Dafny `class`: the registrar's registry,
each controller with its listers, API-call log, event log and work-queue log, the
HTTP server's health flag, the xDS server's counter, the probe's header metadata and
the admission response. Each method is proved against a function that states the
decision, and properties are lemmas about those functions. Builders that only
compute values are functions. Go loops that append are methods with loop
invariants, each proved equal to its function.

Modules: `Wrappers`, `Strings` (decimal formatting, split and join, ASCII case,
whitespace trim), `Types`, `Registrar`, `RegistrarProperties`, `Kube` (owner
references, tombstones, events and queue operations of the Kubernetes client
libraries), `Controller`, `ControllerProperties`, `LegacyController`, `Util`,
`EnvoyApi`, `EnvoyConfig`, `ProxyEnvoy`, `Proxy`, `ProxyBootstrap`, `Sidecar`,
`Mutation`, `HttpServer`, `XdsSidecarVersion`, `GrpcProbe`.

Where the code and its description disagree, the model follows the code:

- A non-empty slice is merged into what the registry held for it, and a stale
  endpoint survives. It is not replaced.
- The newer controller sends the object it read, not its status copy.
- The webhook only accepts the resource group "core".

## Model

| member | source | states |
|---|---|---|
| Types.ToUint32 | internal/types/endpoint.go:14 | `uint32(*port)`: the same value modulo 2^32, and the value itself for a non-negative port |
| Types.NewServiceID | internal/types/service.go:7-9 | the name, a dot and the namespace (the properties are ServiceIDParts and ServiceIDInjective) |
| Types.ServiceID.ToString | internal/types/service.go:11-13 | the underlying string |
| Types.NewEndpoint | internal/types/endpoint.go:11-17 | the endpoint holds the address, the port converted to uint32 and the protocol, with both pointers required non-nil |
| Types.Endpoint.Key | internal/types/endpoint.go:19-21 | protocol, ':', address, ':' and the decimal port (KeyEndsWithPort recovers the port) |
| Types.ServiceIDParts | internal/types/service.go:7-9 | for a dot-free namespace, the ID is the name, then a dot, then the namespace, which is what follows the last dot |
| Types.ServiceIDInjective | internal/types/service.go:7-9 | with dot-free namespaces, distinct (name, namespace) pairs give distinct service IDs |
| Types.KeyEndsWithPort | internal/types/endpoint.go:19-21 | what follows the last ':' of the key is the decimal port |
| Types.KeyInjective | internal/types/endpoint.go:19-21 | with a colon-free protocol, equal keys mean equal endpoints, IPv6 addresses included |
| Types.KeyCollidesWithColonInProtocol | internal/types/endpoint.go:19-21 | a protocol containing ':' lets two different endpoints share a key |
| Registrar.SliceServiceID | pkg/reconciler/registrar.go:49 | the ID is the service-name label, a dot and the namespace; a missing label reads as "" |
| Registrar.PortEndpoint | pkg/reconciler/registrar.go:78-83 | the endpoint of a port with a Port value: the address, the port, and the AppProtocol or "tcp" when it is nil |
| Registrar.SliceEndpoints | pkg/reconciler/registrar.go:75-88 | the endpoints the triple loop produces, in order: per slice endpoint, per address, per port with a Port value (characterised by SliceEndpointsMembers) |
| Registrar.InsertAll | pkg/reconciler/registrar.go:84 | the entries after storing each produced endpoint under its key, later ones overwriting earlier ones (characterised by InsertAllSpec) |
| Registrar.ApplySlice | pkg/reconciler/registrar.go:59-89 | the registry after one fetched slice: with no endpoints the slice is dropped from its service if present, otherwise its entries gain the produced endpoints (properties in RegistrarProperties) |
| Registrar.InsertAllSpec | pkg/reconciler/registrar.go:84 | storing under the key: the keys are the old ones plus the produced keys; an entry changes only to a produced endpoint with that key; keyed maps stay keyed |
| Registrar.InsertAllSnoc | pkg/reconciler/registrar.go:84 | storing one more endpoint overwrites the entry under its key |
| Registrar.InsertAllSize | pkg/reconciler/registrar.go:84 | endpoints with fresh, pairwise distinct keys each add one entry |
| Registrar.Prepared | pkg/reconciler/registrar.go:67-73 | after the two existence checks, registry[svc][name] exists |
| Registrar.StorePrepared | pkg/reconciler/registrar.go:67-73 | preparing keeps the slice's existing entries and every other service and slice |
| Registrar.FillSlice | pkg/reconciler/registrar.go:75-88 | the triple loop stores exactly the endpoints of SliceEndpoints, in order, into the slice's entries |
| Registrar.ApplySliceKeepsValid | pkg/reconciler/registrar.go:59-89 | reconciling a slice keeps every entry stored under its own key |
| Registrar.ValuesOfKeyed | pkg/reconciler/registrar.go:112-115 | the values of a keyed map are as many as its keys, each under its own key |
| Registrar.UnionKeys | pkg/reconciler/registrar.go:104-110 | the union drawn from and covering every slice has exactly the keys of all slices |
| Registrar.UnionBySlice | pkg/reconciler/registrar.go:102-110 | the first loop's map holds each key of each slice, with a value some slice holds under that key |
| Registrar.MergeSlice | pkg/reconciler/registrar.go:104-109 | the inner loop stores every key of the slice, keeps every earlier key and takes each value from some slice under its key |
| Registrar.ValuesByKey | pkg/reconciler/registrar.go:112-115 | the second loop collects exactly the values of the map |
| Registrar.RegistrarReconciler.constructor | pkg/reconciler/registrar.go:30-39 | the registry starts empty and the cluster name is kept |
| Registrar.RegistrarReconciler.Reconcile | pkg/reconciler/registrar.go:41-99 | either Get failing returns its error with the registry unchanged; otherwise the registry becomes ApplySlice of the first read's name and ID with the second read's endpoints and ports; the result is always empty |
| Registrar.RegistrarReconciler.GetUniqueEndpointsForService | pkg/reconciler/registrar.go:101-118 | unknown service: none; otherwise one endpoint per distinct key over all the service's slices, each stored in some slice under its key |
| RegistrarProperties.PortEndpointsMembers | pkg/reconciler/registrar.go:77-85 | the inner loop produces an endpoint exactly for each port with a Port value |
| RegistrarProperties.AddressEndpointsMembers | pkg/reconciler/registrar.go:76-87 | the middle loop produces exactly the endpoints of each address with each such port |
| RegistrarProperties.SliceEndpointsByEndpoint | pkg/reconciler/registrar.go:75-88 | the outer loop produces exactly the endpoints of each slice endpoint |
| RegistrarProperties.SliceEndpointsMembers | pkg/reconciler/registrar.go:75-88 | an endpoint is produced iff it comes from some address of some endpoint and some port with a Port value |
| RegistrarProperties.ReconcileWritesOnlyItsSlice | pkg/reconciler/registrar.go:59-89 | only registry[svc][name] changes; other services and slices keep their entries; svc is never removed |
| RegistrarProperties.EmptySliceRemovesItsEntry | pkg/reconciler/registrar.go:59-64 | a slice without endpoints deletes its own entry and nothing else, and the service's entry stays |
| RegistrarProperties.NonEmptySliceMerges | pkg/reconciler/registrar.go:65-88 | a non-empty slice is merged: its entry exists afterwards, old keys stay, and an entry changes only to a produced endpoint with that key |
| RegistrarProperties.EveryPairIsStored | pkg/reconciler/registrar.go:75-88 | every (address, port) pair with a Port value is stored under its key, and every new entry is such an endpoint |
| RegistrarProperties.SliceWithoutPortsKeepsEntry | pkg/reconciler/registrar.go:67-88 | with no ports nothing is stored, but the slice's entry is still created |
| RegistrarProperties.NoPortsNoEndpoints | pkg/reconciler/registrar.go:75-88 | without ports no endpoint is produced |
| RegistrarProperties.AddressesNoPorts | pkg/reconciler/registrar.go:76-87 | addresses without ports produce no endpoint |
| RegistrarProperties.StaleEndpointSurvives | pkg/reconciler/registrar.go:65-88 | an endpoint the slice no longer lists stays in the registry |
| RegistrarProperties.SingleEndpointSlice | pkg/reconciler/registrar.go:75-88 | one address and one port with a value give exactly one endpoint |
| RegistrarProperties.TwoAddressesTwoPortsGiveFour | pkg/reconciler/registrar.go:75-88 | two addresses and two distinct ports store four entries |
| RegistrarProperties.NilPortSkippedAndTcpDefault | pkg/reconciler/registrar.go:78-82 | a port without a value is skipped, and a nil AppProtocol becomes "tcp" |
| RegistrarProperties.TwoSlicesOfOneService | pkg/reconciler/registrar.go:41-118 | two slices of one service are both filed under it, and the service's keys are the union of their keys |
| RegistrarProperties.SharedEndpointCountsOnce | pkg/reconciler/registrar.go:101-118 | an endpoint held by two slices is returned once |
| Kube.NameOf | pkg/controller/controller.go:424-431 | cache.ObjectToName: the key is the object's namespace and name |
| Kube.ControllerOf | pkg/controller/controller.go:456 | the first owner reference marked controller, or none iff no reference is marked |
| Kube.GetControllerOf | pkg/controller/controller.go:460 | the controller reference among the object's owner references |
| Kube.IsControlledBy | pkg/controller/controller.go:356 | the object has a controller reference and it carries the owner's UID |
| Kube.ConfigMapUpdateRelevant | pkg/controller/controller.go:192-200 | an update counts only when the resource version changed |
| Kube.NewControllerRef | pkg/controller/controller.go:481-501 | a controller reference with block-owner-deletion, carrying the owner's UID and name, the kind and the API version |
| Kube.ControllerRefControls | pkg/controller/controller.go:356-360 | an object whose only owner reference is a controller reference to owner is controlled by owner and by nothing with another UID |
| Kube.Unwrap | pkg/controller/controller.go:441-455 | an object is itself, a tombstone yields what it wraps, anything else yields nothing |
| Kube.WorkItemOps | pkg/controller/controller.go:268-304 | a processed item gets Forget iff the sync succeeded, AddRateLimited iff it failed, then Done, and is never re-added directly |
| Kube.OwnerToEnqueue | pkg/controller/controller.go:438-476 | a target exists only for an object whose controller reference has the owner kind and is in the lister |
| Controller.ConfigMapName | pkg/controller/controller.go:515-517 | the name is the prefix followed by the ProxyConfig's name |
| Controller.ConfigMapNameInjective | pkg/controller/controller.go:515-517 | under one prefix, distinct ProxyConfigs get distinct ConfigMap names |
| Controller.ConfiguredPrefix | pkg/controller/controller.go:168-174 | with no option the default "proxy-config-"; otherwise the last option applied |
| Controller.CommandLineOptions | cmd/controller.go:56-58 | the prefix option is passed only for a non-empty flag value |
| Controller.CommandLinePrefix | cmd/controller.go:56-58 | an empty flag keeps the default prefix; any other value replaces it |
| Controller.ConfigMapData | pkg/controller/controller.go:503-513 | the one-entry map under "envoy.yaml" when rendering succeeds, the renderer's error otherwise |
| Controller.NewProxyConfigConfigMap | pkg/controller/controller.go:481-501 | the ConfigMap is named by the prefix, lives in the ProxyConfig's namespace, is labelled controller=maestro, holds the render and is controlled by the ProxyConfig |
| Controller.WriteStatus | pkg/controller/controller.go:403-419 | the status write of the lister's object, then the success event only when the write succeeded (WriteStatusSendsOriginal) |
| Controller.SyncConfigMap | pkg/controller/controller.go:354-401 | the ownership check, the render, an update only when the data differs, then the status write (SyncConfigMapShape, ForeignOwnerStops, UpdateOnlyWhenDataDiffers) |
| Controller.SyncProxyConfig | pkg/controller/controller.go:323-387 | absorbs an empty name, returns a ConfigMap lister error, creates a missing ConfigMap and continues with SyncConfigMap on the created or found one |
| Controller.Sync | pkg/controller/controller.go:309-387 | syncHandler as a function of the lister contents and write outcomes (SyncShape, SyncAbsorbsMissingProxyConfig, SyncCreatesMissingConfigMap) |
| Controller.StatusCopy | pkg/controller/controller.go:403-416 | the copy keeps metadata and content and has status {ResourceVersion: the ConfigMap's} |
| Controller.MaestroController.constructor | pkg/controller/controller.go:112-206 | the listers are kept, the logs are empty, and the prefix is the default with the options applied in order |
| Controller.MaestroController.WithConfigMapPrefix | pkg/controller/controller.go:209-213 | the option sets the prefix and nothing else |
| Controller.MaestroController.UpdateProxyConfigStatus | pkg/controller/controller.go:403-419 | the status write sends the object read from the lister, and its error is returned |
| Controller.MaestroController.SyncExisting | pkg/controller/controller.go:354-386 | ownership check, data update and status write as the Sync function decides |
| Controller.MaestroController.SyncHandler | pkg/controller/controller.go:309-387 | the error, the writes and the events are those of the Sync function; listers and queue are unchanged |
| Controller.MaestroController.ProcessNextWorkItem | pkg/controller/controller.go:268-304 | shut down: false and nothing happens; otherwise the sync's writes and events, then the queue operations of WorkItemOps |
| Controller.MaestroController.EnqueueProxyConfig | pkg/controller/controller.go:424-431 | adds the object's key to the queue and nothing else |
| Controller.MaestroController.HandleObject | pkg/controller/controller.go:438-476 | enqueues exactly OwnerToEnqueue's target, or nothing |
| Controller.MaestroController.OnConfigMapUpdate | pkg/controller/controller.go:190-203 | an update with an unchanged resource version is ignored; otherwise handled as an object |
| ControllerProperties.WriteStatusSendsOriginal | pkg/controller/controller.go:403-419 | the status write sends the original object, not the copy with the ConfigMap's resource version; the success event follows only a successful write |
| ControllerProperties.SyncConfigMapShape | pkg/controller/controller.go:354-386 | after the ConfigMap is obtained: at most an update and then the status write, which is last, carries u and is sent only after the update succeeded; a failed update or status write is the returned error with no event; otherwise exactly one event |
| ControllerProperties.ForeignOwnerStops | pkg/controller/controller.go:356-360 | a ConfigMap controlled by something else: a warning event, its message as the error, and no write |
| ControllerProperties.UpdateOnlyWhenDataDiffers | pkg/controller/controller.go:362-376 | an update is sent iff the rendered data differs, and it replaces Data wholesale |
| ControllerProperties.SyncAbsorbsMissingProxyConfig | pkg/controller/controller.go:311-332 | a missing ProxyConfig or an empty name is success with nothing written; other lister errors are returned with nothing written |
| ControllerProperties.SyncCreatesMissingConfigMap | pkg/controller/controller.go:335-352 | a missing ConfigMap is created first, named by the prefix, controlled by the ProxyConfig only, holding the render; after a successful create no ownership warning follows |
| ControllerProperties.SyncShape | pkg/controller/controller.go:309-387 | for every input: the writes come in the order create, update, status, at most one of each; every write but the last succeeded, a failed last write is the returned error with no event, a successful last write is the status write and the sync succeeds; the status write sends the lister's object; success without writes iff the ProxyConfig is gone or unnamed |
| ControllerProperties.HandleObjectEnqueuesOwner | pkg/controller/controller.go:438-476 | enqueues exactly the ProxyConfig controller owner found in the object's namespace; a tombstone acts as the object it wraps |
| LegacyController.NewConfigMap | pkg/controllers/controller.go:352-369 | named and namespaced as the ProxyConfig, labelled controller=<name>, controlled by it, holding the bootstrap under "envoy.yaml" |
| LegacyController.SyncConfigMap | pkg/controllers/controller.go:259-275 | the ownership check, then the status write of the status copy and the success event only when it succeeded |
| LegacyController.Sync | pkg/controllers/controller.go:222-276 | syncHandler as a function of the lister contents and write outcomes (LegacySyncShape, LegacyExistingConfigMap, LegacyCreatesUnderOwnName) |
| LegacyController.StatusCopy | pkg/controllers/controller.go:278-290 | the copy keeps metadata and spec and takes the ConfigMap's resource version as its status |
| LegacyController.MaestroController.constructor | pkg/controllers/controller.go:73-137 | listers, API version and bootstrap kept; logs empty |
| LegacyController.MaestroController.SyncExisting | pkg/controllers/controller.go:261-275 | ownership check, then the status copy is written and the success event follows a successful write |
| LegacyController.MaestroController.SyncHandler | pkg/controllers/controller.go:222-276 | the error, writes and events are those of the Sync function; listers and queue are unchanged |
| LegacyController.MaestroController.ProcessNextWorkItem | pkg/controllers/controller.go:181-217 | shut down: false and nothing happens; otherwise the sync, then Forget or AddRateLimited, then Done |
| LegacyController.MaestroController.HandleObject | pkg/controllers/controller.go:309-347 | enqueues exactly the ProxyConfig controller owner in the lister, or nothing |
| LegacyController.MaestroController.OnConfigMapUpdate | pkg/controllers/controller.go:121-134 | an update with an unchanged resource version is ignored; otherwise handled as an object |
| LegacyController.LegacyCreatesUnderOwnName | pkg/controllers/controller.go:246-250 | a missing ConfigMap is created under the ProxyConfig's own name, controlled by it, and no warning follows a successful create |
| LegacyController.LegacyDataIndependentOfProxyConfig | pkg/controllers/controller.go:365-367 | the created data is the same for every ProxyConfig |
| LegacyController.LegacySyncShape | pkg/controllers/controller.go:222-276 | for every input: no ConfigMap update; at most a create and then the status write, which is last; a failed write is the returned error with no event, the status write follows only a successful create and ends in success; it carries the ProxyConfig's metadata and spec and the resource version of the ConfigMap checked (the existing one, or the one the create returned); success without writes iff the ProxyConfig is gone or unnamed |
| LegacyController.LegacyExistingConfigMap | pkg/controllers/controller.go:246-275 | a controlled ConfigMap leads straight to the status write carrying its resource version; a foreign one gives a warning and no write |
| Util.HostnameFromServiceName | internal/util/sni.go:8-12 | the dot-separated labels in reverse order, joined by dots (the properties are the rows below) |
| Util.HostnameLabels | internal/util/sni.go:8-12 | the hostname's labels are the service name's labels reversed |
| Util.HostnameInvolution | internal/util/sni.go:8-12 | reversing twice gives the service name back |
| Util.HostnamePreservesCharacters | internal/util/sni.go:8-12 | the hostname is a permutation of the name's characters with the same length and dots |
| Util.HostnameOfSingleLabel | internal/util/sni.go:8-12 | a name without dots is its own hostname |
| Util.HostnameOfThreeLabels | internal/util/sni.go:8-12 | three dot-free labels a.b.c become c.b.a |
| Util.HostnameOfFakeTestService | internal/util/sni.go:8-12 | "fake.test.service" becomes "service.test.fake" |
| EnvoyApi.Authn | internal/proxy/envoy/httpfilter.go:20-25 | the JWT authentication filter, CORS preflight bypass off |
| EnvoyApi.Authz | internal/proxy/envoy/httpfilter.go:27-47 | external authorization over gRPC to the named cluster, API v3, 500 ms, 8192 bytes, partial messages allowed, failing closed |
| EnvoyApi.Router | internal/proxy/envoy/httpfilter.go:49-52 | the router filter |
| EnvoyApi.NewHttpConnectionManager | internal/core/config/envoy/filter.go:34-48 | automatic codec, inline route config "local_route" over the virtual hosts, RFC 1918 ranges internal, no filters yet |
| EnvoyApi.BaseHealthCheck | internal/core/config/envoy/healthcheck.go:43-54 | every 10 s, 1 s timeout, thresholds of one, no checker |
| EnvoyApi.HttpHealthCheck | internal/core/config/envoy/healthcheck.go:18-29 | the base check with an HTTP checker of the host and path |
| EnvoyApi.GrpcHealthCheck | internal/core/config/envoy/healthcheck.go:31-41 | the base check with a gRPC checker of the service name |
| EnvoyApi.AdminResource | internal/proxy/admin.go:13-26 | the admin interface listens on 0.0.0.0:9901 |
| EnvoyConfig.RoutedVirtualHost | internal/core/config/envoy/vhost.go:7-28 | one domain, one route on "/" to the cluster named as the host, no headers added |
| EnvoyConfig.HttpFilters | internal/core/config/envoy/filterchain.go:32-46 | authn iff enabled, authz iff a cluster is named and to that cluster, router last, in strict stage order |
| EnvoyConfig.HcmHttpFilters | internal/core/config/envoy/filterchain.go:32-46 | the appends build exactly HttpFilters |
| EnvoyConfig.InboundChain | internal/core/config/envoy/filterchain.go:17-30 | the connection manager "inbound_http" over the virtual hosts with the HTTP filters, and no transport socket (InboundChainShape) |
| EnvoyConfig.HttpTLSFilterChain | internal/core/config/envoy/filterchain.go:17-30 | the chain is InboundChain |
| EnvoyConfig.GenerateInboundHTTPFilterChain | internal/core/config/envoy/filterchain.go:9-15 | one chain, InboundChain |
| EnvoyConfig.InboundChainShape | internal/core/config/envoy/filterchain.go:17-30 | one network filter, the connection manager "inbound_http" over the virtual hosts with HttpFilters, and no TLS |
| EnvoyConfig.HttpFiltersCases | internal/core/config/envoy/filterchain.go:32-46 | router only; authn and router; authz and router; all three |
| EnvoyConfig.InboundHTTPListener | internal/core/config/envoy/listener.go:14-29 | "inbound_http" on 0.0.0.0:18080 with the inbound chain |
| EnvoyConfig.NewCluster | internal/core/config/envoy/cluster.go:77-84 | the name and discovery type, nothing else |
| EnvoyConfig.LocalCluster | internal/core/config/envoy/cluster.go:9-46 | static; one endpoint at address:port; health-check port hcPort or port when nil |
| EnvoyConfig.LocalUDSCluster | internal/core/config/envoy/cluster.go:48-75 | static; one endpoint on the Unix socket path |
| EnvoyConfig.LocalClusterTargets | internal/core/config/envoy/cluster.go:9-75 | a local cluster reaches address:port only; a UDS cluster its path only |
| ProxyEnvoy.SpiffeSecretName | internal/proxy/envoy/filterchain.go:42-76 | the validation secret is "spiffe://" followed by the domain |
| ProxyEnvoy.TlsSocket | internal/proxy/envoy/filterchain.go:42-76 | the TLS socket validates with that secret, fetched over gRPC from local_spire |
| ProxyEnvoy.TlsInboundChain | internal/proxy/envoy/filterchain.go:23-79 | the connection manager with the HTTP filters, client certificate details sanitised and set, and the SPIFFE TLS socket only for a non-empty trust domain |
| ProxyEnvoy.HttpTLSFilterChain | internal/proxy/envoy/filterchain.go:23-79 | the chain is TlsInboundChain |
| ProxyEnvoy.GenerateInboundHTTPFilterChain | internal/proxy/envoy/filterchain.go:15-21 | one chain, TlsInboundChain |
| ProxyEnvoy.TlsChainShape | internal/proxy/envoy/filterchain.go:23-95 | one connection manager with sanitised client cert details and the URI set, the filters of HttpFilters, and TLS iff the domain is non-empty |
| ProxyEnvoy.SecretNameInjective | internal/proxy/envoy/filterchain.go:42-76 | two domains never share a validation secret |
| ProxyEnvoy.TlsInboundHTTPListener | internal/proxy/static.go:19-35 | "inbound_http" on 0.0.0.0:18080 with the TLS chain |
| Proxy.LocalServiceName | internal/proxy/vhosts.go:13-27 | "local_service_" followed by the decimal port |
| Proxy.LocalServiceNameInjective | internal/proxy/vhosts.go:13-27 | different ports give different names |
| Proxy.CatchAllVHost | internal/proxy/vhosts.go:29-57 | every domain and path, a forced x-maestro-catch-all: true header, and a direct 404 |
| Proxy.VHosts | internal/proxy/vhosts.go:13-27 | one virtual host per port in order, then the catch-all |
| Proxy.GenerateVHosts | internal/proxy/vhosts.go:13-27 | the append loop builds exactly VHosts |
| Proxy.VHostsShape | internal/proxy/vhosts.go:13-57 | port i's host is local_service_<port>, serves <reversed name>_<port> and routes to itself; the catch-all routes to no cluster |
| Proxy.RouteTargets | internal/proxy/vhosts.go:13-57 | every cluster a route targets is in the set |
| Proxy.VHostsRouteTargets | internal/proxy/vhosts.go:13-57 | the routed clusters are exactly local_service_<port> for the service's ports |
| Proxy.FakeTestServiceVHosts | internal/proxy/vhosts.go:13-57 | "fake.test.service" on one port gives its local_service host on service.test.fake_<port> and the catch-all |
| Proxy.AuthzClusterName | internal/proxy/static.go:19-35 | local_opa with authz, else "" |
| Proxy.StaticListeners | internal/proxy/static.go:19-35 | the TLS inbound listener over the service's virtual hosts, alone |
| Proxy.GenerateStaticListeners | internal/proxy/static.go:19-35 | one TLS inbound listener over the service's virtual hosts |
| Proxy.GenerateStaticClusters | internal/proxy/static.go:37-41 | no clusters |
| Proxy.GenerateBootstrap | internal/proxy/config.go:14-20 | admin and static resources only: no node, no dynamic resources |
| Proxy.ControllerBootstrapShape | internal/proxy/config.go:14-20 | one listener; authn iff the service has it; authz iff it has it, via local_opa; TLS iff the domain is non-empty; its routes target clusters the bootstrap never defines |
| ProxyBootstrap.BootstrapGenerator.SvcLocalCluster | internal/core/config/proxy/cluster.go:15-33 | local_service_<port>, static at 127.0.0.1:port, explicit HTTP/1 |
| ProxyBootstrap.BootstrapGenerator.XdsLocalCluster | internal/core/config/proxy/cluster.go:35-59 | local_xds at the xDS address with the configured discovery type, one gRPC health check, HTTP/2 |
| ProxyBootstrap.BootstrapGenerator.OpaLocalCluster | internal/core/config/proxy/cluster.go:61-81 | local_opa at the OPA address, checked over HTTP on the health port and path, HTTP/2 |
| ProxyBootstrap.BootstrapGenerator.SpireLocalCluster | internal/core/config/proxy/cluster.go:83-99 | local_spire on the SPIRE socket, HTTP/2 |
| ProxyBootstrap.BootstrapGenerator.StaticClusters | internal/core/config/proxy/bootstrap.go:119-134 | local_xds, local_opa, local_spire when SPIRE is enabled, then one cluster per service port (StaticClustersOrder) |
| ProxyBootstrap.BootstrapGenerator.StaticListeners | internal/core/config/proxy/bootstrap.go:80-96 | the inbound listener over the service's virtual hosts, alone |
| ProxyBootstrap.BootstrapGenerator.GenerateStaticClusters | internal/core/config/proxy/bootstrap.go:119-134 | the appends build exactly StaticClusters |
| ProxyBootstrap.BootstrapGenerator.GenerateStaticListeners | internal/core/config/proxy/bootstrap.go:80-96 | the appends build exactly StaticListeners |
| ProxyBootstrap.BootstrapGenerator.DynamicResource | internal/core/config/proxy/bootstrap.go:98-117 | ADS over delta gRPC via local_xds, CDS over ADS at v3 |
| ProxyBootstrap.BootstrapGenerator.BootstrapConfiguration | internal/core/config/proxy/bootstrap.go:47-78 | the node, the admin interface, the static listeners and clusters, and the dynamic resources |
| ProxyBootstrap.NewBootstrapGenerator | internal/core/config/proxy/bootstrap.go:34-45 | the node is serviceNode in serviceCluster; the configs are kept |
| ProxyBootstrap.StaticClustersOrder | internal/core/config/proxy/bootstrap.go:119-134 | local_xds, local_opa, local_spire iff SPIRE is enabled, then the ports' clusters in order |
| ProxyBootstrap.ProtocolOptionsOfEveryCluster | internal/core/config/proxy/cluster.go:15-99 | every cluster has exactly the HttpProtocolOptions entry |
| ProxyBootstrap.RouteTargetsAreClusters | internal/core/config/proxy/bootstrap.go:80-134 | every routed cluster is a static cluster |
| ProxyBootstrap.RoutedClustersExist | internal/core/config/proxy/bootstrap.go:47-134 | the routed clusters, the authz cluster and the ADS cluster all exist; local_xds comes first |
| ProxyBootstrap.SidecarListenerFilters | internal/core/config/proxy/bootstrap.go:80-96 | authn iff the service has it; authz via local_opa iff it has it; no TLS socket whatever the SPIRE domain |
| Sidecar.Lookup | internal/config/sidecar.go:25 | a Go map read: the value, or "" for a missing key or a nil map |
| Sidecar.ProxyContainer | internal/config/sidecar.go:38-108 | "proxy", restart Always, non-root 65532, no privilege escalation, read-only root, ALL dropped, ports 9901 and 18080, two read-only mounts |
| Sidecar.ProxyVolumes | internal/config/sidecar.go:110-132 | the bootstrap ConfigMap volume "<service>-envoy-bootstrap" and the SPIFFE CSI volume, read-only |
| Sidecar.NewSidecarConfig | internal/config/sidecar.go:21-36 | the proxy as the one init container, no containers, the proxy volumes for the serviceName annotation |
| Sidecar.MountsReferenceVolumes | internal/config/sidecar.go:95-131 | every mount of the proxy names a volume the config adds, and the config volume names the service's bootstrap |
| Sidecar.MissingServiceName | internal/config/sidecar.go:25 | without the annotation the ConfigMap reference is "-envoy-bootstrap" |
| Mutation.MutationPolicy | pkg/http/handlers/mutation.go:98-126 | outside the ignored namespaces, status not "injected" and inject not n/not/false/off, letter case ignored |
| Mutation.MutationRequired | pkg/http/handlers/mutation.go:98-126 | required iff outside the ignored namespaces, not already injected and not opted out, case-insensitively |
| Mutation.PolicyCases | pkg/http/handlers/mutation.go:18-23 | kube-system, kube-public, injected and n/not/false/off are skipped; a pod without annotations elsewhere is mutated |
| Mutation.AddPatch | pkg/http/handlers/mutation.go:161-201 | one op per element; the first into an empty target adds a one-element array at the base path, the rest append at "/-" |
| Mutation.AddItems | pkg/http/handlers/mutation.go:161-180 | the loop builds exactly AddPatch |
| Mutation.AddContainer | pkg/http/handlers/mutation.go:161-180 | AddPatch of the containers |
| Mutation.AddVolume | pkg/http/handlers/mutation.go:182-201 | AddPatch of the volumes |
| Mutation.ApplyAppends | pkg/http/handlers/mutation.go:161-201 | "/-" adds onto a present array append in order (RFC 6902 section 4.1) |
| Mutation.AddPatchAppends | pkg/http/handlers/mutation.go:161-201 | applied to the target array, the patch gives target followed by the added elements |
| Mutation.AnnotationPatch | pkg/http/handlers/mutation.go:139-159 | per key in the given order: an add of the one-entry object when the target is nil or the key is empty in it, else a replace (AnnotationPatchOps) |
| Mutation.UpdateAnnotation | pkg/http/handlers/mutation.go:139-159 | for the key order Go's range happens to use, the loop builds AnnotationPatch |
| Mutation.AnnotationPatchOps | pkg/http/handlers/mutation.go:139-159 | one op per key; a replace iff the target is non-nil and this and every earlier key hold a value, else an add of a one-entry object |
| Mutation.AnnotationPatchSingle | pkg/http/handlers/mutation.go:139-159 | one key: a replace when it holds a value, else an add of the object holding it alone |
| Mutation.PointerTokens | pkg/http/handlers/mutation.go:153 | the reference tokens of a JSON pointer (RFC 6901), one per '/'-separated part |
| Mutation.ReplacePathTokens | pkg/http/handlers/mutation.go:153 | the replace path's tokens are metadata, annotations, then the unescaped key split at '/' |
| Mutation.PlainReplaceTokens | pkg/http/handlers/mutation.go:153 | a key without '/' or '~' is a single token |
| Mutation.ReplaceOfPlainKey | pkg/http/handlers/mutation.go:150-156 | such a key's replace changes that annotation and keeps the others |
| Mutation.ReplaceOfSlashedKeyFails | pkg/http/handlers/mutation.go:150-156 | a key holding '/', as sidecar.maestro.io/status does, makes the replace fail |
| Mutation.AddReplacesAllAnnotations | pkg/http/handlers/mutation.go:141-149 | a missing key's add replaces every annotation with the one new entry |
| Mutation.CreatePatch | pkg/http/handlers/mutation.go:129-137 | container ops, then volume ops, then annotation ops |
| Mutation.InjectionPatch | pkg/http/handlers/mutation.go:79-83 | the container patch, the volume patch and the status annotation patch for the pod's sidecar configuration (InjectionPatchShape) |
| Mutation.InjectionPatchShape | pkg/http/handlers/mutation.go:71-95 | exactly three ops: the two proxy volumes and the status annotation, and no container op, since the proxy is an init container |
| Mutation.AdmissionResponse.constructor | pkg/http/handlers/mutation.go:48 | nothing allowed and no patch yet |
| Mutation.Mutate | pkg/http/handlers/mutation.go:71-95 | always allowed without error; the JSON patch is InjectionPatch iff the policy requires mutation |
| Mutation.Handle | pkg/http/handlers/mutation.go:48-69 | a resource other than {core, v1, pods} or an undecodable pod is an error with the response untouched; otherwise the kind is set, the request is allowed, and the patch and its type are InjectionPatch and JSONPatch when the policy requires mutation and untouched otherwise |
| Mutation.OnlyCorePodsAccepted | pkg/http/handlers/mutation.go:49-57 | only {core, v1, pods} is accepted, so {"", v1, pods} is not |
| HttpServer.Server.constructor | pkg/http/server/server.go:23-45 | a new server is healthy with keep-alives on |
| HttpServer.Server.LivenessHandler | pkg/http/server/server.go:70-72 | always 204 |
| HttpServer.Server.ReadinessHandler | pkg/http/server/server.go:74-80 | 204 iff healthy, 503 iff not |
| HttpServer.Server.Shutdown | pkg/http/server/server.go:64-68 | keep-alives off and unhealthy, then the shutdown's error |
| HttpServer.Server.Start | pkg/http/server/server.go:51-62 | a serve error other than ErrServerClosed makes it unhealthy and is reported; otherwise nothing changes |
| HttpServer.ShutdownLifecycle | pkg/http/server/server.go:64-80 | ready, then not ready after a shutdown and after a second one, while still live |
| HttpServer.StartOutcomes | pkg/http/server/server.go:51-62 | a failed start reports and unreadies; ErrServerClosed leaves a new server ready |
| XdsSidecarVersion.Pad | internal/core/sidecar/server.go:76 | digits only, at least the width, zeros then the decimal number |
| XdsSidecarVersion.Zone | internal/core/sidecar/server.go:76 | "Z" iff the offset is zero; otherwise a sign, '-' only for at least a minute west, and hh:mm |
| XdsSidecarVersion.Rfc3339 | internal/core/sidecar/server.go:76 | time.RFC3339: date, 'T', clock and zone |
| XdsSidecarVersion.Version | internal/core/sidecar/server.go:76 | the RFC 3339 time, '/', and the counter (VersionHasOneSlash, VersionsDistinct) |
| XdsSidecarVersion.Rfc3339HasNoSlash | internal/core/sidecar/server.go:76 | an RFC 3339 timestamp contains no '/' |
| XdsSidecarVersion.Rfc3339UtcLength | internal/core/sidecar/server.go:76 | a UTC time with four-digit year is 20 characters |
| XdsSidecarVersion.Increment | internal/core/sidecar/server.go:27-28 | the unsigned 64-bit increment: n + 1, or 0 past 2^64 - 1 |
| XdsSidecarVersion.Stamped | internal/core/sidecar/server.go:76 | the stamp, '/', and the counter in decimal, which is what follows the last '/' |
| XdsSidecarVersion.VersionHasOneSlash | internal/core/sidecar/server.go:76 | the '/' after the timestamp is the only one |
| XdsSidecarVersion.VersionsDistinct | internal/core/sidecar/server.go:75-77 | equal versions mean equal counters, whatever the clock |
| XdsSidecarVersion.XdsSidecar.constructor | internal/core/sidecar/server.go:34-54 | the counter starts at zero |
| XdsSidecarVersion.XdsSidecar.NextVersion | internal/core/sidecar/server.go:75-77 | bumps the counter by Increment and returns the time, '/' and the new counter |
| XdsSidecarVersion.FirstTwoVersions | internal/core/sidecar/server.go:75-77 | the first two versions end in "/1" and "/2" and differ even with a frozen clock |
| GrpcProbe.SplitFirstColon | cmd/grpcprobe.go:36 | strings.SplitN with ":" and 2: one part iff no ':'; otherwise a colon-free head and the rest |
| GrpcProbe.ParseHeader | cmd/grpcprobe.go:36-40 | none iff no ':'; otherwise the key before the first ':' and the rest with leading whitespace trimmed |
| GrpcProbe.ParseHeaderOf | cmd/grpcprobe.go:36-40 | "key:rest" parses to the key and the trimmed rest, later colons kept |
| GrpcProbe.TrimKeepsRest | cmd/grpcprobe.go:40 | only leading whitespace goes |
| GrpcProbe.Append | cmd/grpcprobe.go:41 | MD.Append: the lower-cased key gets the value after its earlier ones; other keys unchanged |
| GrpcProbe.AppendKeepsEarlierValues | cmd/grpcprobe.go:41 | appending keeps every earlier value under every key |
| GrpcProbe.RpcHeaders.constructor | cmd/grpcprobe.go:53 | no headers |
| GrpcProbe.RpcHeaders.Set | cmd/grpcprobe.go:35-43 | an error iff no ':', with the metadata unchanged; otherwise the parsed header is appended |
| GrpcProbe.RepeatedHeader | cmd/grpcprobe.go:35-43 | keys equal up to case keep both values in flag order |
| GrpcProbe.ExitCode | cmd/grpcprobe.go:22-29 | 1 iff the connection failed, 2 iff the RPC failed, 3 iff not SERVING, 0 iff SERVING |
| GrpcProbe.RunHealthProbe | cmd/grpcprobe.go:78-138 | returns exactly ExitCode of the outcomes |

## Left out

- I/O is not modelled: YAML and JSON output, WriteToFile, reading configuration files, and the network.
- The Kubernetes client libraries are not modelled: API calls, listers and informers become maps, logs and caller-supplied outcomes. The rate limiter and informer cache syncing are out too.
- Concurrency is not modelled: worker goroutines, errChan, and atomic types are taken sequentially.
- Logging is not modelled. The DeadlineExceeded and Unimplemented branches of the probe only change what is logged.
- Clocks are parameters: NextVersion takes the time as a `Time` value.
- ListenAndServe's result and the graceful shutdown's error are parameters of Start and Shutdown.
- The pprof and validation routes of the HTTP server, ServeHTTP and the validation webhook are not part of this model.
- cmd/httpprobe.go, root.go, sidecar.go and registrar.go are not part of this model.
- The xDS server's Start and Close, callbacks.go, the shutdown helpers, the managers and pkg/xds are not part of this model.
- Sidecar.Lookup and Strings.LowerAscii: strings.ToLower and MD.Append lowercase only ASCII letters in this model; Unicode case mapping is not modelled.
- GrpcProbe.RpcHeaders.Set: the error's %q quoting of the value is modelled as the raw value.
- Controller.NewProxyConfigConfigMap: the renderer is a function fixed at construction. The chain FromUnstructured, then proxy.GenerateBootstrap, then YAML is not expanded inside it.
- Controller.MessageResourceExists: %q is modelled as plain quotes, which it is for a DNS-label name.
- The SetNestedStringMap error in updateProxyConfigStatus cannot occur on a map status and is not modelled.
- Mutation.Mutate: createPatch's json.Marshal error is not modelled; the patch values always marshal.
- Mutation.UpdateAnnotation: Go's map iteration order is a caller-given `order`.
- The call of LocalUDSCluster in internal/core/config/proxy/cluster.go passes three arguments to a two-parameter function. The model drops the third.
- The same call names an SDS cluster constant that does not exist; the model uses local_spire.
- bootstrap.XdsConfig has no DiscoveryType field, although the cluster builder reads one; the model adds it.
- internal/core/config/envoy/listener.go passes the SPIFFE domain to a filter-chain builder that takes none; the domain is dropped.
- internal/proxy/envoy's VirtualHost and GenerateInboundHTTPListener are not part of this model. The core VirtualHost and listener are used in their place.
- generateVHosts of internal/core/config/proxy is not part of this model. The bootstrap uses the vhosts.go builder.
- internal/config/constants and maestro's API registration files are not part of this model. SpiffeCsiDriver is an abstract constant, and the legacy controller's API version is a parameter.
- Pointers are modelled as values: the registry stores endpoints, not pointers to them, so aliasing is not modelled.
- Proto messages keep only the fields the builders set; the rest are at their defaults.
- XdsSidecarVersion.VersionsDistinct: versions are distinct only while the counter has not wrapped past 2^64 - 1. Increment states the wrap explicitly.
