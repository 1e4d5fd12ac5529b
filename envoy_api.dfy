/** The Envoy proto messages the bootstrap builders fill in, reduced to the fields they
    set, and the fixed building blocks they use: the HTTP connection manager and network
    filter of internal/core/config/envoy/filter.go, the HTTP filters of
    internal/proxy/envoy/httpfilter.go and the health checks of
    internal/core/config/envoy/healthcheck.go. An Any-wrapped config is kept as the
    message it wraps. */
module EnvoyApi {
  import opened Wrappers
  import opened Types

  // ---------------------------------------------------------------------
  // Addresses and config sources (envoy.config.core.v3)
  // ---------------------------------------------------------------------

  datatype Address = SocketAddress(address: string, port: uint32) | Pipe(path: string)

  datatype ApiVersion = ApiAuto | ApiV2 | ApiV3
  datatype ApiType = Rest | Grpc | DeltaGrpc | AggregatedGrpc

  /** An ApiConfigSource whose gRPC services are Envoy gRPC clients of the named clusters. */
  datatype ApiConfigSource = ApiConfigSource(apiType: ApiType, grpcClusterNames: seq<string>)

  datatype ConfigSource =
    | AdsSource(resourceApiVersion: ApiVersion)
    | ApiSource(resourceApiVersion: ApiVersion, api: ApiConfigSource)

  // ---------------------------------------------------------------------
  // Routes (envoy.config.route.v3)
  // ---------------------------------------------------------------------

  datatype HeaderAppendAction = AppendIfExistsOrAdd | AddIfAbsent | OverwriteIfExistsOrAdd | OverwriteIfExists
  datatype HeaderValueOption = HeaderValueOption(appendAction: HeaderAppendAction, key: string, value: string)
  datatype RouteAction = RouteToCluster(cluster: string) | DirectResponse(status: nat)
  /** A route matching a path prefix. */
  datatype Route = Route(prefix: string, requestHeadersToAdd: seq<HeaderValueOption>, action: RouteAction)
  datatype VirtualHost = VirtualHost(name: string, domains: seq<string>, routes: seq<Route>)

  // ---------------------------------------------------------------------
  // HTTP filters and the HTTP connection manager
  // ---------------------------------------------------------------------

  datatype HttpFilterConfig =
    | JwtAuthentication(bypassCorsPreflight: bool)
    | ExtAuthz(transportApiVersion: ApiVersion, grpcClusterName: string, timeoutMillis: nat,
               maxRequestBytes: nat, allowPartialMessage: bool, failureModeAllow: bool)
    | RouterConfig

  datatype HttpFilter = HttpFilter(name: string, config: HttpFilterConfig)

  const AuthnFilterName: string := "envoy.filters.http.jwt_authn"
  const AuthzFilterName: string := "envoy.filters.http.ext_authz"
  const RouterFilterName: string := "envoy.filters.http.router"
  const AuthzTimeoutMillis: nat := 500

  /** authn(): JWT authentication with CORS preflight bypass off. */
  function Authn(): (f: HttpFilter)
    ensures f.name == AuthnFilterName && f.config.JwtAuthentication? && !f.config.bypassCorsPreflight
  {
    HttpFilter(AuthnFilterName, JwtAuthentication(false))
  }

  /** authz(clusterName): external authorization over Envoy gRPC to clusterName. */
  function Authz(clusterName: string): (f: HttpFilter)
    ensures f.name == AuthzFilterName && f.config.ExtAuthz? && f.config.grpcClusterName == clusterName
    ensures f.config.transportApiVersion == ApiV3 && f.config.timeoutMillis == 500
    ensures f.config.maxRequestBytes == 8192 && f.config.allowPartialMessage && !f.config.failureModeAllow
  {
    HttpFilter(AuthzFilterName, ExtAuthz(ApiV3, clusterName, AuthzTimeoutMillis, 8192, true, false))
  }

  function Router(): (f: HttpFilter)
    ensures f.name == RouterFilterName && f.config.RouterConfig?
  {
    HttpFilter(RouterFilterName, RouterConfig)
  }

  /** The position a filter must take in the chain: authentication, then authorization,
      then the router. */
  function Stage(f: HttpFilter): nat
  {
    match f.config
    case JwtAuthentication(_) => 0
    case ExtAuthz(_, _, _, _, _, _) => 1
    case RouterConfig => 2
  }

  datatype CodecType = CodecAuto | CodecHttp1 | CodecHttp2 | CodecHttp3
  datatype ForwardClientCertDetails = Sanitize | ForwardOnly | AppendForward | SanitizeSet | AlwaysForwardOnly
  datatype CidrRange = CidrRange(addressPrefix: string, prefixLen: nat)

  datatype HttpConnectionManager = HttpConnectionManager(
    codecType: CodecType, statPrefix: string, routeConfigName: string, virtualHosts: seq<VirtualHost>,
    internalCidrRanges: seq<CidrRange>, httpFilters: seq<HttpFilter>,
    forwardClientCertDetails: ForwardClientCertDetails, setCurrentClientCertUri: bool)

  const LocalRouteName: string := "local_route"
  const Rfc1918CidrRanges: seq<CidrRange> :=
    [CidrRange("10.0.0.0", 8), CidrRange("172.16.0.0", 12), CidrRange("192.168.0.0", 16)]

  /** HttpConnectionManager(statPrefix, vhosts): automatic codec, an inline route
      configuration "local_route" holding the virtual hosts, the RFC 1918 ranges as
      internal addresses, and every other field at its proto default. */
  function NewHttpConnectionManager(statPrefix: string, vhosts: seq<VirtualHost>): (h: HttpConnectionManager)
    ensures h.statPrefix == statPrefix && h.virtualHosts == vhosts && h.routeConfigName == LocalRouteName
    ensures h.codecType == CodecAuto && h.internalCidrRanges == Rfc1918CidrRanges
    ensures h.httpFilters == [] && h.forwardClientCertDetails == Sanitize && !h.setCurrentClientCertUri
  {
    HttpConnectionManager(CodecAuto, statPrefix, LocalRouteName, vhosts, Rfc1918CidrRanges, [], Sanitize, false)
  }

  // ---------------------------------------------------------------------
  // Listeners (envoy.config.listener.v3) and TLS
  // ---------------------------------------------------------------------

  /** A network filter; the only one built here wraps an HTTP connection manager. */
  datatype Filter = Filter(name: string, hcm: HttpConnectionManager)

  /** A DownstreamTlsContext that validates peers against an SDS secret. */
  datatype DownstreamTlsContext = DownstreamTlsContext(validationSecretName: string, validationSdsConfig: ConfigSource)
  datatype TransportSocket = TransportSocket(name: string, tls: DownstreamTlsContext)

  datatype FilterChain = FilterChain(filters: seq<Filter>, transportSocket: Option<TransportSocket>)
  datatype Listener = Listener(name: string, address: Address, filterChains: seq<FilterChain>)

  // ---------------------------------------------------------------------
  // Clusters (envoy.config.cluster.v3, envoy.config.endpoint.v3)
  // ---------------------------------------------------------------------

  datatype DiscoveryType = Static | StrictDns | LogicalDns | Eds | OriginalDst
  datatype LbEndpoint = LbEndpoint(address: Address, healthCheckPort: Option<uint32>)
  datatype LocalityLbEndpoints = LocalityLbEndpoints(lbEndpoints: seq<LbEndpoint>)
  datatype ClusterLoadAssignment = ClusterLoadAssignment(clusterName: string, endpoints: seq<LocalityLbEndpoints>)

  datatype HealthChecker = HttpHealthChecker(host: string, path: string) | GrpcHealthChecker(serviceName: string)
  datatype HealthCheck = HealthCheck(intervalSeconds: nat, timeoutSeconds: nat, healthyThreshold: nat,
                                     unhealthyThreshold: nat, checker: Option<HealthChecker>)

  /** The upstream protocol of an HttpProtocolOptions explicit HTTP config. */
  datatype UpstreamHttpProtocol = ExplicitHttp1 | ExplicitHttp2

  datatype Cluster = Cluster(name: string, discoveryType: DiscoveryType, loadAssignment: Option<ClusterLoadAssignment>,
                             healthChecks: seq<HealthCheck>, typedExtensionProtocolOptions: map<string, UpstreamHttpProtocol>)

  /** healthCheck(): every 10s with a 1s timeout, one success or failure flips the state. */
  function BaseHealthCheck(): (h: HealthCheck)
    ensures h.intervalSeconds == 10 && h.timeoutSeconds == 1 && h.healthyThreshold == 1 && h.unhealthyThreshold == 1
    ensures h.checker.None?
  {
    HealthCheck(10, 1, 1, 1, None)
  }

  function HttpHealthCheck(host: string, path: string): (h: HealthCheck)
    ensures h == BaseHealthCheck().(checker := Some(HttpHealthChecker(host, path)))
  {
    BaseHealthCheck().(checker := Some(HttpHealthChecker(host, path)))
  }

  function GrpcHealthCheck(serviceName: string): (h: HealthCheck)
    ensures h == BaseHealthCheck().(checker := Some(GrpcHealthChecker(serviceName)))
  {
    BaseHealthCheck().(checker := Some(GrpcHealthChecker(serviceName)))
  }

  // ---------------------------------------------------------------------
  // Bootstrap (envoy.config.bootstrap.v3)
  // ---------------------------------------------------------------------

  datatype Node = Node(id: string, cluster: string)
  datatype Admin = Admin(address: Address)
  datatype StaticResources = StaticResources(listeners: seq<Listener>, clusters: seq<Cluster>)
  datatype DynamicResources = DynamicResources(adsConfig: ApiConfigSource, cdsConfig: ConfigSource)
  datatype Bootstrap = Bootstrap(node: Option<Node>, admin: Admin, staticResources: StaticResources,
                                 dynamicResources: Option<DynamicResources>)

  const AdminAddress: string := "0.0.0.0"
  const AdminPort: uint32 := 9901

  /** generateAdminResource: the admin interface at 0.0.0.0:9901. */
  function AdminResource(): (a: Admin)
    ensures a.address == SocketAddress("0.0.0.0", 9901)
  {
    Admin(SocketAddress(AdminAddress, AdminPort))
  }

  /** The service section of the sidecar configuration: its name, its ports, and whether
      authentication and authorization are configured (non-nil). */
  datatype ServicePort = ServicePort(port: uint32)
  datatype Service = Service(name: string, servicePorts: seq<ServicePort>, authn: bool, authz: bool)

  /** The cluster names of pkg/config/constants and internal/config/constants. */
  const ClusterNameLocalXds: string := "local_xds"
  const ClusterNameLocalSpire: string := "local_spire"
  const ClusterNameLocalOpa: string := "local_opa"
}
