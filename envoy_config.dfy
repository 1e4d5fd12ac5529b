/** internal/core/config/envoy: the virtual host of one service port, the inbound HTTP
    filter chain (without TLS), the inbound listener and the local clusters. */
module EnvoyConfig {
  import opened Wrappers
  import opened Types
  import opened EnvoyApi

  // ---------------------------------------------------------------------
  // vhost.go
  // ---------------------------------------------------------------------

  /** VirtualHost(name, sni): one route, on every path, to the cluster called name. */
  function RoutedVirtualHost(name: string, sni: string): (v: VirtualHost)
    ensures v.name == name && v.domains == [sni]
    ensures |v.routes| == 1 && v.routes[0].prefix == "/" && v.routes[0].requestHeadersToAdd == []
    ensures v.routes[0].action == RouteToCluster(name)
  {
    VirtualHost(name, [sni], [Route("/", [], RouteToCluster(name))])
  }

  // ---------------------------------------------------------------------
  // filterchain.go
  // ---------------------------------------------------------------------

  /** The HTTP filters of the inbound connection manager: authentication when enabled,
      authorization against authzClusterName when one is given, and the router, in that
      order and each at most once. */
  function HttpFilters(enableAuthn: bool, authzClusterName: string): (filters: seq<HttpFilter>)
    ensures |filters| == 1 + (if enableAuthn then 1 else 0) + (if authzClusterName != "" then 1 else 0)
    ensures filters[|filters| - 1] == Router()
    ensures forall i, j :: 0 <= i < j < |filters| ==> Stage(filters[i]) < Stage(filters[j])
    ensures Authn() in filters <==> enableAuthn
    ensures (exists i :: 0 <= i < |filters| && filters[i].config.ExtAuthz?) <==> authzClusterName != ""
    ensures forall i :: 0 <= i < |filters| && filters[i].config.ExtAuthz? ==> filters[i] == Authz(authzClusterName)
  {
    var authn := if enableAuthn then [Authn()] else [];
    var authz := if authzClusterName != "" then [Authz(authzClusterName)] else [];
    var filters := authn + authz + [Router()];
    assert authzClusterName != "" ==> filters[|authn|] == Authz(authzClusterName);
    filters
  }

  /** hcmHttpFilters: conditional appends onto an empty list. */
  method HcmHttpFilters(enableAuthn: bool, authzClusterName: string) returns (filters: seq<HttpFilter>)
    ensures filters == HttpFilters(enableAuthn, authzClusterName)
  {
    filters := [];
    if enableAuthn {
      filters := filters + [Authn()];
    }
    if authzClusterName != "" {
      filters := filters + [Authz(authzClusterName)];
    }
    filters := filters + [Router()];
  }

  const HcmFilterName: string := "envoy.http_connection_manager"
  const InboundStatPrefix: string := "inbound_http"

  /** The inbound chain: one network filter, the connection manager over the virtual
      hosts, and no transport socket. */
  function InboundChain(enableAuthn: bool, authzClusterName: string, vhosts: seq<VirtualHost>): FilterChain
  {
    var hcm := NewHttpConnectionManager(InboundStatPrefix, vhosts).(httpFilters := HttpFilters(enableAuthn, authzClusterName));
    FilterChain([Filter(HcmFilterName, hcm)], None)
  }

  /** httpTLSFilterChain. */
  method HttpTLSFilterChain(enableAuthn: bool, authzClusterName: string, vhosts: seq<VirtualHost>)
    returns (chain: FilterChain)
    ensures chain == InboundChain(enableAuthn, authzClusterName, vhosts)
  {
    var filters: seq<Filter> := [];
    var hcm := NewHttpConnectionManager(InboundStatPrefix, vhosts);
    var httpFilters := HcmHttpFilters(enableAuthn, authzClusterName);
    hcm := hcm.(httpFilters := httpFilters);
    var hcmFilter := Filter(HcmFilterName, hcm);
    filters := filters + [hcmFilter];
    chain := FilterChain(filters, None);
  }

  /** generateInboundHTTPFilterChain. */
  method GenerateInboundHTTPFilterChain(enableAuthn: bool, authzClusterName: string, vhosts: seq<VirtualHost>)
    returns (chains: seq<FilterChain>)
    ensures chains == [InboundChain(enableAuthn, authzClusterName, vhosts)]
  {
    chains := [];
    var chain := HttpTLSFilterChain(enableAuthn, authzClusterName, vhosts);
    chains := chains + [chain];
  }

  /** The chain has exactly one network filter, the connection manager named
      "envoy.http_connection_manager" with stat prefix "inbound_http", the virtual hosts
      unchanged, the filters of HttpFilters, and no TLS. */
  lemma InboundChainShape(enableAuthn: bool, authzClusterName: string, vhosts: seq<VirtualHost>)
    ensures var chain := InboundChain(enableAuthn, authzClusterName, vhosts);
      |chain.filters| == 1 && chain.transportSocket.None? &&
      chain.filters[0].name == "envoy.http_connection_manager" &&
      chain.filters[0].hcm.statPrefix == "inbound_http" &&
      chain.filters[0].hcm.virtualHosts == vhosts &&
      chain.filters[0].hcm.httpFilters == HttpFilters(enableAuthn, authzClusterName) &&
      chain.filters[0].hcm.forwardClientCertDetails == Sanitize
  {
  }

  /** The four cases of hcmHttpFilters' table: router only, authn + router, authz +
      router, and all three. */
  lemma HttpFiltersCases(clusterName: string)
    requires clusterName != ""
    ensures HttpFilters(false, "") == [Router()]
    ensures HttpFilters(true, "") == [Authn(), Router()]
    ensures HttpFilters(false, clusterName) == [Authz(clusterName), Router()]
    ensures HttpFilters(true, clusterName) == [Authn(), Authz(clusterName), Router()]
  {
  }

  // ---------------------------------------------------------------------
  // listener.go
  // ---------------------------------------------------------------------

  const InboundListenerName: string := "inbound_http"
  const InboundListenerAddress: string := "0.0.0.0"
  const InboundListenerPort: uint32 := 18080

  /** GenerateInboundHTTPListener: "inbound_http" on 0.0.0.0:18080. The call passes the
      SPIFFE domain to a filter-chain builder of this package that takes no domain; the
      domain is dropped. */
  function InboundHTTPListener(enableAuthn: bool, authzClusterName: string, spireDomain: string,
                               vhosts: seq<VirtualHost>): (l: Listener)
    ensures l.name == "inbound_http" && l.address == SocketAddress("0.0.0.0", 18080)
    ensures l.filterChains == [InboundChain(enableAuthn, authzClusterName, vhosts)]
  {
    Listener(InboundListenerName, SocketAddress(InboundListenerAddress, InboundListenerPort),
             [InboundChain(enableAuthn, authzClusterName, vhosts)])
  }

  // ---------------------------------------------------------------------
  // cluster.go
  // ---------------------------------------------------------------------

  /** cluster(name, discoveryType): nothing else set. */
  function NewCluster(name: string, discoveryType: DiscoveryType): (c: Cluster)
    ensures c.name == name && c.discoveryType == discoveryType
    ensures c.loadAssignment.None? && c.healthChecks == [] && c.typedExtensionProtocolOptions == map[]
  {
    Cluster(name, discoveryType, None, [], map[])
  }

  /** LocalCluster(name, address, port, hcPort): a static cluster with one locality
      holding one endpoint at address:port, health-checked on hcPort, or on port when
      hcPort is nil. */
  function LocalCluster(name: string, address: string, port: uint32, hcPort: Option<uint32>): (c: Cluster)
    ensures c.name == name && c.discoveryType == Static
    ensures c.healthChecks == [] && c.typedExtensionProtocolOptions == map[]
    ensures c.loadAssignment.Some? && c.loadAssignment.value.clusterName == name
    ensures |c.loadAssignment.value.endpoints| == 1 && |c.loadAssignment.value.endpoints[0].lbEndpoints| == 1
    ensures c.loadAssignment.value.endpoints[0].lbEndpoints[0].address == SocketAddress(address, port)
    ensures c.loadAssignment.value.endpoints[0].lbEndpoints[0].healthCheckPort ==
      Some(if hcPort.Some? then hcPort.value else port)
  {
    var c := NewCluster(name, Static);
    var hc := if hcPort.None? then port else hcPort.value;
    c.(loadAssignment := Some(ClusterLoadAssignment(name,
      [LocalityLbEndpoints([LbEndpoint(SocketAddress(address, port), Some(hc))])])))
  }

  /** LocalUDSCluster(name, path): a static cluster with one endpoint on the Unix socket
      path and no health-check port. */
  function LocalUDSCluster(name: string, path: string): (c: Cluster)
    ensures c.name == name && c.discoveryType == Static
    ensures c.healthChecks == [] && c.typedExtensionProtocolOptions == map[]
    ensures c.loadAssignment == Some(ClusterLoadAssignment(name, [LocalityLbEndpoints([LbEndpoint(Pipe(path), None)])]))
  {
    NewCluster(name, Static).(loadAssignment :=
      Some(ClusterLoadAssignment(name, [LocalityLbEndpoints([LbEndpoint(Pipe(path), None)])])))
  }

  /** The endpoints a cluster sends traffic to. */
  function ClusterAddresses(c: Cluster): (r: set<Address>)
    ensures c.loadAssignment.None? ==> r == {}
  {
    if c.loadAssignment.None? then {}
    else set l, e | l in c.loadAssignment.value.endpoints && e in l.lbEndpoints :: e.address
  }

  /** A local cluster sends traffic to address:port and nowhere else, and a UDS cluster to
      its socket path alone. */
  lemma LocalClusterTargets(name: string, address: string, port: uint32, hcPort: Option<uint32>, path: string)
    ensures ClusterAddresses(LocalCluster(name, address, port, hcPort)) == {SocketAddress(address, port)}
    ensures ClusterAddresses(LocalUDSCluster(name, path)) == {Pipe(path)}
  {
    var c := LocalCluster(name, address, port, hcPort);
    var l := c.loadAssignment.value.endpoints[0];
    assert l in c.loadAssignment.value.endpoints && l.lbEndpoints[0] in l.lbEndpoints;
    var u := LocalUDSCluster(name, path);
    var lu := u.loadAssignment.value.endpoints[0];
    assert lu in u.loadAssignment.value.endpoints && lu.lbEndpoints[0] in lu.lbEndpoints;
  }
}
