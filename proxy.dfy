/** internal/proxy: the virtual hosts of a service (vhosts.go) and the bootstrap the
    controller renders into each ProxyConfig's ConfigMap (static.go, config.go,
    admin.go): an admin interface and one inbound listener, with no clusters. */
module Proxy {
  import opened Wrappers
  import opened Strings
  import opened Types
  import opened Util
  import opened EnvoyApi
  import opened EnvoyConfig
  import opened ProxyEnvoy

  // ---------------------------------------------------------------------
  // vhosts.go
  // ---------------------------------------------------------------------

  /** fmt.Sprintf("local_service_%d", port): the name of a port's virtual host and of the
      cluster its route targets. */
  function LocalServiceName(port: uint32): (r: string)
    ensures r == "local_service_" + Decimal(port as nat)
  {
    "local_service_" + Decimal(port as nat)
  }

  /** Different ports give different names. */
  lemma LocalServiceNameInjective(p: uint32, q: uint32)
    ensures LocalServiceName(p) == LocalServiceName(q) <==> p == q
  {
    if LocalServiceName(p) == LocalServiceName(q) {
      assert Decimal(p as nat) == LocalServiceName(p)[14..];
      assert Decimal(q as nat) == LocalServiceName(q)[14..];
      DecimalInjective(p as nat, q as nat);
    }
  }

  /** fmt.Sprintf("%s_%d", hostname, port). */
  function PortDomain(hostname: string, port: uint32): string
  {
    hostname + "_" + Decimal(port as nat)
  }

  const CatchAllHeader: string := "x-maestro-catch-all"

  /** catchAllVHost: every domain and path, tagged with x-maestro-catch-all: true
      (overwriting any such header), answered directly with 404. */
  function CatchAllVHost(): (v: VirtualHost)
    ensures v.name == "catch_all" && v.domains == ["*"] && |v.routes| == 1
    ensures v.routes[0].prefix == "/" && v.routes[0].action == DirectResponse(404)
    ensures v.routes[0].requestHeadersToAdd == [HeaderValueOption(OverwriteIfExistsOrAdd, "x-maestro-catch-all", "true")]
  {
    VirtualHost("catch_all", ["*"],
      [Route("/", [HeaderValueOption(OverwriteIfExistsOrAdd, CatchAllHeader, "true")], DirectResponse(404))])
  }

  /** The virtual host of one service port. */
  function PortVHost(hostname: string, p: ServicePort): VirtualHost
  {
    RoutedVirtualHost(LocalServiceName(p.port), PortDomain(hostname, p.port))
  }

  /** The virtual hosts of generateVHosts: one per port in order, under the service's
      labels reversed, and the catch-all last. */
  function VHosts(serviceName: string, servicePorts: seq<ServicePort>): (vhosts: seq<VirtualHost>)
    ensures |vhosts| == |servicePorts| + 1
    ensures vhosts[|servicePorts|] == CatchAllVHost()
    ensures forall i :: 0 <= i < |servicePorts| ==>
      vhosts[i] == PortVHost(HostnameFromServiceName(serviceName), servicePorts[i])
  {
    var hostname := HostnameFromServiceName(serviceName);
    seq(|servicePorts|, i requires 0 <= i < |servicePorts| => PortVHost(hostname, servicePorts[i])) + [CatchAllVHost()]
  }

  /** generateVHosts: an append loop over the ports, then the catch-all. */
  method GenerateVHosts(serviceName: string, servicePorts: seq<ServicePort>) returns (vhosts: seq<VirtualHost>)
    ensures vhosts == VHosts(serviceName, servicePorts)
  {
    var hostname := HostnameFromServiceName(serviceName);
    vhosts := [];
    for k := 0 to |servicePorts|
      invariant |vhosts| == k
      invariant forall i :: 0 <= i < k ==> vhosts[i] == PortVHost(hostname, servicePorts[i])
    {
      var name := LocalServiceName(servicePorts[k].port);
      var sni := PortDomain(hostname, servicePorts[k].port);
      vhosts := vhosts + [RoutedVirtualHost(name, sni)];
    }
    vhosts := vhosts + [CatchAllVHost()];
  }

  /** Port i's virtual host is named local_service_<port>, serves only the domain
      <reversed service name>_<port>, and routes everything to the cluster of its own
      name; the catch-all routes nowhere. */
  lemma VHostsShape(serviceName: string, servicePorts: seq<ServicePort>)
    ensures var vhosts := VHosts(serviceName, servicePorts);
      (forall i :: 0 <= i < |servicePorts| ==>
        vhosts[i].name == "local_service_" + Decimal(servicePorts[i].port as nat) &&
        vhosts[i].domains == [HostnameFromServiceName(serviceName) + "_" + Decimal(servicePorts[i].port as nat)] &&
        |vhosts[i].routes| == 1 && vhosts[i].routes[0].action == RouteToCluster(vhosts[i].name)) &&
      (forall r :: r in vhosts[|servicePorts|].routes ==> !r.action.RouteToCluster?)
  {
  }

  /** The route targets of a list of virtual hosts. */
  function RouteTargets(vhosts: seq<VirtualHost>): (r: set<string>)
    ensures forall i, k :: 0 <= i < |vhosts| && 0 <= k < |vhosts[i].routes| && vhosts[i].routes[k].action.RouteToCluster? ==>
      vhosts[i].routes[k].action.cluster in r
  {
    set i, k | 0 <= i < |vhosts| && 0 <= k < |vhosts[i].routes| && vhosts[i].routes[k].action.RouteToCluster? ::
      vhosts[i].routes[k].action.cluster
  }

  /** The clusters the virtual hosts route to are exactly local_service_<port> for the
      service's ports. */
  lemma {:induction false} VHostsRouteTargets(serviceName: string, servicePorts: seq<ServicePort>)
    ensures RouteTargets(VHosts(serviceName, servicePorts)) ==
      set i | 0 <= i < |servicePorts| :: LocalServiceName(servicePorts[i].port)
  {
    var vhosts := VHosts(serviceName, servicePorts);
    var expected := set i | 0 <= i < |servicePorts| :: LocalServiceName(servicePorts[i].port);
    forall c | c in RouteTargets(vhosts) ensures c in expected {
      var i, k :| 0 <= i < |vhosts| && 0 <= k < |vhosts[i].routes| && vhosts[i].routes[k].action.RouteToCluster? &&
        vhosts[i].routes[k].action.cluster == c;
      assert i < |servicePorts|;
    }
    forall i | 0 <= i < |servicePorts| ensures LocalServiceName(servicePorts[i].port) in RouteTargets(vhosts) {
      assert vhosts[i].routes[0].action == RouteToCluster(LocalServiceName(servicePorts[i].port));
    }
  }

  /** The case of vhosts_test.go: "fake.test.service" on one port (8080 there). */
  lemma FakeTestServiceVHosts(port: uint32)
    ensures var vhosts := VHosts("fake.test.service", [ServicePort(port)]);
      |vhosts| == 2 && vhosts[0].name == "local_service_" + Decimal(port as nat) &&
      vhosts[0].domains == ["service.test.fake" + "_" + Decimal(port as nat)] &&
      vhosts[0].routes[0].action == RouteToCluster("local_service_" + Decimal(port as nat)) &&
      vhosts[1] == CatchAllVHost()
  {
    HostnameOfFakeTestService();
  }

  // ---------------------------------------------------------------------
  // static.go, config.go
  // ---------------------------------------------------------------------

  /** The authorization cluster: the OPA cluster when the service has authz, else none. */
  function AuthzClusterName(svc: Service): (r: string)
    ensures r == (if svc.authz then "local_opa" else "")
  {
    if svc.authz then ClusterNameLocalOpa else ""
  }

  /** The listeners generateStaticListeners returns. */
  function StaticListeners(svc: Service, spiffeDomain: string): seq<Listener>
  {
    [TlsInboundHTTPListener(svc.authn, AuthzClusterName(svc), spiffeDomain, VHosts(svc.name, svc.servicePorts))]
  }

  method GenerateStaticListeners(svc: Service, spiffeDomain: string) returns (listeners: seq<Listener>)
    ensures listeners == StaticListeners(svc, spiffeDomain)
  {
    var servicePorts := svc.servicePorts;
    var enableAuthn := svc.authn;
    var authzClusterName := "";
    if svc.authz {
      authzClusterName := ClusterNameLocalOpa;
    }
    listeners := [];
    var vhosts := GenerateVHosts(svc.name, servicePorts);
    listeners := listeners + [TlsInboundHTTPListener(enableAuthn, authzClusterName, spiffeDomain, vhosts)];
  }

  /** generateStaticClusters: always empty. */
  method GenerateStaticClusters(svc: Service) returns (clusters: seq<Cluster>)
    ensures clusters == []
  {
    clusters := [];
  }

  /** generateBootstrap: the admin interface and the static resources, nothing else. */
  function GenerateBootstrap(svc: Service, spiffeDomain: string): (b: Bootstrap)
    ensures b.node.None? && b.dynamicResources.None? && b.admin == AdminResource()
    ensures b.staticResources == StaticResources(StaticListeners(svc, spiffeDomain), [])
  {
    Bootstrap(None, AdminResource(), StaticResources(StaticListeners(svc, spiffeDomain), []), None)
  }

  /** The controller's bootstrap has one listener whose chain authenticates iff the
      service has authn, authorises against local_opa iff it has authz, and terminates
      TLS for the given domain iff it is non-empty; its virtual hosts route to
      local_service_<port> clusters, none of which the bootstrap defines. */
  lemma ControllerBootstrapShape(svc: Service, spiffeDomain: string)
    ensures var b := GenerateBootstrap(svc, spiffeDomain);
      |b.staticResources.listeners| == 1 && |b.staticResources.listeners[0].filterChains| == 1 &&
      var chain := b.staticResources.listeners[0].filterChains[0];
      var hcm := chain.filters[0].hcm;
      (Authn() in hcm.httpFilters <==> svc.authn) &&
      ((exists i :: 0 <= i < |hcm.httpFilters| && hcm.httpFilters[i].config.ExtAuthz?) <==> svc.authz) &&
      (forall i :: 0 <= i < |hcm.httpFilters| && hcm.httpFilters[i].config.ExtAuthz? ==>
        hcm.httpFilters[i].config.grpcClusterName == "local_opa") &&
      (chain.transportSocket.Some? <==> spiffeDomain != "") &&
      (chain.transportSocket.Some? ==> chain.transportSocket.value.tls.validationSecretName == "spiffe://" + spiffeDomain) &&
      RouteTargets(hcm.virtualHosts) == (set i | 0 <= i < |svc.servicePorts| :: LocalServiceName(svc.servicePorts[i].port)) &&
      forall c :: c in b.staticResources.clusters ==> c.name !in RouteTargets(hcm.virtualHosts)
  {
    VHostsRouteTargets(svc.name, svc.servicePorts);
    TlsChainShape(svc.authn, AuthzClusterName(svc), spiffeDomain, VHosts(svc.name, svc.servicePorts));
  }
}
