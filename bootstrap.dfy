/** internal/core/config/proxy: the bootstrap a sidecar's Envoy starts from. It defines
    the xDS, OPA and (optionally) SPIRE clusters and one cluster per service port, one
    inbound listener, the admin interface, and dynamic resources served over ADS by the
    xDS cluster. */
module ProxyBootstrap {
  import opened Wrappers
  import opened Types
  import opened EnvoyApi
  import opened EnvoyConfig
  import opened Proxy

  /** bootstrap.XdsConfig. The builders read a DiscoveryType field that the struct does not
      declare; the model adds it. */
  datatype XdsConfig = XdsConfig(address: string, port: uint32, discoveryType: DiscoveryType)
  datatype OpaConfig = OpaConfig(address: string, port: uint32, hcPath: string, hcPort: uint32)
  datatype SpireConfig = SpireConfig(enabled: bool, path: string, domain: string)
  datatype SidecarConfiguration = SidecarConfiguration(service: Service)

  const HttpProtocolOptionsKey: string := "envoy.extensions.upstreams.http.v3.HttpProtocolOptions"
  const SpireSocketPath: string := "/tmp/sds/spire.socket"
  const LocalhostAddress: string := "127.0.0.1"

  datatype BootstrapGenerator = BootstrapGenerator(
    node: Node, sidecarCfg: SidecarConfiguration, xdsConfig: XdsConfig, opaConfig: OpaConfig, spireConfig: SpireConfig)
  {
    // -------------------------------------------------------------------
    // cluster.go
    // -------------------------------------------------------------------

    /** svcLocalCluster(port): local_service_<port> at 127.0.0.1:port over explicit HTTP/1. */
    function SvcLocalCluster(port: uint32): (c: Cluster)
      ensures c.name == LocalServiceName(port) && c.discoveryType == Static
      ensures c.loadAssignment == LocalCluster(LocalServiceName(port), "127.0.0.1", port, None).loadAssignment
      ensures c.healthChecks == [] && c.typedExtensionProtocolOptions == map[HttpProtocolOptionsKey := ExplicitHttp1]
    {
      var name := LocalServiceName(port);
      LocalCluster(name, LocalhostAddress, port, None).(typedExtensionProtocolOptions := map[HttpProtocolOptionsKey := ExplicitHttp1])
    }

    /** xdsLocalCluster: local_xds at the xDS address, of the configured discovery type,
        with one gRPC health check for the empty service name, over HTTP/2. */
    function XdsLocalCluster(): (c: Cluster)
      ensures c.name == "local_xds" && c.discoveryType == xdsConfig.discoveryType
      ensures c.loadAssignment == LocalCluster("local_xds", xdsConfig.address, xdsConfig.port, None).loadAssignment
      ensures c.healthChecks == [GrpcHealthCheck("")]
      ensures c.typedExtensionProtocolOptions == map[HttpProtocolOptionsKey := ExplicitHttp2]
    {
      LocalCluster(ClusterNameLocalXds, xdsConfig.address, xdsConfig.port, None).(
        discoveryType := xdsConfig.discoveryType,
        healthChecks := [GrpcHealthCheck("")],
        typedExtensionProtocolOptions := map[HttpProtocolOptionsKey := ExplicitHttp2])
    }

    /** opaLocalCluster: local_opa at the OPA address, health-checked over HTTP on the
        OPA health port and path, over HTTP/2. */
    function OpaLocalCluster(): (c: Cluster)
      ensures c.name == "local_opa" && c.discoveryType == Static
      ensures c.loadAssignment == LocalCluster("local_opa", opaConfig.address, opaConfig.port, Some(opaConfig.hcPort)).loadAssignment
      ensures c.healthChecks == [HttpHealthCheck(opaConfig.address, opaConfig.hcPath)]
      ensures c.typedExtensionProtocolOptions == map[HttpProtocolOptionsKey := ExplicitHttp2]
    {
      LocalCluster(ClusterNameLocalOpa, opaConfig.address, opaConfig.port, Some(opaConfig.hcPort)).(
        healthChecks := [HttpHealthCheck(opaConfig.address, opaConfig.hcPath)],
        typedExtensionProtocolOptions := map[HttpProtocolOptionsKey := ExplicitHttp2])
    }

    /** spireLocalCluster: the SDS cluster on the SPIRE agent's Unix socket, over HTTP/2.
        The source passes a third argument to the two-parameter LocalUDSCluster and names
        an SDS cluster constant that does not exist; the model drops the argument and uses
        local_spire, the cluster the TLS context fetches its secret from. */
    function SpireLocalCluster(): (c: Cluster)
      ensures c.name == "local_spire" && c.discoveryType == Static
      ensures c.loadAssignment == LocalUDSCluster("local_spire", "/tmp/sds/spire.socket").loadAssignment
      ensures c.healthChecks == [] && c.typedExtensionProtocolOptions == map[HttpProtocolOptionsKey := ExplicitHttp2]
    {
      LocalUDSCluster(ClusterNameLocalSpire, SpireSocketPath).(
        typedExtensionProtocolOptions := map[HttpProtocolOptionsKey := ExplicitHttp2])
    }

    // -------------------------------------------------------------------
    // bootstrap.go
    // -------------------------------------------------------------------

    /** The clusters generateStaticClusters returns. */
    function StaticClusters(svc: Service): seq<Cluster>
    {
      [XdsLocalCluster(), OpaLocalCluster()] +
      (if spireConfig.enabled then [SpireLocalCluster()] else []) +
      seq(|svc.servicePorts|, i requires 0 <= i < |svc.servicePorts| => SvcLocalCluster(svc.servicePorts[i].port))
    }

    /** generateStaticClusters: xds, opa, spire when enabled, then a loop over the ports. */
    method GenerateStaticClusters(svc: Service) returns (clusters: seq<Cluster>)
      ensures clusters == StaticClusters(svc)
    {
      clusters := [];
      clusters := clusters + [XdsLocalCluster()];
      clusters := clusters + [OpaLocalCluster()];
      if spireConfig.enabled {
        clusters := clusters + [SpireLocalCluster()];
      }
      ghost var fixed := clusters;
      for k := 0 to |svc.servicePorts|
        invariant |clusters| == |fixed| + k
        invariant clusters[..|fixed|] == fixed
        invariant forall i :: 0 <= i < k ==> clusters[|fixed| + i] == SvcLocalCluster(svc.servicePorts[i].port)
      {
        clusters := clusters + [SvcLocalCluster(svc.servicePorts[k].port)];
      }
    }

    /** The listeners generateStaticListeners returns: the inbound listener of
        internal/core/config/envoy over the service's virtual hosts. */
    function StaticListeners(svc: Service): seq<Listener>
    {
      [InboundHTTPListener(svc.authn, AuthzClusterName(svc), spireConfig.domain, VHosts(svc.name, svc.servicePorts))]
    }

    method GenerateStaticListeners(svc: Service) returns (listeners: seq<Listener>)
      ensures listeners == StaticListeners(svc)
    {
      var servicePorts := svc.servicePorts;
      var enableAuthn := svc.authn;
      var authzClusterName := "";
      if svc.authz {
        authzClusterName := ClusterNameLocalOpa;
      }
      listeners := [];
      var vhosts := GenerateVHosts(svc.name, servicePorts);
      listeners := listeners + [InboundHTTPListener(enableAuthn, authzClusterName, spireConfig.domain, vhosts)];
    }

    /** generateDynamicResource: ADS over delta gRPC through local_xds, and CDS over ADS at
        API version 3. */
    function DynamicResource(): (d: DynamicResources)
      ensures d.adsConfig == ApiConfigSource(DeltaGrpc, ["local_xds"]) && d.cdsConfig == AdsSource(ApiV3)
    {
      DynamicResources(ApiConfigSource(DeltaGrpc, [ClusterNameLocalXds]), AdsSource(ApiV3))
    }

    /** generateBootstrapConfiguration. */
    function BootstrapConfiguration(): (b: Bootstrap)
      ensures b.node == Some(node) && b.admin == AdminResource() && b.dynamicResources == Some(DynamicResource())
      ensures b.staticResources == StaticResources(StaticListeners(sidecarCfg.service), StaticClusters(sidecarCfg.service))
    {
      var svc := sidecarCfg.service;
      Bootstrap(Some(node), AdminResource(), StaticResources(StaticListeners(svc), StaticClusters(svc)), Some(DynamicResource()))
    }
  }

  /** NewBootstrapGenerator: the node is identified by serviceNode within serviceCluster. */
  function NewBootstrapGenerator(serviceCluster: string, serviceNode: string, sidecarCfg: SidecarConfiguration,
                                 xdsCfg: XdsConfig, opaCfg: OpaConfig, spireCfg: SpireConfig): (g: BootstrapGenerator)
    ensures g.node == Node(serviceNode, serviceCluster)
    ensures g.sidecarCfg == sidecarCfg && g.xdsConfig == xdsCfg && g.opaConfig == opaCfg && g.spireConfig == spireCfg
  {
    BootstrapGenerator(Node(serviceNode, serviceCluster), sidecarCfg, xdsCfg, opaCfg, spireCfg)
  }

  /** The static clusters: local_xds, local_opa, local_spire exactly when SPIRE is
      enabled, then the service ports' clusters in order. */
  lemma {:induction false} StaticClustersOrder(g: BootstrapGenerator, svc: Service)
    ensures var clusters := g.StaticClusters(svc);
      var fixed := if g.spireConfig.enabled then 3 else 2;
      |clusters| == fixed + |svc.servicePorts| &&
      clusters[0].name == "local_xds" && clusters[1].name == "local_opa" &&
      (g.spireConfig.enabled ==> clusters[2].name == "local_spire") &&
      (forall i :: 0 <= i < |svc.servicePorts| ==>
        clusters[fixed + i] == g.SvcLocalCluster(svc.servicePorts[i].port) &&
        clusters[fixed + i].name == LocalServiceName(svc.servicePorts[i].port))
  {
    var clusters := g.StaticClusters(svc);
    var fixed := if g.spireConfig.enabled then 3 else 2;
    var head := [g.XdsLocalCluster(), g.OpaLocalCluster()] + (if g.spireConfig.enabled then [g.SpireLocalCluster()] else []);
    assert |head| == fixed;
    forall i | 0 <= i < |svc.servicePorts|
      ensures clusters[fixed + i] == g.SvcLocalCluster(svc.servicePorts[i].port)
    {
    }
  }

  /** Every cluster the bootstrap builds carries exactly one typed protocol option, the
      HttpProtocolOptions entry. */
  lemma ProtocolOptionsOfEveryCluster(g: BootstrapGenerator, svc: Service)
    ensures forall c :: c in g.StaticClusters(svc) ==> c.typedExtensionProtocolOptions.Keys == {HttpProtocolOptionsKey}
  {
    var clusters := g.StaticClusters(svc);
    forall c | c in clusters ensures c.typedExtensionProtocolOptions.Keys == {HttpProtocolOptionsKey} {
      var k :| 0 <= k < |clusters| && clusters[k] == c;
      ProtocolOptionsAt(g, svc, k);
    }
  }

  lemma ProtocolOptionsAt(g: BootstrapGenerator, svc: Service, k: nat)
    requires k < |g.StaticClusters(svc)|
    ensures g.StaticClusters(svc)[k].typedExtensionProtocolOptions.Keys == {HttpProtocolOptionsKey}
  {
    var clusters := g.StaticClusters(svc);
    var fixed := if g.spireConfig.enabled then 3 else 2;
    StaticClustersOrder(g, svc);
    var options;
    if k == 0 {
      options := g.XdsLocalCluster().typedExtensionProtocolOptions;
    } else if k == 1 {
      options := g.OpaLocalCluster().typedExtensionProtocolOptions;
    } else if k < fixed {
      options := g.SpireLocalCluster().typedExtensionProtocolOptions;
    } else {
      options := g.SvcLocalCluster(svc.servicePorts[k - fixed].port).typedExtensionProtocolOptions;
    }
    assert clusters[k].typedExtensionProtocolOptions == options;
  }

  /** The names of a list of clusters. */
  function ClusterNames(clusters: seq<Cluster>): (r: set<string>)
    ensures forall i :: 0 <= i < |clusters| ==> clusters[i].name in r
  {
    set i | 0 <= i < |clusters| :: clusters[i].name
  }

  /** Every cluster a virtual host routes to is a static cluster. */
  lemma {:induction false} RouteTargetsAreClusters(g: BootstrapGenerator, svc: Service)
    ensures RouteTargets(VHosts(svc.name, svc.servicePorts)) <= ClusterNames(g.StaticClusters(svc))
  {
    var clusters := g.StaticClusters(svc);
    VHostsRouteTargets(svc.name, svc.servicePorts);
    forall c | c in RouteTargets(VHosts(svc.name, svc.servicePorts)) ensures c in ClusterNames(clusters) {
      var i :| 0 <= i < |svc.servicePorts| && c == LocalServiceName(svc.servicePorts[i].port);
      PortClusterNamed(g, svc, i);
    }
  }

  lemma PortClusterNamed(g: BootstrapGenerator, svc: Service, i: nat)
    requires i < |svc.servicePorts|
    ensures LocalServiceName(svc.servicePorts[i].port) in ClusterNames(g.StaticClusters(svc))
  {
    var clusters := g.StaticClusters(svc);
    var head := [g.XdsLocalCluster(), g.OpaLocalCluster()] + (if g.spireConfig.enabled then [g.SpireLocalCluster()] else []);
    var tail := seq(|svc.servicePorts|, k requires 0 <= k < |svc.servicePorts| => g.SvcLocalCluster(svc.servicePorts[k].port));
    assert clusters == head + tail;
    assert clusters[|head| + i] == g.SvcLocalCluster(svc.servicePorts[i].port);
  }

  /** Cross-references of the bootstrap: every cluster a virtual host routes to, the
      authorization cluster when there is one, and the ADS cluster are all static
      clusters; the ADS cluster is the first of them. */
  lemma RoutedClustersExist(g: BootstrapGenerator)
    ensures var b := g.BootstrapConfiguration();
      var chain := b.staticResources.listeners[0].filterChains[0];
      var hcm := chain.filters[0].hcm;
      var names := ClusterNames(b.staticResources.clusters);
      |b.staticResources.listeners| == 1 &&
      RouteTargets(hcm.virtualHosts) <= names &&
      (forall i :: 0 <= i < |hcm.httpFilters| && hcm.httpFilters[i].config.ExtAuthz? ==>
        hcm.httpFilters[i].config.grpcClusterName in names) &&
      b.dynamicResources.value.adsConfig.grpcClusterNames == [b.staticResources.clusters[0].name]
  {
    var svc := g.sidecarCfg.service;
    var b := g.BootstrapConfiguration();
    var clusters := g.StaticClusters(svc);
    var vhosts := VHosts(svc.name, svc.servicePorts);
    var hcm := InboundChain(svc.authn, AuthzClusterName(svc), vhosts).filters[0].hcm;
    assert b.staticResources.clusters == clusters;
    assert b.staticResources.listeners[0].filterChains[0].filters[0].hcm == hcm;
    assert hcm.virtualHosts == vhosts;
    RouteTargetsAreClusters(g, svc);
    StaticClustersOrder(g, svc);
    assert clusters[1].name == ClusterNameLocalOpa;
    assert ClusterNameLocalOpa in ClusterNames(clusters);
  }

  /** The listener authenticates iff the service has authn and authorises against
      local_opa iff it has authz; it has no TLS socket, whatever the SPIRE domain. */
  lemma SidecarListenerFilters(g: BootstrapGenerator, svc: Service)
    ensures var listeners := g.StaticListeners(svc);
      var chain := listeners[0].filterChains[0];
      var filters := chain.filters[0].hcm.httpFilters;
      |listeners| == 1 && |listeners[0].filterChains| == 1 && chain.transportSocket.None? &&
      (Authn() in filters <==> svc.authn) &&
      (Authz("local_opa") in filters <==> svc.authz)
  {
    var filters := g.StaticListeners(svc)[0].filterChains[0].filters[0].hcm.httpFilters;
    if svc.authz {
      assert filters[|filters| - 2] == Authz("local_opa");
    }
  }
}
