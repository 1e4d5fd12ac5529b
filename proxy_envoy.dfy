/** internal/proxy/envoy/filterchain.go: the controller's inbound HTTP filter chain. Unlike
    the chain of internal/core/config/envoy it sanitises and sets the client certificate
    details, and it terminates TLS with a SPIFFE validation context when a trust domain
    is given. Its hcmHttpFilters is the same as the one of internal/core/config/envoy and
    is modelled once, by EnvoyConfig.HttpFilters. */
module ProxyEnvoy {
  import opened Wrappers
  import opened Types
  import opened EnvoyApi
  import opened EnvoyConfig

  const TlsTransportSocketName: string := "envoy.transport_sockets.tls"

  /** The SDS secret validating client certificates of the trust domain. */
  function SpiffeSecretName(spireDomain: string): (r: string)
    ensures r == "spiffe://" + spireDomain
  {
    "spiffe://" + spireDomain
  }

  /** The TLS transport socket: a downstream TLS context whose validation context is the
      SDS secret "spiffe://<domain>", fetched over gRPC from the local_spire cluster. */
  function TlsSocket(spireDomain: string): (t: TransportSocket)
    ensures t.name == "envoy.transport_sockets.tls"
    ensures t.tls.validationSecretName == "spiffe://" + spireDomain
    ensures t.tls.validationSdsConfig == ApiSource(ApiV3, ApiConfigSource(Grpc, ["local_spire"]))
  {
    TransportSocket(TlsTransportSocketName,
      DownstreamTlsContext(SpiffeSecretName(spireDomain), ApiSource(ApiV3, ApiConfigSource(Grpc, [ClusterNameLocalSpire]))))
  }

  /** The chain httpTLSFilterChain returns. */
  function TlsInboundChain(enableAuthn: bool, authzClusterName: string, spireDomain: string,
                           vhosts: seq<VirtualHost>): FilterChain
  {
    var hcm := NewHttpConnectionManager(InboundStatPrefix, vhosts).(
      httpFilters := HttpFilters(enableAuthn, authzClusterName),
      forwardClientCertDetails := SanitizeSet,
      setCurrentClientCertUri := true);
    FilterChain([Filter(HcmFilterName, hcm)], if spireDomain != "" then Some(TlsSocket(spireDomain)) else None)
  }

  /** httpTLSFilterChain: the connection manager is built, then its filters and client
      certificate fields are set; the chain gets a transport socket afterwards, only for
      a non-empty trust domain. */
  method HttpTLSFilterChain(enableAuthn: bool, authzClusterName: string, spireDomain: string, vhosts: seq<VirtualHost>)
    returns (chain: FilterChain)
    ensures chain == TlsInboundChain(enableAuthn, authzClusterName, spireDomain, vhosts)
  {
    var filters: seq<Filter> := [];
    var hcm := NewHttpConnectionManager(InboundStatPrefix, vhosts);
    var httpFilters := HcmHttpFilters(enableAuthn, authzClusterName);
    hcm := hcm.(httpFilters := httpFilters);
    hcm := hcm.(forwardClientCertDetails := SanitizeSet);
    hcm := hcm.(setCurrentClientCertUri := true);
    var hcmFilter := Filter(HcmFilterName, hcm);
    filters := filters + [hcmFilter];
    chain := FilterChain(filters, None);
    if spireDomain != "" {
      chain := chain.(transportSocket := Some(TlsSocket(spireDomain)));
    }
  }

  /** generateInboundHTTPFilterChain. */
  method GenerateInboundHTTPFilterChain(enableAuthn: bool, authzClusterName: string, spireDomain: string,
                                        vhosts: seq<VirtualHost>) returns (chains: seq<FilterChain>)
    ensures chains == [TlsInboundChain(enableAuthn, authzClusterName, spireDomain, vhosts)]
  {
    chains := [];
    var chain := HttpTLSFilterChain(enableAuthn, authzClusterName, spireDomain, vhosts);
    chains := chains + [chain];
  }

  /** TLS is terminated exactly when a trust domain is given; otherwise the chain is
      the plain chain of internal/core/config/envoy except for the client certificate
      settings. Either way there is one network filter, the connection manager over the
      given virtual hosts, with the client certificate details sanitised and the URI set. */
  lemma TlsChainShape(enableAuthn: bool, authzClusterName: string, spireDomain: string, vhosts: seq<VirtualHost>)
    ensures var chain := TlsInboundChain(enableAuthn, authzClusterName, spireDomain, vhosts);
      var plain := InboundChain(enableAuthn, authzClusterName, vhosts);
      (chain.transportSocket.Some? <==> spireDomain != "") &&
      (chain.transportSocket.Some? ==> chain.transportSocket.value.tls.validationSecretName == "spiffe://" + spireDomain) &&
      |chain.filters| == 1 && chain.filters[0].name == plain.filters[0].name &&
      chain.filters[0].hcm == plain.filters[0].hcm.(forwardClientCertDetails := SanitizeSet, setCurrentClientCertUri := true) &&
      chain.filters[0].hcm.virtualHosts == vhosts &&
      (spireDomain == "" ==>
        chain == plain.(filters := [plain.filters[0].(hcm := chain.filters[0].hcm)]))
  {
  }

  /** The secret name is injective in the trust domain: two domains never share a
      validation context. */
  lemma SecretNameInjective(d1: string, d2: string)
    ensures SpiffeSecretName(d1) == SpiffeSecretName(d2) <==> d1 == d2
  {
    if SpiffeSecretName(d1) == SpiffeSecretName(d2) {
      assert d1 == SpiffeSecretName(d1)[9..];
      assert d2 == SpiffeSecretName(d2)[9..];
    }
  }

  /** The GenerateInboundHTTPListener of internal/proxy/envoy is not part of this model;
      it is taken to be the listener of internal/core/config/envoy around this package's
      filter chain, which gets the trust domain. */
  function TlsInboundHTTPListener(enableAuthn: bool, authzClusterName: string, spireDomain: string,
                                  vhosts: seq<VirtualHost>): (l: Listener)
    ensures l.name == "inbound_http" && l.address == SocketAddress("0.0.0.0", 18080)
    ensures l.filterChains == [TlsInboundChain(enableAuthn, authzClusterName, spireDomain, vhosts)]
  {
    Listener(InboundListenerName, SocketAddress(InboundListenerAddress, InboundListenerPort),
             [TlsInboundChain(enableAuthn, authzClusterName, spireDomain, vhosts)])
  }
}
