/** pkg/reconciler/registrar.go: the registry of endpoints that the registrar
    reconciler builds from EndpointSlices, one slice per reconcile. */
module Registrar {
  import opened Wrappers
  import opened Types

  /** The label naming the Service an EndpointSlice belongs to (pkg/reconciler/base.go). */
  const ServiceNameLabel := "kubernetes.io/service-name"
  /** The protocol of a port whose AppProtocol is nil. */
  const DefaultAppProtocol := "tcp"

  datatype EndpointPort = EndpointPort(port: Option<int32>, appProtocol: Option<string>)
  datatype SliceEndpoint = SliceEndpoint(addresses: seq<string>)
  datatype EndpointSlice = EndpointSlice(
    name: string,
    namespace: string,
    labels: map<string, string>,
    endpoints: seq<SliceEndpoint>,
    ports: seq<EndpointPort>)

  /** The outcome of one client Get. */
  datatype Fetch = Fetched(slice: EndpointSlice) | FetchFailed(err: string)

  /** reconcile.Result. */
  datatype ReconcileResult = ReconcileResult(requeue: bool, requeueAfterSeconds: nat)
  const EmptyResult := ReconcileResult(false, 0)

  /** Endpoint key to endpoint, for one slice. */
  type SliceEntries = map<string, Endpoint>
  /** ServiceID to slice name to the slice's entries. */
  type Registry = map<ServiceID, map<string, SliceEntries>>

  /** Every entry is stored under its own key. */
  ghost predicate Keyed(m: SliceEntries)
  {
    forall k :: k in m ==> m[k].Key() == k
  }

  /** The ID a slice is filed under: its service-name label (the empty string when the
      label is missing, as a Go map read gives) and its namespace. */
  function SliceServiceID(es: EndpointSlice): (id: ServiceID)
    ensures ServiceNameLabel in es.labels ==> id == NewServiceID(es.labels[ServiceNameLabel], es.namespace)
    ensures ServiceNameLabel !in es.labels ==> id.ToString() == "." + es.namespace
  {
    var service := if ServiceNameLabel in es.labels then es.labels[ServiceNameLabel] else "";
    NewServiceID(service, es.namespace)
  }

  // ---------------------------------------------------------------------
  // What the triple loop produces
  // ---------------------------------------------------------------------

  /** The endpoint a port with a Port value gives for one address. */
  function PortEndpoint(addr: string, p: EndpointPort): (e: Endpoint)
    requires p.port.Some?
    ensures e.ip == addr
    ensures p.appProtocol.None? ==> e.protocol == DefaultAppProtocol
    ensures p.appProtocol.Some? ==> e.protocol == p.appProtocol.value
    ensures p.port.value >= 0 ==> e.port as int == p.port.value as int
  {
    NewEndpoint(addr, p.port, Some(p.appProtocol.GetOr(DefaultAppProtocol)))
  }

  /** The innermost loop for one address: ports in order, those without a Port skipped. */
  function PortEndpoints(addr: string, ports: seq<EndpointPort>): seq<Endpoint>
  {
    if |ports| == 0 then []
    else
      var p := ports[|ports| - 1];
      PortEndpoints(addr, ports[..|ports| - 1]) + (if p.port.Some? then [PortEndpoint(addr, p)] else [])
  }

  /** The middle loop: addresses in order. */
  function AddressEndpoints(addrs: seq<string>, ports: seq<EndpointPort>): seq<Endpoint>
  {
    if |addrs| == 0 then []
    else AddressEndpoints(addrs[..|addrs| - 1], ports) + PortEndpoints(addrs[|addrs| - 1], ports)
  }

  /** The outer loop: endpoints in order. */
  function SliceEndpoints(eps: seq<SliceEndpoint>, ports: seq<EndpointPort>): seq<Endpoint>
  {
    if |eps| == 0 then []
    else SliceEndpoints(eps[..|eps| - 1], ports) + AddressEndpoints(eps[|eps| - 1].addresses, ports)
  }

  lemma PortEndpointsStep(addr: string, ports: seq<EndpointPort>, k: nat)
    requires k < |ports|
    ensures PortEndpoints(addr, ports[..k + 1]) ==
      PortEndpoints(addr, ports[..k]) + (if ports[k].port.Some? then [PortEndpoint(addr, ports[k])] else [])
  {
    assert ports[..k + 1][..k] == ports[..k];
  }

  lemma AddressEndpointsStep(addrs: seq<string>, ports: seq<EndpointPort>, j: nat)
    requires j < |addrs|
    ensures AddressEndpoints(addrs[..j + 1], ports) == AddressEndpoints(addrs[..j], ports) + PortEndpoints(addrs[j], ports)
  {
    assert addrs[..j + 1][..j] == addrs[..j];
  }

  lemma SliceEndpointsStep(eps: seq<SliceEndpoint>, ports: seq<EndpointPort>, i: nat)
    requires i < |eps|
    ensures SliceEndpoints(eps[..i + 1], ports) == SliceEndpoints(eps[..i], ports) + AddressEndpoints(eps[i].addresses, ports)
  {
    assert eps[..i + 1][..i] == eps[..i];
  }

  lemma ConcatAssoc(a: seq<Endpoint>, b: seq<Endpoint>, c: seq<Endpoint>)
    ensures (a + b) + c == a + (b + c)
  {
  }

  /** Stores each endpoint under its key, in order. */
  function InsertAll(m: SliceEntries, es: seq<Endpoint>): SliceEntries
  {
    if |es| == 0 then m
    else
      var e := es[|es| - 1];
      InsertAll(m, es[..|es| - 1])[e.Key() := e]
  }

  /** The keys afterwards are the old keys plus the produced ones; an old entry whose
      key is not produced is kept as it was; a new entry is a produced endpoint stored
      under its own key. */
  lemma {:induction false} InsertAllSpec(m: SliceEntries, es: seq<Endpoint>)
    ensures forall k :: k in InsertAll(m, es) <==> k in m || exists i :: 0 <= i < |es| && es[i].Key() == k
    ensures forall k :: k in m && k in InsertAll(m, es) && InsertAll(m, es)[k] != m[k] ==>
      exists i :: 0 <= i < |es| && es[i].Key() == k
    ensures forall k :: k in InsertAll(m, es) && k !in m ==>
      exists i :: 0 <= i < |es| && es[i].Key() == k && InsertAll(m, es)[k] == es[i]
    ensures Keyed(m) ==> Keyed(InsertAll(m, es))
  {
    if |es| > 0 {
      var init := es[..|es| - 1];
      InsertAllSpec(m, init);
      assert forall i :: 0 <= i < |init| ==> init[i] == es[i];
    }
  }

  lemma InsertAllSnoc(m: SliceEntries, es: seq<Endpoint>, e: Endpoint)
    ensures InsertAll(m, es + [e]) == InsertAll(m, es)[e.Key() := e]
  {
    assert (es + [e])[..|es|] == es;
  }

  /** Endpoints with pairwise distinct keys, none already present, each add one entry. */
  lemma {:induction false} InsertAllSize(m: SliceEntries, es: seq<Endpoint>)
    requires forall i, j :: 0 <= i < j < |es| ==> es[i].Key() != es[j].Key()
    requires forall i :: 0 <= i < |es| ==> es[i].Key() !in m
    ensures |InsertAll(m, es)| == |m| + |es|
  {
    if |es| > 0 {
      var init := es[..|es| - 1];
      InsertAllSize(m, init);
      var e := es[|es| - 1];
      InsertAllSpec(m, init);
      assert e.Key() !in InsertAll(m, init);
    }
  }

  // ---------------------------------------------------------------------
  // The registry transition
  // ---------------------------------------------------------------------

  /** The registry with registry[svc][name] set to entries, the outer map created if absent. */
  function WithSlice(reg: Registry, svc: ServiceID, name: string, entries: SliceEntries): Registry
  {
    reg[svc := (if svc in reg then reg[svc] else map[])[name := entries]]
  }

  /** The registry once the outer and inner maps of registry[svc][name] exist. */
  function Prepared(reg: Registry, svc: ServiceID, name: string): (r: Registry)
    ensures svc in r && name in r[svc]
  {
    var withOuter := if svc !in reg then reg[svc := map[]] else reg;
    if name !in withOuter[svc] then withOuter[svc := withOuter[svc][name := map[]]] else withOuter
  }

  /** Storing into the prepared registry is WithSlice; what was prepared is the old entry. */
  lemma StorePrepared(reg: Registry, svc: ServiceID, name: string, entries: SliceEntries)
    ensures Prepared(reg, svc, name)[svc][name] == EntriesOf(reg, svc, name)
    ensures var p := Prepared(reg, svc, name);
      p[svc := p[svc][name := entries]] == WithSlice(reg, svc, name, entries)
  {
    var p := Prepared(reg, svc, name);
    var outer := if svc in reg then reg[svc] else map[];
    assert p[svc][name := entries] == outer[name := entries];
  }

  /** The slice's current entries; none when the service or the slice is absent. */
  function EntriesOf(reg: Registry, svc: ServiceID, name: string): SliceEntries
  {
    if svc in reg && name in reg[svc] then reg[svc][name] else map[]
  }

  /** The registry after reconciling a fetched slice with these endpoints and ports. */
  function ApplySlice(reg: Registry, svc: ServiceID, name: string,
                      eps: seq<SliceEndpoint>, ports: seq<EndpointPort>): Registry
  {
    if |eps| == 0 then
      if svc in reg && name in reg[svc] then reg[svc := reg[svc] - {name}] else reg
    else
      WithSlice(reg, svc, name, InsertAll(EntriesOf(reg, svc, name), SliceEndpoints(eps, ports)))
  }

  /** The triple loop of Reconcile: endpoints, then their addresses, then the ports,
      storing one endpoint per port that has a Port value. */
  method FillSlice(entries0: SliceEntries, eps: seq<SliceEndpoint>, ports: seq<EndpointPort>)
    returns (entries: SliceEntries)
    ensures entries == InsertAll(entries0, SliceEndpoints(eps, ports))
  {
    entries := entries0;
    ghost var produced: seq<Endpoint> := [];
    var i := 0;
    while i < |eps|
      invariant 0 <= i <= |eps|
      invariant produced == SliceEndpoints(eps[..i], ports)
      invariant entries == InsertAll(entries0, produced)
      modifies {}
    {
      ghost var before := produced;
      var addrs := eps[i].addresses;
      var j := 0;
      while j < |addrs|
        invariant 0 <= j <= |addrs|
        invariant produced == before + AddressEndpoints(addrs[..j], ports)
        invariant entries == InsertAll(entries0, produced)
      {
        ghost var done := produced;
        var k := 0;
        while k < |ports|
          invariant 0 <= k <= |ports|
          invariant produced == done + PortEndpoints(addrs[j], ports[..k])
          invariant entries == InsertAll(entries0, produced)
        {
          var port := ports[k];
          PortEndpointsStep(addrs[j], ports, k);
          if port.port.Some? {
            var appProtocol := port.appProtocol;
            if appProtocol.None? {
              appProtocol := Some(DefaultAppProtocol);
            }
            var endpoint := NewEndpoint(addrs[j], port.port, appProtocol);
            InsertAllSnoc(entries0, produced, endpoint);
            ConcatAssoc(done, PortEndpoints(addrs[j], ports[..k]), [endpoint]);
            produced := produced + [endpoint];
            entries := entries[endpoint.Key() := endpoint];
          }
          k := k + 1;
        }
        assert ports[..k] == ports;
        AddressEndpointsStep(addrs, ports, j);
        ConcatAssoc(before, AddressEndpoints(addrs[..j], ports), PortEndpoints(addrs[j], ports));
        j := j + 1;
      }
      assert addrs[..j] == addrs;
      SliceEndpointsStep(eps, ports, i);
      i := i + 1;
    }
    assert eps[..i] == eps;
  }

  /** The registry invariant: every slice stores each endpoint under its own key. */
  ghost predicate WellKeyed(reg: Registry)
  {
    forall s, n :: s in reg && n in reg[s] ==> Keyed(reg[s][n])
  }

  /** Reconciling a slice keeps every endpoint under its own key. */
  lemma ApplySliceKeepsValid(reg: Registry, svc: ServiceID, name: string,
                             eps: seq<SliceEndpoint>, ports: seq<EndpointPort>)
    requires WellKeyed(reg)
    ensures WellKeyed(ApplySlice(reg, svc, name, eps, ports))
  {
    assert Keyed(EntriesOf(reg, svc, name));
    InsertAllSpec(EntriesOf(reg, svc, name), SliceEndpoints(eps, ports));
  }

  /** All endpoint keys of all slices of a service. */
  ghost function ServiceKeys(reg: Registry, svc: ServiceID): set<string>
  {
    if svc in reg then set n, k | n in reg[svc] && k in reg[svc][n] :: k else {}
  }

  /** The entries stored under the given keys. */
  ghost function Values(m: SliceEntries, ks: set<string>): set<Endpoint>
    requires ks <= m.Keys
  {
    set k | k in ks :: m[k]
  }

  lemma ValuesAdd(m: SliceEntries, ks: set<string>, k: string)
    requires ks <= m.Keys && k in m
    ensures Values(m, ks + {k}) == Values(m, ks) + {m[k]}
  {
  }

  /** In a keyed map each entry has a distinct key, so there are as many entries as keys,
      each entry is found under its own key, and no two entries share a key. */
  lemma ValuesOfKeyed(m: SliceEntries, ks: set<string>)
    requires Keyed(m) && ks <= m.Keys
    ensures |Values(m, ks)| == |ks|
    ensures forall e :: e in Values(m, ks) ==> e.Key() in ks && m[e.Key()] == e
    ensures forall e1, e2 :: e1 in Values(m, ks) && e2 in Values(m, ks) && e1.Key() == e2.Key() ==> e1 == e2
  {
    ValuesMembers(m, ks);
    ValuesCount(m, ks);
  }

  lemma ValuesMembers(m: SliceEntries, ks: set<string>)
    requires Keyed(m) && ks <= m.Keys
    ensures forall e :: e in Values(m, ks) ==> e.Key() in ks && m[e.Key()] == e
  {
  }

  lemma {:induction false} ValuesCount(m: SliceEntries, ks: set<string>)
    requires Keyed(m) && ks <= m.Keys
    ensures |Values(m, ks)| == |ks|
    decreases |ks|
  {
    if ks != {} {
      var k :| k in ks;
      var rest := ks - {k};
      ValuesCount(m, rest);
      ValuesMembers(m, rest);
      ValuesAdd(m, rest, k);
      assert rest + {k} == ks;
      assert m[k].Key() == k && k !in rest;
      assert m[k] !in Values(m, rest);
    } else {
      assert Values(m, ks) == {};
    }
  }

  /** Every entry of unique is an entry of one of the slices, under the same key. */
  ghost predicate DrawnFrom(unique: SliceEntries, slices: map<string, SliceEntries>)
  {
    Keyed(unique) &&
    forall k :: k in unique ==> exists n :: n in slices && k in slices[n] && slices[n][k] == unique[k]
  }

  /** Every key of the named slices is a key of unique. */
  ghost predicate Covers(unique: SliceEntries, slices: map<string, SliceEntries>, names: set<string>)
  {
    forall n, k :: n in names && n in slices && k in slices[n] ==> k in unique
  }

  lemma DrawnFromStep(unique: SliceEntries, slices: map<string, SliceEntries>, n: string, key: string)
    requires DrawnFrom(unique, slices) && n in slices && key in slices[n] && Keyed(slices[n])
    ensures DrawnFrom(unique[key := slices[n][key]], slices)
  {
  }

  lemma CoversStep(unique: SliceEntries, slices: map<string, SliceEntries>, names: set<string>, n: string)
    requires Covers(unique, slices, names) && n in slices
    requires forall k :: k in slices[n] ==> k in unique
    ensures Covers(unique, slices, names + {n})
  {
  }

  lemma CoversMono(unique: SliceEntries, larger: SliceEntries, slices: map<string, SliceEntries>, names: set<string>)
    requires Covers(unique, slices, names) && forall k :: k in unique ==> k in larger
    ensures Covers(larger, slices, names)
  {
  }

  /** The inner loop: every entry of slice n stored under its key. */
  method MergeSlice(unique: SliceEntries, slices: map<string, SliceEntries>, n: string) returns (merged: SliceEntries)
    requires n in slices && Keyed(slices[n]) && DrawnFrom(unique, slices)
    ensures DrawnFrom(merged, slices)
    ensures forall k :: k in unique ==> k in merged
    ensures forall k :: k in slices[n] ==> k in merged
  {
    merged := unique;
    var endpoints := slices[n];
    var keys := endpoints.Keys;
    while keys != {}
      invariant keys <= endpoints.Keys
      invariant DrawnFrom(merged, slices)
      invariant forall k :: k in unique ==> k in merged
      invariant forall k :: k in endpoints && k !in keys ==> k in merged
      decreases |keys|
    {
      var key :| key in keys;
      DrawnFromStep(merged, slices, n, key);
      merged := merged[key := endpoints[key]];
      keys := keys - {key};
    }
  }

  lemma UnionKeys(unique: SliceEntries, slices: map<string, SliceEntries>)
    requires DrawnFrom(unique, slices) && Covers(unique, slices, slices.Keys)
    ensures unique.Keys == set n, k | n in slices && k in slices[n] :: k
  {
  }

  /** The first loop of getUniqueEndpointsForService: every entry of every slice,
      merged by key in whatever order the maps are visited. */
  method UnionBySlice(slices: map<string, SliceEntries>) returns (unique: SliceEntries)
    requires forall n :: n in slices ==> Keyed(slices[n])
    ensures DrawnFrom(unique, slices)
    ensures unique.Keys == set n, k | n in slices && k in slices[n] :: k
  {
    unique := map[];
    var todo := slices.Keys;
    while todo != {}
      invariant todo <= slices.Keys
      invariant DrawnFrom(unique, slices)
      invariant Covers(unique, slices, slices.Keys - todo)
      decreases |todo|
    {
      var n :| n in todo;
      var merged := MergeSlice(unique, slices, n);
      CoversMono(unique, merged, slices, slices.Keys - todo);
      unique := merged;
      CoversStep(unique, slices, slices.Keys - todo, n);
      assert slices.Keys - (todo - {n}) == (slices.Keys - todo) + {n};
      todo := todo - {n};
    }
    UnionKeys(unique, slices);
  }

  /** The second loop: the values of the merged map. */
  method ValuesByKey(unique: SliceEntries) returns (r: set<Endpoint>)
    ensures r == Values(unique, unique.Keys)
  {
    r := {};
    var rest := unique.Keys;
    while rest != {}
      invariant rest <= unique.Keys
      invariant r == Values(unique, unique.Keys - rest)
      decreases |rest|
    {
      var key :| key in rest;
      ValuesAdd(unique, unique.Keys - rest, key);
      assert unique.Keys - (rest - {key}) == (unique.Keys - rest) + {key};
      r := r + {unique[key]};
      rest := rest - {key};
    }
    assert unique.Keys - rest == unique.Keys;
  }

  class RegistrarReconciler {
    var clusterName: string
    var registry: Registry

    ghost predicate Valid()
      reads this
    {
      WellKeyed(registry)
    }

    constructor (clusterName: string)
      ensures Valid()
      ensures this.clusterName == clusterName && registry == map[]
    {
      this.clusterName := clusterName;
      registry := map[];
    }

    /** `first` is the Get by request name, `second` the re-read of the same object:
        the slice name and service ID come from the first, endpoints and ports from
        the second. */
    method Reconcile(first: Fetch, second: Fetch) returns (res: ReconcileResult, err: Option<string>)
      requires Valid()
      modifies this
      ensures Valid()
      ensures res == EmptyResult
      ensures clusterName == old(clusterName)
      ensures first.FetchFailed? ==> err == Some(first.err) && registry == old(registry)
      ensures first.Fetched? && second.FetchFailed? ==> err == Some(second.err) && registry == old(registry)
      ensures first.Fetched? && second.Fetched? ==>
        err == None &&
        registry == ApplySlice(old(registry), SliceServiceID(first.slice), first.slice.name,
                               second.slice.endpoints, second.slice.ports)
    {
      if first.FetchFailed? {
        return EmptyResult, Some(first.err);
      }
      var name := first.slice.name;
      var svc := SliceServiceID(first.slice);
      if second.FetchFailed? {
        return EmptyResult, Some(second.err);
      }
      var es := second.slice;
      if |es.endpoints| == 0 {
        if svc in registry && name in registry[svc] {
          registry := registry[svc := registry[svc] - {name}];
        }
      } else {
        // Go writes through registry[svc][name], a reference to the slice's map; the
        // model fills that map as a value and stores it back.
        if svc !in registry {
          registry := registry[svc := map[]];
        }
        if name !in registry[svc] {
          registry := registry[svc := registry[svc][name := map[]]];
        }
        assert registry == Prepared(old(registry), svc, name);
        var entries := FillSlice(registry[svc][name], es.endpoints, es.ports);
        StorePrepared(old(registry), svc, name, entries);
        registry := registry[svc := registry[svc][name := entries]];
        ApplySliceKeepsValid(old(registry), svc, name, es.endpoints, es.ports);
      }
      var unique := GetUniqueEndpointsForService(svc);
      return EmptyResult, None;
    }

    /** Every endpoint of every slice of the service, one per distinct key. */
    method GetUniqueEndpointsForService(svc: ServiceID) returns (r: set<Endpoint>)
      requires Valid()
      ensures svc !in registry ==> r == {}
      ensures forall e :: e in r ==>
        svc in registry && exists n :: n in registry[svc] && e.Key() in registry[svc][n] && registry[svc][n][e.Key()] == e
      ensures forall k :: k in ServiceKeys(registry, svc) ==> exists e :: e in r && e.Key() == k
      ensures forall e1, e2 :: e1 in r && e2 in r && e1.Key() == e2.Key() ==> e1 == e2
      ensures |r| == |ServiceKeys(registry, svc)|
    {
      var unique: SliceEntries := map[];
      if svc in registry {
        unique := UnionBySlice(registry[svc]);
      }
      r := ValuesByKey(unique);
      ValuesOfKeyed(unique, unique.Keys);
      assert unique.Keys == ServiceKeys(registry, svc);
      if svc in registry {
        forall e | e in r
          ensures exists n :: n in registry[svc] && e.Key() in registry[svc][n] && registry[svc][n][e.Key()] == e
        {
          assert e.Key() in unique;
        }
      }
    }
  }
}
