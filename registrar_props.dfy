/** What reconciling one EndpointSlice does to the registry, stated over
    Registrar.ApplySlice, the transition Reconcile is proved to perform. */
module RegistrarProperties {
  import opened Wrappers
  import opened Types
  import opened Registrar

  /** The keys of a list of endpoints. */
  ghost function KeysOf(es: seq<Endpoint>): set<string>
  {
    set i | 0 <= i < |es| :: es[i].Key()
  }

  // ---------------------------------------------------------------------
  // Which endpoints the triple loop produces
  // ---------------------------------------------------------------------

  lemma {:induction false} PortEndpointsMembers(addr: string, ports: seq<EndpointPort>)
    ensures forall e :: e in PortEndpoints(addr, ports) <==>
      exists q :: 0 <= q < |ports| && ports[q].port.Some? && e == PortEndpoint(addr, ports[q])
    decreases |ports|
  {
    if |ports| > 0 {
      var init := ports[..|ports| - 1];
      PortEndpointsMembers(addr, init);
      assert forall q :: 0 <= q < |init| ==> init[q] == ports[q];
    }
  }

  lemma {:induction false} AddressEndpointsMembers(addrs: seq<string>, ports: seq<EndpointPort>)
    ensures forall e :: e in AddressEndpoints(addrs, ports) <==>
      exists j :: 0 <= j < |addrs| && e in PortEndpoints(addrs[j], ports)
    decreases |addrs|
  {
    if |addrs| > 0 {
      var init := addrs[..|addrs| - 1];
      AddressEndpointsMembers(init, ports);
      assert forall j :: 0 <= j < |init| ==> init[j] == addrs[j];
    }
  }

  lemma {:induction false} SliceEndpointsByEndpoint(eps: seq<SliceEndpoint>, ports: seq<EndpointPort>)
    ensures forall e :: e in SliceEndpoints(eps, ports) <==>
      exists i :: 0 <= i < |eps| && e in AddressEndpoints(eps[i].addresses, ports)
    decreases |eps|
  {
    if |eps| > 0 {
      var init := eps[..|eps| - 1];
      SliceEndpointsByEndpoint(init, ports);
      assert forall i :: 0 <= i < |init| ==> init[i] == eps[i];
    }
  }

  /** An endpoint is produced exactly when it comes from some address of some endpoint
      of the slice and some port that has a Port value. */
  lemma SliceEndpointsMembers(eps: seq<SliceEndpoint>, ports: seq<EndpointPort>, e: Endpoint)
    ensures e in SliceEndpoints(eps, ports) <==>
      exists i, j, q :: 0 <= i < |eps| && 0 <= j < |eps[i].addresses| && 0 <= q < |ports| &&
        ports[q].port.Some? && e == PortEndpoint(eps[i].addresses[j], ports[q])
  {
    SliceEndpointsByEndpoint(eps, ports);
    if e in SliceEndpoints(eps, ports) {
      var i :| 0 <= i < |eps| && e in AddressEndpoints(eps[i].addresses, ports);
      AddressEndpointsMembers(eps[i].addresses, ports);
      var j :| 0 <= j < |eps[i].addresses| && e in PortEndpoints(eps[i].addresses[j], ports);
      PortEndpointsMembers(eps[i].addresses[j], ports);
    }
    if exists i, j, q :: 0 <= i < |eps| && 0 <= j < |eps[i].addresses| && 0 <= q < |ports| &&
        ports[q].port.Some? && e == PortEndpoint(eps[i].addresses[j], ports[q]) {
      var i, j, q :| 0 <= i < |eps| && 0 <= j < |eps[i].addresses| && 0 <= q < |ports| &&
        ports[q].port.Some? && e == PortEndpoint(eps[i].addresses[j], ports[q]);
      PortEndpointsMembers(eps[i].addresses[j], ports);
      AddressEndpointsMembers(eps[i].addresses, ports);
    }
  }

  // ---------------------------------------------------------------------
  // The registry transition
  // ---------------------------------------------------------------------

  /** Only registry[svc][name] is written: other services and the other slices of svc
      keep exactly their entries, and svc itself is never removed. */
  lemma ReconcileWritesOnlyItsSlice(reg: Registry, svc: ServiceID, name: string,
                                    eps: seq<SliceEndpoint>, ports: seq<EndpointPort>)
    ensures forall s :: s != svc ==>
      (s in ApplySlice(reg, svc, name, eps, ports) <==> s in reg) &&
      (s in reg ==> ApplySlice(reg, svc, name, eps, ports)[s] == reg[s])
    ensures svc in reg ==> svc in ApplySlice(reg, svc, name, eps, ports)
    ensures svc in reg ==> forall n :: n != name ==>
      (n in ApplySlice(reg, svc, name, eps, ports)[svc] <==> n in reg[svc]) &&
      (n in reg[svc] ==> ApplySlice(reg, svc, name, eps, ports)[svc][n] == reg[svc][n])
  {
  }

  /** A slice with no endpoints deletes its own entry, if any, and nothing else; the
      service's entry stays even when it becomes empty. */
  lemma EmptySliceRemovesItsEntry(reg: Registry, svc: ServiceID, name: string, ports: seq<EndpointPort>)
    ensures var r := ApplySlice(reg, svc, name, [], ports);
      (svc in r <==> svc in reg) &&
      (svc in r ==> name !in r[svc] && r[svc].Keys == reg[svc].Keys - {name})
  {
  }

  /** A non-empty slice is merged into the slice's entry: the entry exists afterwards,
      every key it held is still there, and an entry is replaced only by a produced
      endpoint with the same key. */
  lemma NonEmptySliceMerges(reg: Registry, svc: ServiceID, name: string,
                            eps: seq<SliceEndpoint>, ports: seq<EndpointPort>)
    requires |eps| > 0
    ensures svc in ApplySlice(reg, svc, name, eps, ports)
    ensures name in ApplySlice(reg, svc, name, eps, ports)[svc]
    ensures forall k :: k in EntriesOf(reg, svc, name) ==> k in ApplySlice(reg, svc, name, eps, ports)[svc][name]
    ensures forall k :: k in EntriesOf(reg, svc, name) && k !in KeysOf(SliceEndpoints(eps, ports)) ==>
      ApplySlice(reg, svc, name, eps, ports)[svc][name][k] == EntriesOf(reg, svc, name)[k]
    ensures ApplySlice(reg, svc, name, eps, ports)[svc][name].Keys ==
      EntriesOf(reg, svc, name).Keys + KeysOf(SliceEndpoints(eps, ports))
  {
    var es := SliceEndpoints(eps, ports);
    InsertAllSpec(EntriesOf(reg, svc, name), es);
  }

  /** Every (address, port) pair whose port has a Port value is stored under its key,
      and every entry that was not there before is such a pair's endpoint. */
  lemma EveryPairIsStored(reg: Registry, svc: ServiceID, name: string,
                          eps: seq<SliceEndpoint>, ports: seq<EndpointPort>)
    requires |eps| > 0
    ensures forall i, j, q ::
      (0 <= i < |eps| && 0 <= j < |eps[i].addresses| && 0 <= q < |ports| && ports[q].port.Some?) ==>
        PortEndpoint(eps[i].addresses[j], ports[q]).Key() in ApplySlice(reg, svc, name, eps, ports)[svc][name]
    ensures forall k :: k in ApplySlice(reg, svc, name, eps, ports)[svc][name] && k !in EntriesOf(reg, svc, name) ==>
      exists i, j, q :: 0 <= i < |eps| && 0 <= j < |eps[i].addresses| && 0 <= q < |ports| &&
        ports[q].port.Some? && ApplySlice(reg, svc, name, eps, ports)[svc][name][k] == PortEndpoint(eps[i].addresses[j], ports[q])
  {
    var es := SliceEndpoints(eps, ports);
    var entries := ApplySlice(reg, svc, name, eps, ports)[svc][name];
    InsertAllSpec(EntriesOf(reg, svc, name), es);
    forall i, j, q | 0 <= i < |eps| && 0 <= j < |eps[i].addresses| && 0 <= q < |ports| && ports[q].port.Some?
      ensures PortEndpoint(eps[i].addresses[j], ports[q]).Key() in entries
    {
      var e := PortEndpoint(eps[i].addresses[j], ports[q]);
      SliceEndpointsMembers(eps, ports, e);
      var x :| 0 <= x < |es| && es[x] == e;
    }
    forall k | k in entries && k !in EntriesOf(reg, svc, name)
      ensures exists i, j, q ::
        0 <= i < |eps| && 0 <= j < |eps[i].addresses| && 0 <= q < |ports| &&
        ports[q].port.Some? && entries[k] == PortEndpoint(eps[i].addresses[j], ports[q])
    {
      var x :| 0 <= x < |es| && es[x].Key() == k && entries[k] == es[x];
      SliceEndpointsMembers(eps, ports, es[x]);
    }
  }

  /** With no ports nothing is stored, yet the slice's entry still exists. */
  lemma SliceWithoutPortsKeepsEntry(reg: Registry, svc: ServiceID, name: string, eps: seq<SliceEndpoint>)
    requires |eps| > 0
    ensures name in ApplySlice(reg, svc, name, eps, [])[svc]
    ensures ApplySlice(reg, svc, name, eps, [])[svc][name] == EntriesOf(reg, svc, name)
  {
    NoPortsNoEndpoints(eps);
  }

  lemma {:induction false} NoPortsNoEndpoints(eps: seq<SliceEndpoint>)
    ensures SliceEndpoints(eps, []) == []
    decreases |eps|
  {
    if |eps| > 0 {
      NoPortsNoEndpoints(eps[..|eps| - 1]);
      AddressesNoPorts(eps[|eps| - 1].addresses);
    }
  }

  lemma {:induction false} AddressesNoPorts(addrs: seq<string>)
    ensures AddressEndpoints(addrs, []) == []
    decreases |addrs|
  {
    if |addrs| > 0 {
      AddressesNoPorts(addrs[..|addrs| - 1]);
    }
  }

  /** A stored endpoint that the slice no longer lists survives the reconcile: here the
      slice moved from oldIp to newIp and the entry for oldIp is still there. */
  lemma StaleEndpointSurvives(svc: ServiceID, name: string, oldIp: string, newIp: string,
                              port: int32, protocol: string)
    requires oldIp != newIp && port >= 0 && ':' !in protocol
    ensures var stale := Endpoint(oldIp, port as int as uint32, protocol);
      var reg := map[svc := map[name := map[stale.Key() := stale]]];
      var r := ApplySlice(reg, svc, name, [SliceEndpoint([newIp])], [EndpointPort(Some(port), Some(protocol))]);
      stale.Key() in r[svc][name] && r[svc][name][stale.Key()] == stale && |r[svc][name]| == 2
  {
    var stale := Endpoint(oldIp, port as int as uint32, protocol);
    var current := Endpoint(newIp, port as int as uint32, protocol);
    var reg := map[svc := map[name := map[stale.Key() := stale]]];
    var eps := [SliceEndpoint([newIp])];
    var ports := [EndpointPort(Some(port), Some(protocol))];
    SingleEndpointSlice(newIp, ports[0]);
    assert SliceEndpoints(eps, ports) == [current];
    KeyInjective(stale, current);
    KeysOfOne(current);
    NonEmptySliceMerges(reg, svc, name, eps, ports);
    InsertAllSize(map[stale.Key() := stale], [current]);
  }

  lemma KeysOfOne(e: Endpoint)
    ensures KeysOf([e]) == {e.Key()}
  {
    assert [e][0] == e;
  }

  /** One address and one port with a Port value give one endpoint. */
  lemma SingleEndpointSlice(addr: string, p: EndpointPort)
    requires p.port.Some?
    ensures SliceEndpoints([SliceEndpoint([addr])], [p]) == [PortEndpoint(addr, p)]
  {
    var eps := [SliceEndpoint([addr])];
    assert PortEndpoints(addr, [p]) == [PortEndpoint(addr, p)] by {
      assert [p][..0] == [];
    }
    assert AddressEndpoints([addr], [p]) == [PortEndpoint(addr, p)] by {
      assert [addr][..0] == [];
    }
    assert eps[..0] == [];
  }

  // ---------------------------------------------------------------------
  // The cases of pkg/reconciler/registrar_test.go
  // ---------------------------------------------------------------------

  /** Two addresses and two ports give four endpoints. */
  lemma TwoAddressesTwoPortsGiveFour(svc: ServiceID, a1: string, a2: string,
                                     p1: int32, proto1: string, p2: int32, proto2: string)
    requires a1 != a2 && 0 <= p1 && 0 <= p2 && (p1 != p2 || proto1 != proto2)
    requires ':' !in proto1 && ':' !in proto2
    ensures var ports := [EndpointPort(Some(p1), Some(proto1)), EndpointPort(Some(p2), Some(proto2))];
      |ApplySlice(map[], svc, "test-slice", [SliceEndpoint([a1, a2])], ports)[svc]["test-slice"]| == 4
  {
    var eps := [SliceEndpoint([a1, a2])];
    var ports := [EndpointPort(Some(p1), Some(proto1)), EndpointPort(Some(p2), Some(proto2))];
    var es := [PortEndpoint(a1, ports[0]), PortEndpoint(a1, ports[1]), PortEndpoint(a2, ports[0]), PortEndpoint(a2, ports[1])];
    TwoAddressesTwoPorts(a1, a2, ports[0], ports[1]);
    DistinctKeysOfFour(es);
    InsertAllSize(map[], es);
  }

  lemma TwoAddressesTwoPorts(a1: string, a2: string, p: EndpointPort, q: EndpointPort)
    requires p.port.Some? && q.port.Some?
    ensures SliceEndpoints([SliceEndpoint([a1, a2])], [p, q]) ==
      [PortEndpoint(a1, p), PortEndpoint(a1, q), PortEndpoint(a2, p), PortEndpoint(a2, q)]
  {
    var eps := [SliceEndpoint([a1, a2])];
    TwoPorts(a1, p, q);
    TwoPorts(a2, p, q);
    assert AddressEndpoints([a1], [p, q]) == [PortEndpoint(a1, p), PortEndpoint(a1, q)] by {
      assert [a1][..0] == [];
    }
    assert [a1, a2][..1] == [a1];
    assert eps[..0] == [];
  }

  lemma DistinctKeysOfFour(es: seq<Endpoint>)
    requires |es| == 4 && forall x, y :: 0 <= x < y < 4 ==> es[x] != es[y]
    requires forall x :: 0 <= x < 4 ==> ':' !in es[x].protocol
    ensures forall x, y :: 0 <= x < y < 4 ==> es[x].Key() != es[y].Key()
  {
    forall x, y | 0 <= x < y < 4 ensures es[x].Key() != es[y].Key() {
      KeyInjective(es[x], es[y]);
    }
  }

  lemma TwoPorts(addr: string, p: EndpointPort, q: EndpointPort)
    requires p.port.Some? && q.port.Some?
    ensures PortEndpoints(addr, [p, q]) == [PortEndpoint(addr, p), PortEndpoint(addr, q)]
  {
    assert PortEndpoints(addr, [p]) == [PortEndpoint(addr, p)] by {
      assert [p][..0] == [];
    }
    assert [p, q][..1] == [p];
  }

  /** A port without a Port value is skipped, and a nil AppProtocol means "tcp". */
  lemma NilPortSkippedAndTcpDefault(svc: ServiceID, addr: string, p: int32, proto: string)
    requires p >= 0
    ensures var ports := [EndpointPort(None, Some(proto)), EndpointPort(Some(p), None)];
      var e := Endpoint(addr, p as int as uint32, DefaultAppProtocol);
      ApplySlice(map[], svc, "test-slice", [SliceEndpoint([addr])], ports)[svc]["test-slice"] == map[e.Key() := e]
  {
    var eps := [SliceEndpoint([addr])];
    var ports := [EndpointPort(None, Some(proto)), EndpointPort(Some(p), None)];
    var e := Endpoint(addr, p as int as uint32, DefaultAppProtocol);
    assert PortEndpoint(addr, ports[1]) == e;
    assert PortEndpoints(addr, [ports[0]]) == [] by {
      assert [ports[0]][..0] == [];
    }
    assert PortEndpoints(addr, ports) == [e] by {
      assert ports[..1] == [ports[0]];
    }
    assert AddressEndpoints([addr], ports) == [e] by {
      assert [addr][..0] == [];
    }
    assert SliceEndpoints(eps, ports) == [e] by {
      assert eps[..0] == [];
    }
    assert InsertAll(map[], [e]) == map[e.Key() := e] by {
      assert [e][..0] == [];
    }
    assert EntriesOf(map[], svc, "test-slice") == map[];
  }

  /** Reconciling two non-empty slices of a new service files both under it, and the
      service's keys are the union of what each slice produced. */
  lemma TwoSlicesOfOneService(reg: Registry, svc: ServiceID,
                              n1: string, eps1: seq<SliceEndpoint>, ports1: seq<EndpointPort>,
                              n2: string, eps2: seq<SliceEndpoint>, ports2: seq<EndpointPort>)
    requires svc !in reg && n1 != n2 && |eps1| > 0 && |eps2| > 0
    ensures var r := ApplySlice(ApplySlice(reg, svc, n1, eps1, ports1), svc, n2, eps2, ports2);
      r[svc].Keys == {n1, n2} &&
      ServiceKeys(r, svc) == KeysOf(SliceEndpoints(eps1, ports1)) + KeysOf(SliceEndpoints(eps2, ports2))
  {
    var r1 := ApplySlice(reg, svc, n1, eps1, ports1);
    var r := ApplySlice(r1, svc, n2, eps2, ports2);
    NonEmptySliceMerges(reg, svc, n1, eps1, ports1);
    NonEmptySliceMerges(r1, svc, n2, eps2, ports2);
    assert EntriesOf(reg, svc, n1) == map[];
    assert r1[svc] == map[n1 := r1[svc][n1]];
    assert EntriesOf(r1, svc, n2) == map[];
    assert r[svc] == map[n1 := r1[svc][n1], n2 := r[svc][n2]];
    ServiceKeysOfTwo(r, svc, n1, n2);
  }

  lemma ServiceKeysOfTwo(r: Registry, svc: ServiceID, n1: string, n2: string)
    requires svc in r && r[svc].Keys == {n1, n2}
    ensures ServiceKeys(r, svc) == r[svc][n1].Keys + r[svc][n2].Keys
  {
  }

  /** The same endpoint held by two slices counts once. */
  lemma SharedEndpointCountsOnce(svc: ServiceID, e1: Endpoint, e2: Endpoint)
    requires e1 != e2 && ':' !in e1.protocol && ':' !in e2.protocol
    ensures var reg := map[svc := map["slice1" := map[e1.Key() := e1, e2.Key() := e2],
                                      "slice2" := map[e1.Key() := e1, e2.Key() := e2]]];
      WellKeyed(reg) && |ServiceKeys(reg, svc)| == 2
  {
    var reg := map[svc := map["slice1" := map[e1.Key() := e1, e2.Key() := e2],
                              "slice2" := map[e1.Key() := e1, e2.Key() := e2]]];
    KeyInjective(e1, e2);
    ServiceKeysOfTwo(reg, svc, "slice1", "slice2");
    assert ServiceKeys(reg, svc) == {e1.Key(), e2.Key()};
  }
}
