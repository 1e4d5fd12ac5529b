/** internal/types: the identity of a service and the endpoint value the
    registry stores. */
module Types {
  import opened Wrappers
  import opened Strings

  newtype int32 = x: int | -0x8000_0000 <= x < 0x8000_0000
  newtype uint32 = x: int | 0 <= x < 0x1_0000_0000

  /** Go's `uint32(x)` on an int32: the same 32 bits read as unsigned. */
  function ToUint32(x: int32): (r: uint32)
    ensures (r as int - x as int) % 0x1_0000_0000 == 0
    ensures x >= 0 ==> r as int == x as int
  {
    if x >= 0 then x as int as uint32 else (x as int + 0x1_0000_0000) as uint32
  }

  // ---------------------------------------------------------------------
  // ServiceID (internal/types/service.go)
  // ---------------------------------------------------------------------

  /** `type ServiceID string`. */
  datatype ServiceID = ServiceID(value: string) {
    /** The underlying string, unchanged. */
    function ToString(): string { value }
  }

  /** `serviceName + "." + namespace`. */
  function NewServiceID(serviceName: string, namespace: string): ServiceID
  {
    ServiceID(serviceName + "." + namespace)
  }

  /** The namespace is the text after the last dot, when the namespace has no dot
      itself (Kubernetes namespaces are DNS labels); the name is everything before. */
  lemma ServiceIDParts(serviceName: string, namespace: string)
    requires '.' !in namespace
    ensures AfterLast(NewServiceID(serviceName, namespace).ToString(), '.') == namespace
    ensures NewServiceID(serviceName, namespace).ToString()[..|serviceName|] == serviceName
  {
    AfterLastSplits(serviceName, '.', namespace);
  }

  /** Distinct (name, namespace) pairs give distinct IDs when namespaces are dot-free. */
  lemma ServiceIDInjective(n1: string, ns1: string, n2: string, ns2: string)
    requires '.' !in ns1 && '.' !in ns2
    ensures NewServiceID(n1, ns1) == NewServiceID(n2, ns2) <==> n1 == n2 && ns1 == ns2
  {
    if NewServiceID(n1, ns1) == NewServiceID(n2, ns2) {
      ServiceIDParts(n1, ns1);
      ServiceIDParts(n2, ns2);
      assert |n1| == |n2|;
    }
  }

  // ---------------------------------------------------------------------
  // Endpoint (internal/types/endpoint.go)
  // ---------------------------------------------------------------------

  datatype Endpoint = Endpoint(ip: string, port: uint32, protocol: string) {
    /** `fmt.Sprintf("%s:%s:%d", Protocol, IP, Port)`, the key the registry deduplicates by. */
    function Key(): string
    {
      protocol + ":" + ip + ":" + Decimal(port as nat)
    }
  }

  /** Both pointers are dereferenced, so both must be non-nil. */
  function NewEndpoint(addr: string, port: Option<int32>, protocol: Option<string>): (e: Endpoint)
    requires port.Some? && protocol.Some?
    ensures e.ip == addr && e.protocol == protocol.value
    ensures (e.port as int - port.value as int) % 0x1_0000_0000 == 0
    ensures port.value >= 0 ==> e.port as int == port.value as int
  {
    Endpoint(addr, ToUint32(port.value), protocol.value)
  }

  /** The text after the last ':' of the key is exactly the decimal port. */
  lemma KeyEndsWithPort(e: Endpoint)
    ensures AfterLast(e.Key(), ':') == Decimal(e.port as nat)
    ensures AllDigits(AfterLast(e.Key(), ':')) && ParseDecimal(AfterLast(e.Key(), ':')) == e.port as nat
  {
    DecimalHasNo(e.port as nat, ':');
    AfterLastSplits(e.protocol + ":" + e.ip, ':', Decimal(e.port as nat));
    ParseDecimalOfDecimal(e.port as nat);
  }

  /** With a colon-free protocol the key determines the endpoint: the protocol ends at
      the first ':', the port starts after the last one, and the IP (which may be an
      IPv6 address full of colons) is what lies between. */
  lemma KeyInjective(e1: Endpoint, e2: Endpoint)
    requires ':' !in e1.protocol && ':' !in e2.protocol
    ensures e1.Key() == e2.Key() <==> e1 == e2
  {
    if e1.Key() == e2.Key() {
      var d1, d2 := Decimal(e1.port as nat), Decimal(e2.port as nat);
      DecimalHasNo(e1.port as nat, ':');
      DecimalHasNo(e2.port as nat, ':');
      UniqueLastSeparator(e1.protocol + ":" + e1.ip, d1, e2.protocol + ":" + e2.ip, d2, ':');
      DecimalInjective(e1.port as nat, e2.port as nat);
      UniqueFirstSeparator(e1.protocol, e1.ip, e2.protocol, e2.ip, ':');
    }
  }

  /** Splitting at the first separator is unambiguous. */
  lemma UniqueFirstSeparator(a1: string, b1: string, a2: string, b2: string, c: char)
    requires c !in a1 && c !in a2
    requires a1 + [c] + b1 == a2 + [c] + b2
    ensures a1 == a2 && b1 == b2
  {
    var s := a1 + [c] + b1;
    IndexOfAfter(a1, c, b1);
    IndexOfAfter(a2, c, b2);
    assert a1 == s[..|a1|] && a2 == s[..|a2|];
    assert b1 == s[|a1| + 1..] && b2 == s[|a2| + 1..];
  }

  /** Splitting at the last separator is unambiguous. */
  lemma UniqueLastSeparator(a1: string, b1: string, a2: string, b2: string, c: char)
    requires c !in b1 && c !in b2
    requires a1 + [c] + b1 == a2 + [c] + b2
    ensures a1 == a2 && b1 == b2
  {
    var s := a1 + [c] + b1;
    AfterLastSplits(a1, c, b1);
    AfterLastSplits(a2, c, b2);
    assert a1 == s[..|a1|] && a2 == s[..|a2|];
  }

  /** A protocol containing ':' breaks injectivity: two different endpoints share a key. */
  lemma KeyCollidesWithColonInProtocol()
    ensures Endpoint("b:c", 80, "a").Key() == Endpoint("c", 80, "a:b").Key()
    ensures Endpoint("b:c", 80, "a") != Endpoint("c", 80, "a:b")
  {
    assert Decimal(80) == "80";
  }
}
