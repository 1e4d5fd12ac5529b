/** internal/util/sni.go: the SNI-style hostname of a service. */
module Util {
  import opened Strings

  /** The dot-separated labels of serviceName in reverse order. */
  function HostnameFromServiceName(serviceName: string): string
  {
    Join(Reverse(Split(serviceName, '.')), '.')
  }

  /** The labels of the hostname are the labels of the service name, reversed. */
  lemma HostnameLabels(serviceName: string)
    ensures Split(HostnameFromServiceName(serviceName), '.') == Reverse(Split(serviceName, '.'))
  {
    var parts := Split(serviceName, '.');
    var rev := Reverse(parts);
    forall i | 0 <= i < |rev| ensures '.' !in rev[i] {
      ReverseAt(parts, i);
    }
    SplitJoin(rev, '.');
  }

  /** Applying the reversal twice gives the service name back. */
  lemma HostnameInvolution(serviceName: string)
    ensures HostnameFromServiceName(HostnameFromServiceName(serviceName)) == serviceName
  {
    HostnameLabels(serviceName);
    ReverseReverse(Split(serviceName, '.'));
    JoinSplit(serviceName, '.');
  }

  /** The hostname is a rearrangement of the service name: same length, same number of dots. */
  lemma HostnamePreservesCharacters(serviceName: string)
    ensures multiset(HostnameFromServiceName(serviceName)) == multiset(serviceName)
    ensures |HostnameFromServiceName(serviceName)| == |serviceName|
    ensures multiset(HostnameFromServiceName(serviceName))['.'] == multiset(serviceName)['.']
  {
    var parts := Split(serviceName, '.');
    JoinChars(parts, '.');
    JoinChars(Reverse(parts), '.');
    CharsReverse(parts);
    JoinSplit(serviceName, '.');
    assert |multiset(HostnameFromServiceName(serviceName))| == |HostnameFromServiceName(serviceName)|;
    assert |multiset(serviceName)| == |serviceName|;
  }

  /** A name without dots (the empty name included) is its own hostname. */
  lemma HostnameOfSingleLabel(serviceName: string)
    requires '.' !in serviceName
    ensures HostnameFromServiceName(serviceName) == serviceName
  {
    SplitNoSeparator(serviceName, '.');
  }

  /** Three dot-free labels come out in reverse order. */
  lemma HostnameOfThreeLabels(a: string, b: string, c: string)
    requires '.' !in a && '.' !in b && '.' !in c
    ensures HostnameFromServiceName(a + "." + b + "." + c) == c + "." + b + "." + a
  {
    JoinThree(a, b, c);
    SplitJoin([a, b, c], '.');
    ReverseThree(a, b, c);
    JoinThree(c, b, a);
  }

  lemma JoinThree(a: string, b: string, c: string)
    ensures Join([a, b, c], '.') == a + "." + b + "." + c
  {
    assert [a, b, c][1..] == [b, c] && [b, c][1..] == [c];
    assert Join([b, c], '.') == b + ['.'] + c;
    assert a + ['.'] + (b + ['.'] + c) == a + "." + b + "." + c;
  }

  lemma ReverseThree(a: string, b: string, c: string)
    ensures Reverse([a, b, c]) == [c, b, a]
  {
    assert [a, b, c][1..] == [b, c] && [b, c][1..] == [c] && [c][1..] == [];
    assert Reverse([c]) == [c];
    assert Reverse([b, c]) == [c, b];
  }

  /** The case exercised in internal/core/config/proxy/vhosts_test.go. */
  lemma HostnameOfFakeTestService()
    ensures HostnameFromServiceName("fake.test.service") == "service.test.fake"
  {
    HostnameOfThreeLabels("fake", "test", "service");
    assert "fake" + "." + "test" + "." + "service" == "fake.test.service";
    assert "service" + "." + "test" + "." + "fake" == "service.test.fake";
  }
}
