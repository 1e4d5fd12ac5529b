/** cmd/grpcprobe.go: the repeatable --rpcHeader flag, which parses "key: value" into
    gRPC metadata, and the exit code of the health probe. The connection and the health
    RPC are parameters: only their outcomes matter to the exit code. */
module GrpcProbe {
  import opened Wrappers
  import opened Strings

  // ---------------------------------------------------------------------
  // rpcHeaders.Set
  // ---------------------------------------------------------------------

  /** One parsed header: the text before the first ':' and the rest without its leading
      whitespace. */
  datatype Header = Header(key: string, value: string)

  /** The error Set returns, holding the rejected flag value. */
  datatype SetError = InvalidRpcHeader(got: string)

  /** strings.SplitN(value, ":", 2): the whole value when it has no ':', otherwise the
      text before the first ':' and everything after it. */
  function SplitFirstColon(value: string): (parts: seq<string>)
    ensures |parts| == 1 <==> ':' !in value
    ensures |parts| == 1 || |parts| == 2
    ensures |parts| == 1 ==> parts[0] == value
    ensures |parts| == 2 ==> ':' !in parts[0] && value == parts[0] + ":" + parts[1]
  {
    match IndexOf(value, ':')
    case None => [value]
    case Some(i) =>
      assert value == value[..i] + ":" + value[i + 1..];
      [value[..i], value[i + 1..]]
  }

  /** Set's split and trim: None when the value holds no ':'. */
  function ParseHeader(value: string): (r: Option<Header>)
    ensures r.None? <==> ':' !in value
    ensures r.Some? ==> (':' !in r.value.key && |r.value.key| < |value| && value[|r.value.key|] == ':' &&
      value[..|r.value.key|] == r.value.key && r.value.value == TrimLeftSpace(value[|r.value.key| + 1..]))
  {
    var parts := SplitFirstColon(value);
    if |parts| != 2 then None
    else
      assert value[..|parts[0]|] == parts[0] && value[|parts[0]| + 1..] == parts[1];
      Some(Header(parts[0], TrimLeftSpace(parts[1])))
  }

  /** The split is at the first ':': for a key without ':', "key:rest" parses to the key
      and the rest, later colons included, with only its leading whitespace dropped. */
  lemma ParseHeaderOf(key: string, rest: string)
    requires ':' !in key
    ensures ParseHeader(key + ":" + rest) == Some(Header(key, TrimLeftSpace(rest)))
  {
    var value := key + ":" + rest;
    IndexOfAfter(key, ':', rest);
    assert value[..|key|] == key && value[|key| + 1..] == rest;
    assert SplitFirstColon(value) == [key, rest];
  }

  /** Leading whitespace goes, and the rest of the value stays as it was, trailing
      whitespace included. */
  lemma TrimKeepsRest(spaces: string, rest: string)
    requires forall i :: 0 <= i < |spaces| ==> IsSpace(spaces[i])
    requires |rest| > 0 && !IsSpace(rest[0])
    ensures TrimLeftSpace(spaces + rest) == rest
    decreases |spaces|
  {
    if |spaces| > 0 {
      assert (spaces + rest)[1..] == spaces[1..] + rest;
      TrimKeepsRest(spaces[1..], rest);
    }
  }

  /** The values metadata.MD holds for a key; an absent key holds none. */
  function Values(md: map<string, seq<string>>, key: string): seq<string>
  {
    if key in md then md[key] else []
  }

  /** MD.Append(key, value): the key is lower-cased and the value added after the ones
      already there. */
  function Append(md: map<string, seq<string>>, key: string, value: string): (r: map<string, seq<string>>)
    ensures r.Keys == md.Keys + {LowerAscii(key)}
    ensures Values(r, LowerAscii(key)) == Values(md, LowerAscii(key)) + [value]
    ensures forall k :: k in md && k != LowerAscii(key) ==> r[k] == md[k]
  {
    var k := LowerAscii(key);
    md[k := Values(md, k) + [value]]
  }

  /** Appending keeps every value already held, under every key. */
  lemma AppendKeepsEarlierValues(md: map<string, seq<string>>, key: string, value: string, k: string)
    ensures var r := Append(md, key, value);
      |Values(r, k)| >= |Values(md, k)| && Values(r, k)[..|Values(md, k)|] == Values(md, k)
  {
  }

  class RpcHeaders {
    /** The embedded metadata.MD. */
    var md: map<string, seq<string>>

    /** rpcHeaders{MD: make(metadata.MD)}: no headers yet. */
    constructor ()
      ensures md == map[]
    {
      md := map[];
    }

    /** Set: rejects a value without ':'; otherwise appends the parsed header. */
    method Set(value: string) returns (err: Option<SetError>)
      modifies this
      ensures err.Some? <==> ':' !in value
      ensures err.Some? ==> err.value == InvalidRpcHeader(value) && md == old(md)
      ensures err.None? ==> md == Append(old(md), ParseHeader(value).value.key, ParseHeader(value).value.value)
    {
      var parts := SplitFirstColon(value);
      if |parts| != 2 {
        return Some(InvalidRpcHeader(value));
      }
      var trimmed := TrimLeftSpace(parts[1]);
      md := Append(md, parts[0], trimmed);
      err := None;
    }
  }

  /** Two --rpcHeader flags whose keys differ only in ASCII case keep both values, in
      flag order, under the one lower-case key. */
  method RepeatedHeader(key1: string, key2: string, a: string, b: string) returns (values: seq<string>)
    requires ':' !in key1 && ':' !in key2 && LowerAscii(key1) == LowerAscii(key2)
    ensures values == [TrimLeftSpace(a), TrimLeftSpace(b)]
  {
    var headers := new RpcHeaders();
    var first, second := key1 + ":" + a, key2 + ":" + b;
    var ta, tb := TrimLeftSpace(a), TrimLeftSpace(b);
    ParseHeaderOf(key1, a);
    ParseHeaderOf(key2, b);
    assert first[|key1|] == ':' && second[|key2|] == ':';
    var e1 := headers.Set(first);
    assert headers.md == Append(map[], key1, ta);
    var e2 := headers.Set(second);
    assert headers.md == Append(Append(map[], key1, ta), key2, tb);
    AppendTwice(key1, key2, ta, tb);
    values := Values(headers.md, LowerAscii(key1));
  }

  /** Two appends under keys equal up to case collect both values in order. */
  lemma AppendTwice(key1: string, key2: string, va: string, vb: string)
    requires LowerAscii(key1) == LowerAscii(key2)
    ensures Values(Append(Append(map[], key1, va), key2, vb), LowerAscii(key1)) == [va, vb]
  {
    var md := Append(map[], key1, va);
    assert Values(md, LowerAscii(key1)) == [va];
  }

  // ---------------------------------------------------------------------
  // runHealthProbe
  // ---------------------------------------------------------------------

  const StatusConnectionFailure: nat := 1
  const StatusRpcFailure: nat := 2
  const StatusUnhealthy: nat := 3

  /** grpc.NewClient's outcome: a failure is logged as a timeout or an error. */
  datatype ConnectOutcome = Connected | ConnectFailed(deadlineExceeded: bool)

  datatype ServingStatus = Unknown | Serving | NotServing | ServiceUnknown
  datatype RpcCode = Unimplemented | DeadlineExceeded | OtherCode

  /** The health Check RPC's outcome. */
  datatype CheckOutcome = CheckFailed(code: RpcCode) | Responded(status: ServingStatus)

  /** The exit code of a probe with the given outcomes. */
  function ExitCode(connect: ConnectOutcome, check: CheckOutcome): (code: nat)
    ensures code == 1 <==> connect.ConnectFailed?
    ensures code == 2 <==> connect == Connected && check.CheckFailed?
    ensures code == 3 <==> connect == Connected && check.Responded? && check.status != Serving
    ensures code == 0 <==> connect == Connected && check == Responded(Serving)
    ensures code <= 3
  {
    if connect.ConnectFailed? then StatusConnectionFailure
    else if check.CheckFailed? then StatusRpcFailure
    else if check.status != Serving then StatusUnhealthy
    else 0
  }

  /** runHealthProbe: retCode starts at 0 and each failing step sets it and returns; the
      kind of failure only changes what is logged. Check is consulted only once
      connected. */
  method RunHealthProbe(connect: ConnectOutcome, check: CheckOutcome) returns (retCode: nat)
    ensures retCode == ExitCode(connect, check)
  {
    retCode := 0;
    if connect.ConnectFailed? {
      retCode := StatusConnectionFailure;
      return;
    }
    if check.CheckFailed? {
      retCode := StatusRpcFailure;
      return;
    }
    if check.status != Serving {
      retCode := StatusUnhealthy;
      return;
    }
  }
}
