/** pkg/http/handlers/mutation.go: the sidecar-injection webhook. A patch is a sequence
    of RFC 6902 operations (op, path, value); the JSON bytes are not modelled. To say
    what a patch does, a small interpreter applies the operations the webhook emits to
    the one array member or annotation object they target, following sections 4.1
    ("add", including the "-" array index) and 4.3 ("replace") of RFC 6902 and the
    pointer syntax of RFC 6901. */
module Mutation {
  import opened Wrappers
  import opened Strings
  import opened Sidecar

  const NamespaceSystem: string := "kube-system"
  const NamespacePublic: string := "kube-public"
  const IgnoredNamespaces: seq<string> := [NamespaceSystem, NamespacePublic]

  datatype GroupVersionResource = GroupVersionResource(group: string, version: string, resource: string)
  const PodResource: GroupVersionResource := GroupVersionResource("core", "v1", "pods")
  const NotAPodError: string := "admission request is not of kind: Pod"
  const DecodeError: string := "unable to unmarshall request to deployment"
  const JSONPatch: string := "JSONPatch"

  datatype PodMeta = PodMeta(name: string, namespace: string, annotations: StringMap)
  datatype Pod = Pod(meta: PodMeta, containers: seq<Container>, volumes: seq<Volume>)

  /** An element of a pod's container or volume array. */
  datatype Item = ContainerItem(container: Container) | VolumeItem(volume: Volume)

  datatype PatchValue =
    | ItemList(items: seq<Item>)
    | OneItem(item: Item)
    | Annotations(entries: map<string, string>)
    | Text(text: string)

  datatype PatchOperation = PatchOperation(op: string, path: string, value: PatchValue)

  const ContainersPath: string := "/spec/containers"
  const VolumesPath: string := "/spec/volumes"
  const AnnotationsPath: string := "/metadata/annotations"

  // ---------------------------------------------------------------------
  // mutationRequired
  // ---------------------------------------------------------------------

  /** The policy: not in an ignored namespace, not already injected, and not opted out
      with n/not/false/off; letter case does not matter. */
  predicate MutationPolicy(ignoredList: seq<string>, meta: PodMeta)
  {
    meta.namespace !in ignoredList &&
    LowerAscii(Lookup(meta.annotations, SidecarStatusAnnotation)) != "injected" &&
    LowerAscii(Lookup(meta.annotations, SidecarInjectAnnotation)) !in ["n", "not", "false", "off"]
  }

  /** mutationRequired: a scan of the ignore list, then the status check and the switch. */
  method MutationRequired(ignoredList: seq<string>, meta: PodMeta) returns (required: bool)
    ensures required == MutationPolicy(ignoredList, meta)
  {
    for i := 0 to |ignoredList|
      invariant meta.namespace !in ignoredList[..i]
    {
      if meta.namespace == ignoredList[i] {
        return false;
      }
    }
    assert ignoredList[..|ignoredList|] == ignoredList;
    var status := Lookup(meta.annotations, SidecarStatusAnnotation);
    if LowerAscii(status) == "injected" {
      required := false;
    } else {
      var inject := LowerAscii(Lookup(meta.annotations, SidecarInjectAnnotation));
      if inject == "n" || inject == "not" || inject == "false" || inject == "off" {
        required := false;
      } else {
        required := true;
      }
    }
  }

  /** With the webhook's ignore list: system namespaces are skipped, an injected pod is
      skipped, an opt-out is honoured, and every other pod (no annotations at all
      included) is mutated. */
  lemma PolicyCases(meta: PodMeta)
    ensures meta.namespace == "kube-system" || meta.namespace == "kube-public" ==> !MutationPolicy(IgnoredNamespaces, meta)
    ensures LowerAscii(Lookup(meta.annotations, SidecarStatusAnnotation)) == "injected" ==> !MutationPolicy(IgnoredNamespaces, meta)
    ensures LowerAscii(Lookup(meta.annotations, SidecarInjectAnnotation)) in {"n", "not", "false", "off"} ==>
      !MutationPolicy(IgnoredNamespaces, meta)
    ensures meta.namespace != "kube-system" && meta.namespace != "kube-public" && meta.annotations.None? ==>
      MutationPolicy(IgnoredNamespaces, meta)
    ensures MutationPolicy(IgnoredNamespaces, meta) ==>
      meta.namespace != "kube-system" && meta.namespace != "kube-public" &&
      LowerAscii(Lookup(meta.annotations, SidecarStatusAnnotation)) != "injected" &&
      LowerAscii(Lookup(meta.annotations, SidecarInjectAnnotation)) !in {"n", "not", "false", "off"}
  {
    assert LowerAscii("") == "";
  }

  // ---------------------------------------------------------------------
  // addContainer and addVolume
  // ---------------------------------------------------------------------

  /** The operation for one added element: into an empty target, the first goes in as a
      one-element array at basePath; every other one is appended at basePath + "/-". */
  function AddOp(first: bool, item: Item, basePath: string): PatchOperation
  {
    if first then PatchOperation("add", basePath, ItemList([item]))
    else PatchOperation("add", basePath + "/-", OneItem(item))
  }

  /** The patch addContainer / addVolume return. */
  function AddPatch(targetEmpty: bool, added: seq<Item>, basePath: string): (patch: seq<PatchOperation>)
    ensures |patch| == |added|
    ensures forall i :: 0 <= i < |added| ==> patch[i] == AddOp(targetEmpty && i == 0, added[i], basePath)
  {
    seq(|added|, i requires 0 <= i < |added| => AddOp(targetEmpty && i == 0, added[i], basePath))
  }

  /** The loop shared by addContainer and addVolume. */
  method AddItems(targetEmpty: bool, added: seq<Item>, basePath: string) returns (patch: seq<PatchOperation>)
    ensures patch == AddPatch(targetEmpty, added, basePath)
  {
    var first := targetEmpty;
    patch := [];
    for i := 0 to |added|
      invariant first == (targetEmpty && i == 0)
      invariant patch == AddPatch(targetEmpty, added[..i], basePath)
    {
      var add := added[i];
      var value := OneItem(add);
      var path := basePath;
      if first {
        first := false;
        value := ItemList([add]);
      } else {
        path := path + "/-";
      }
      patch := patch + [PatchOperation("add", path, value)];
    }
    assert added[..|added|] == added;
  }

  function ContainerItems(cs: seq<Container>): (r: seq<Item>)
    ensures |r| == |cs| && forall i :: 0 <= i < |cs| ==> r[i] == ContainerItem(cs[i])
  {
    seq(|cs|, i requires 0 <= i < |cs| => ContainerItem(cs[i]))
  }

  function VolumeItems(vs: seq<Volume>): (r: seq<Item>)
    ensures |r| == |vs| && forall i :: 0 <= i < |vs| ==> r[i] == VolumeItem(vs[i])
  {
    seq(|vs|, i requires 0 <= i < |vs| => VolumeItem(vs[i]))
  }

  method AddContainer(target: seq<Container>, added: seq<Container>, basePath: string) returns (patch: seq<PatchOperation>)
    ensures patch == AddPatch(|target| == 0, ContainerItems(added), basePath)
  {
    patch := AddItems(|target| == 0, ContainerItems(added), basePath);
  }

  method AddVolume(target: seq<Volume>, added: seq<Volume>, basePath: string) returns (patch: seq<PatchOperation>)
    ensures patch == AddPatch(|target| == 0, VolumeItems(added), basePath)
  {
    patch := AddItems(|target| == 0, VolumeItems(added), basePath);
  }

  // ---------------------------------------------------------------------
  // What the add operations do to the array they target (RFC 6902 section 4.1)
  // ---------------------------------------------------------------------

  /** The array member at basePath: absent, present, or the patch has failed. */
  datatype ArrayMember = Absent | Present(items: seq<Item>) | ArrayFailed

  /** "add" at basePath sets the member (creating or replacing it); "add" at
      basePath + "/-" appends to an existing array; anything else fails. */
  function ApplyArrayOp(m: ArrayMember, op: PatchOperation, basePath: string): ArrayMember
  {
    if m.ArrayFailed? || op.op != "add" then ArrayFailed
    else if op.path == basePath && op.value.ItemList? then Present(op.value.items)
    else if op.path == basePath + "/-" && op.value.OneItem? && m.Present? then Present(m.items + [op.value.item])
    else ArrayFailed
  }

  function ApplyArrayOps(m: ArrayMember, ops: seq<PatchOperation>, basePath: string): ArrayMember
    decreases |ops|
  {
    if |ops| == 0 then m else ApplyArrayOps(ApplyArrayOp(m, ops[0], basePath), ops[1..], basePath)
  }

  lemma {:induction false} ApplyAppends(items: seq<Item>, added: seq<Item>, basePath: string)
    requires |items| > 0
    ensures ApplyArrayOps(Present(items), AddPatch(false, added, basePath), basePath) == Present(items + added)
    decreases |added|
  {
    if |added| > 0 {
      var ops := AddPatch(false, added, basePath);
      assert basePath + "/-" != basePath by {
        assert |basePath + "/-"| != |basePath|;
      }
      assert ApplyArrayOp(Present(items), ops[0], basePath) == Present(items + [added[0]]);
      assert ops[1..] == AddPatch(false, added[1..], basePath);
      ApplyAppends(items + [added[0]], added[1..], basePath);
      assert items + [added[0]] + added[1..] == items + added;
    }
  }

  /** The patch puts the added elements after the existing ones, in order: applied to
      the target array (absent or empty when the target is empty) it gives
      target + added. This is why the first element into an empty target must be a
      one-element array: "-" needs an array to append to. */
  lemma AddPatchAppends(target: seq<Item>, m: ArrayMember, added: seq<Item>, basePath: string)
    requires m == Present(target) || (|target| == 0 && m == Absent)
    requires |added| > 0
    ensures ApplyArrayOps(m, AddPatch(|target| == 0, added, basePath), basePath) == Present(target + added)
  {
    var ops := AddPatch(|target| == 0, added, basePath);
    if |target| == 0 {
      assert ApplyArrayOp(m, ops[0], basePath) == Present([added[0]]);
      assert ops[1..] == AddPatch(false, added[1..], basePath);
      if |added| > 1 {
        ApplyAppends([added[0]], added[1..], basePath);
      }
      assert [added[0]] + added[1..] == added;
    } else {
      ApplyAppends(target, added, basePath);
    }
  }

  // ---------------------------------------------------------------------
  // updateAnnotation
  // ---------------------------------------------------------------------

  /** order lists the keys of added once each: the order Go's range visits them in,
      which the language leaves unspecified. */
  ghost predicate IterationOrder(order: seq<string>, added: map<string, string>)
  {
    |order| == |added| &&
    (forall i :: 0 <= i < |order| ==> order[i] in added) &&
    (forall i, j :: 0 <= i < j < |order| ==> order[i] != order[j])
  }

  /** The patch updateAnnotation returns when it visits the keys in this order: a key
      missing or empty in the target (or a nil target) gives an "add" of the whole
      annotation object holding that key alone, after which the target is treated as
      empty; any other key gives a "replace" at "/metadata/annotations/" + key. */
  function AnnotationPatch(target: StringMap, added: map<string, string>, order: seq<string>): seq<PatchOperation>
    requires forall i :: 0 <= i < |order| ==> order[i] in added
    decreases |order|
  {
    if |order| == 0 then []
    else
      var key := order[0];
      if target.None? || Lookup(target, key) == "" then
        [PatchOperation("add", AnnotationsPath, Annotations(map[key := added[key]]))] +
        AnnotationPatch(Some(map[]), added, order[1..])
      else
        [PatchOperation("replace", AnnotationsPath + "/" + key, Text(added[key]))] +
        AnnotationPatch(target, added, order[1..])
  }

  lemma AnnotationPatchUnfold(target: StringMap, added: map<string, string>, order: seq<string>, i: nat)
    requires forall j :: 0 <= j < |order| ==> order[j] in added
    requires i < |order|
    ensures var key := order[i];
      AnnotationPatch(target, added, order[i..]) ==
        if target.None? || Lookup(target, key) == "" then
          [PatchOperation("add", AnnotationsPath, Annotations(map[key := added[key]]))] +
          AnnotationPatch(Some(map[]), added, order[i + 1..])
        else
          [PatchOperation("replace", AnnotationsPath + "/" + key, Text(added[key]))] +
          AnnotationPatch(target, added, order[i + 1..])
  {
    assert order[i..][1..] == order[i + 1..];
  }

  method UpdateAnnotation(target: StringMap, added: map<string, string>, order: seq<string>)
    returns (patch: seq<PatchOperation>)
    requires IterationOrder(order, added)
    ensures patch == AnnotationPatch(target, added, order)
  {
    var current := target;
    patch := [];
    for i := 0 to |order|
      invariant patch + AnnotationPatch(current, added, order[i..]) == AnnotationPatch(target, added, order)
    {
      var key := order[i];
      var value := added[key];
      AnnotationPatchUnfold(current, added, order, i);
      var op, next;
      if current.None? || Lookup(current, key) == "" {
        op, next := PatchOperation("add", AnnotationsPath, Annotations(map[key := value])), Some(map[]);
      } else {
        op, next := PatchOperation("replace", AnnotationsPath + "/" + key, Text(value)), current;
      }
      assert AnnotationPatch(current, added, order[i..]) == [op] + AnnotationPatch(next, added, order[i + 1..]);
      assert (patch + [op]) + AnnotationPatch(next, added, order[i + 1..]) == patch + ([op] + AnnotationPatch(next, added, order[i + 1..]));
      patch, current := patch + [op], next;
    }
  }

  /** The target is non-nil and holds a non-empty value for each of keys[0..i]. */
  predicate KeptUpTo(target: StringMap, keys: seq<string>, i: nat)
    requires i < |keys|
  {
    target.Some? && forall j :: 0 <= j <= i ==> Lookup(target, keys[j]) != ""
  }

  lemma KeptUpToStep(target: StringMap, keys: seq<string>, i: nat)
    requires 0 < i < |keys|
    requires target.Some? && Lookup(target, keys[0]) != ""
    ensures KeptUpTo(target, keys, i) <==> KeptUpTo(target, keys[1..], i - 1)
  {
    var rest := keys[1..];
    if KeptUpTo(target, rest, i - 1) {
      forall j | 0 <= j <= i ensures Lookup(target, keys[j]) != "" {
        if j > 0 { assert keys[j] == rest[j - 1]; }
      }
    }
    if KeptUpTo(target, keys, i) {
      forall j | 0 <= j <= i - 1 ensures Lookup(target, rest[j]) != "" {
        assert rest[j] == keys[j + 1];
      }
    }
  }

  /** One operation per key, in visiting order; operation i is a "replace" exactly when
      the target is non-nil and it and every key before it hold a non-empty value there,
      and an "add" of the single-entry object otherwise. */
  lemma {:induction false} AnnotationPatchOps(target: StringMap, added: map<string, string>, order: seq<string>)
    requires forall i :: 0 <= i < |order| ==> order[i] in added
    ensures var patch := AnnotationPatch(target, added, order);
      |patch| == |order| &&
      forall i :: 0 <= i < |order| ==>
        if KeptUpTo(target, order, i) then
          patch[i] == PatchOperation("replace", AnnotationsPath + "/" + order[i], Text(added[order[i]]))
        else
          patch[i] == PatchOperation("add", AnnotationsPath, Annotations(map[order[i] := added[order[i]]]))
    decreases |order|
  {
    if |order| > 0 {
      var key := order[0];
      var rest := order[1..];
      var patch := AnnotationPatch(target, added, order);
      if target.None? || Lookup(target, key) == "" {
        AnnotationPatchOps(Some(map[]), added, rest);
        forall i | 1 <= i < |order|
          ensures patch[i] == PatchOperation("add", AnnotationsPath, Annotations(map[order[i] := added[order[i]]]))
        {
          assert rest[i - 1] == order[i];
          assert !KeptUpTo(Some(map[]), rest, i - 1) by {
            assert Lookup(Some(map[]), rest[0]) == "";
          }
        }
      } else {
        AnnotationPatchOps(target, added, rest);
        forall i | 1 <= i < |order|
          ensures KeptUpTo(target, order, i) <==> KeptUpTo(target, rest, i - 1)
        {
          KeptUpToStep(target, order, i);
        }
      }
    }
  }

  /** Setting a single annotation: a replace of that key when it holds a non-empty
      value, otherwise an add of the object holding just that key. */
  lemma AnnotationPatchSingle(target: StringMap, key: string, value: string)
    ensures AnnotationPatch(target, map[key := value], [key]) ==
      if target.None? || Lookup(target, key) == "" then
        [PatchOperation("add", AnnotationsPath, Annotations(map[key := value]))]
      else
        [PatchOperation("replace", AnnotationsPath + "/" + key, Text(value))]
  {
    assert [key][1..] == [];
    assert AnnotationPatch(Some(map[]), map[key := value], []) == [];
    assert AnnotationPatch(target, map[key := value], []) == [];
  }

  // ---------------------------------------------------------------------
  // What the annotation operations do (RFC 6902 sections 4.1 and 4.3, RFC 6901)
  // ---------------------------------------------------------------------

  /** RFC 6901 section 4: "~1" stands for '/' and "~0" for '~'. */
  function Unescape(token: string): string
    decreases |token|
  {
    if |token| >= 2 && token[0] == '~' && token[1] == '1' then "/" + Unescape(token[2..])
    else if |token| >= 2 && token[0] == '~' && token[1] == '0' then "~" + Unescape(token[2..])
    else if |token| == 0 then ""
    else [token[0]] + Unescape(token[1..])
  }

  lemma {:induction false} UnescapePlain(token: string)
    requires '~' !in token
    ensures Unescape(token) == token
    decreases |token|
  {
    if |token| > 0 {
      assert '~' !in token[1..];
      UnescapePlain(token[1..]);
      assert token == [token[0]] + token[1..];
    }
  }

  /** The reference tokens of a JSON pointer "/t1/t2/...". */
  function PointerTokens(path: string): (r: seq<string>)
    requires |path| > 0 && path[0] == '/'
    ensures |r| == |Split(path[1..], '/')|
  {
    TokensOf(Split(path[1..], '/'))
  }

  /** Each raw token unescaped. */
  function TokensOf(raw: seq<string>): seq<string>
  {
    seq(|raw|, i requires 0 <= i < |raw| => Unescape(raw[i]))
  }

  /** The annotations object: absent, present, or the patch has failed. */
  datatype AnnotationsMember = NoAnnotations | AnnotationsObject(entries: map<string, string>) | AnnotationsFailed

  /** "add" at /metadata/annotations sets the whole object; "replace" needs a pointer to
      an existing key of the object ("/metadata/annotations/<key>"). */
  function ApplyAnnotationOp(m: AnnotationsMember, op: PatchOperation): AnnotationsMember
  {
    if m.AnnotationsFailed? then AnnotationsFailed
    else if op.op == "add" && op.path == AnnotationsPath && op.value.Annotations? then AnnotationsObject(op.value.entries)
    else if op.op == "replace" && op.value.Text? && |op.path| > 0 && op.path[0] == '/' then
      var tokens := PointerTokens(op.path);
      if |tokens| == 3 && tokens[0] == "metadata" && tokens[1] == "annotations" &&
         m.AnnotationsObject? && tokens[2] in m.entries
      then AnnotationsObject(m.entries[tokens[2] := op.value.text])
      else AnnotationsFailed
    else AnnotationsFailed
  }

  function ApplyAnnotationOps(m: AnnotationsMember, ops: seq<PatchOperation>): AnnotationsMember
    decreases |ops|
  {
    if |ops| == 0 then m else ApplyAnnotationOps(ApplyAnnotationOp(m, ops[0]), ops[1..])
  }

  /** The reference tokens of the replace path are "metadata", "annotations" and then
      the raw key split at its slashes: the key is not escaped. */
  lemma ReplacePathTokens(key: string)
    ensures var path := AnnotationsPath + "/" + key;
      Split(path[1..], '/') == ["metadata", "annotations"] + Split(key, '/')
  {
    var path := AnnotationsPath + "/" + key;
    assert path[1..] == "metadata" + ['/'] + ("annotations" + ['/'] + key);
    assert '/' !in "metadata" && '/' !in "annotations";
    SplitTwoLabels("metadata", "annotations", key);
  }

  lemma SplitTwoLabels(a: string, b: string, rest: string)
    requires '/' !in a && '/' !in b
    ensures Split(a + ['/'] + (b + ['/'] + rest), '/') == [a, b] + Split(rest, '/')
  {
    SplitAtSeparator(a, '/', b + ['/'] + rest);
    SplitAtSeparator(b, '/', rest);
  }

  lemma UnescapeFixedTokens()
    ensures Unescape("metadata") == "metadata" && Unescape("annotations") == "annotations"
  {
    UnescapePlain("metadata");
    UnescapePlain("annotations");
  }

  /** With a key free of '/' and '~' the replace path has the tokens "metadata",
      "annotations" and the key. */
  lemma PlainReplaceTokens(key: string)
    requires '/' !in key && '~' !in key
    ensures PointerTokens(AnnotationsPath + "/" + key) == ["metadata", "annotations", key]
  {
    var path := AnnotationsPath + "/" + key;
    ReplacePathTokens(key);
    SplitNoSeparator(key, '/');
    assert Split(path[1..], '/') == ["metadata", "annotations", key];
    ThreeTokens("metadata", "annotations", key);
    UnescapeFixedTokens();
    UnescapePlain(key);
  }

  lemma ThreeTokens(x: string, y: string, z: string)
    ensures TokensOf([x, y, z]) == [Unescape(x), Unescape(y), Unescape(z)]
  {
  }

  /** A non-empty existing annotation whose key has no '/' or '~' is replaced in place,
      the rest of the object kept. */
  lemma ReplaceOfPlainKey(entries: map<string, string>, key: string, value: string)
    requires '/' !in key && '~' !in key
    requires key in entries && entries[key] != ""
    ensures ApplyAnnotationOps(AnnotationsObject(entries), AnnotationPatch(Some(entries), map[key := value], [key])) ==
      AnnotationsObject(entries[key := value])
  {
    var op := PatchOperation("replace", AnnotationsPath + "/" + key, Text(value));
    AnnotationPatchSingle(Some(entries), key, value);
    PlainReplaceTokens(key);
    assert ApplyAnnotationOp(AnnotationsObject(entries), op) == AnnotationsObject(entries[key := value]);
    assert [op][1..] == [];
  }

  /** A non-empty existing annotation whose key contains '/' (as every sidecar.maestro.io
      key does) makes the replace point below a non-existent member, so the patch fails. */
  lemma ReplaceOfSlashedKeyFails(entries: map<string, string>, key: string, value: string)
    requires '/' in key
    requires key in entries && entries[key] != ""
    ensures ApplyAnnotationOps(AnnotationsObject(entries), AnnotationPatch(Some(entries), map[key := value], [key])) ==
      AnnotationsFailed
  {
    var ops := AnnotationPatch(Some(entries), map[key := value], [key]);
    AnnotationPatchSingle(Some(entries), key, value);
    assert ops == [PatchOperation("replace", AnnotationsPath + "/" + key, Text(value))];
    ReplacePathTokens(key);
    SplitAtSeparatorCount(key, '/');
  }

  /** A key missing from the annotations (or a pod with none) gives an "add" of the whole
      object: the pod's other annotations are replaced by the single new entry. */
  lemma AddReplacesAllAnnotations(m: AnnotationsMember, target: StringMap, key: string, value: string)
    requires !m.AnnotationsFailed?
    requires Lookup(target, key) == ""
    ensures ApplyAnnotationOps(m, AnnotationPatch(target, map[key := value], [key])) == AnnotationsObject(map[key := value])
  {
  }

  // ---------------------------------------------------------------------
  // createPatch, mutate and Handle
  // ---------------------------------------------------------------------

  /** createPatch: container operations, then volume operations, then annotation operations. */
  method CreatePatch(pod: Pod, sidecarConfig: SidecarConfig, annotations: map<string, string>, order: seq<string>)
    returns (patch: seq<PatchOperation>)
    requires IterationOrder(order, annotations)
    ensures patch ==
      AddPatch(|pod.containers| == 0, ContainerItems(sidecarConfig.containers), ContainersPath) +
      AddPatch(|pod.volumes| == 0, VolumeItems(sidecarConfig.volumes), VolumesPath) +
      AnnotationPatch(pod.meta.annotations, annotations, order)
  {
    var containerOps := AddContainer(pod.containers, sidecarConfig.containers, ContainersPath);
    var volumeOps := AddVolume(pod.volumes, sidecarConfig.volumes, VolumesPath);
    var annotationOps := UpdateAnnotation(pod.meta.annotations, annotations, order);
    patch := containerOps + volumeOps + annotationOps;
  }

  /** The patch mutate sends for a pod that needs mutation. */
  function InjectionPatch(pod: Pod): seq<PatchOperation>
  {
    var sc := NewSidecarConfig(pod.meta.annotations);
    AddPatch(|pod.containers| == 0, ContainerItems(sc.containers), ContainersPath) +
    AddPatch(|pod.volumes| == 0, VolumeItems(sc.volumes), VolumesPath) +
    AnnotationPatch(pod.meta.annotations, map[SidecarStatusAnnotation := "injected"], [SidecarStatusAnnotation])
  }

  /** The injection patch adds the two proxy volumes and sets the status annotation, and
      nothing else: no container is added, since the proxy is an init container and
      createPatch only adds sidecarConfig.Containers, which is empty. */
  lemma InjectionPatchShape(pod: Pod)
    ensures var patch := InjectionPatch(pod);
      var vs := ProxyVolumes(Lookup(pod.meta.annotations, ServiceNameAnnotation));
      |patch| == 3 &&
      patch[0] == AddOp(|pod.volumes| == 0, VolumeItem(vs[0]), VolumesPath) &&
      patch[1] == PatchOperation("add", VolumesPath + "/-", OneItem(VolumeItem(vs[1]))) &&
      patch[2].value.Annotations? == (Lookup(pod.meta.annotations, SidecarStatusAnnotation) == "") &&
      forall i :: 0 <= i < |patch| ==> patch[i].path != ContainersPath && patch[i].path != ContainersPath + "/-"
  {
    var sc := NewSidecarConfig(pod.meta.annotations);
    var vp := AddPatch(|pod.volumes| == 0, VolumeItems(sc.volumes), VolumesPath);
    var ap := AnnotationPatch(pod.meta.annotations, map[SidecarStatusAnnotation := "injected"], [SidecarStatusAnnotation]);
    assert AddPatch(|pod.containers| == 0, ContainerItems(sc.containers), ContainersPath) == [];
    StatusAnnotationOp(pod.meta.annotations);
    PathsAvoidContainers(SidecarStatusAnnotation);
    var patch := InjectionPatch(pod);
    assert patch == vp + ap;
    assert patch[2] == ap[0];
  }

  /** The one operation that sets the status annotation: an add of the object when the
      annotation is absent, else a replace of the key. */
  lemma StatusAnnotationOp(annotations: StringMap)
    ensures var ap := AnnotationPatch(annotations, map[SidecarStatusAnnotation := "injected"], [SidecarStatusAnnotation]);
      |ap| == 1 && (ap[0].path == AnnotationsPath || ap[0].path == AnnotationsPath + "/" + SidecarStatusAnnotation) &&
      ap[0].value.Annotations? == (Lookup(annotations, SidecarStatusAnnotation) == "")
  {
    AnnotationPatchSingle(annotations, SidecarStatusAnnotation, "injected");
  }

  /** The volume and annotation paths never name the containers array. */
  lemma PathsAvoidContainers(key: string)
    ensures VolumesPath != ContainersPath && VolumesPath != ContainersPath + "/-"
    ensures VolumesPath + "/-" != ContainersPath && VolumesPath + "/-" != ContainersPath + "/-"
    ensures AnnotationsPath != ContainersPath && AnnotationsPath != ContainersPath + "/-"
    ensures AnnotationsPath + "/" + key != ContainersPath && AnnotationsPath + "/" + key != ContainersPath + "/-"
  {
    assert ContainersPath[6] == 'c' && (ContainersPath + "/-")[6] == 'c';
    assert ContainersPath[1] == 's' && (ContainersPath + "/-")[1] == 's';
    assert VolumesPath[6] == 'v' && (VolumesPath + "/-")[6] == 'v';
    assert AnnotationsPath[1] == 'm' && (AnnotationsPath + "/" + key)[1] == 'm';
  }

  /** The fields of the AdmissionReview response the handler writes. */
  class AdmissionResponse {
    var allowed: bool
    var patchType: Option<string>
    var patch: Option<seq<PatchOperation>>
    var groupVersionKind: Option<string>

    constructor()
      ensures !allowed && patchType.None? && patch.None? && groupVersionKind.None?
    {
      allowed, patchType, patch, groupVersionKind := false, None, None, None;
    }
  }

  /** mutate. */
  method Mutate(pod: Pod, response: AdmissionResponse) returns (err: Option<string>)
    modifies response
    ensures err.None? && response.allowed
    ensures response.groupVersionKind == old(response.groupVersionKind)
    ensures !MutationPolicy(IgnoredNamespaces, pod.meta) ==>
      response.patchType == old(response.patchType) && response.patch == old(response.patch)
    ensures MutationPolicy(IgnoredNamespaces, pod.meta) ==>
      response.patchType == Some(JSONPatch) && response.patch == Some(InjectionPatch(pod))
  {
    var required := MutationRequired(IgnoredNamespaces, pod.meta);
    if !required {
      response.allowed := true;
      return None;
    }
    var podAnnotations := map[SidecarStatusAnnotation := "injected"];
    var sidecarConfig := NewSidecarConfig(pod.meta.annotations);
    var patch := CreatePatch(pod, sidecarConfig, podAnnotations, [SidecarStatusAnnotation]);
    response.allowed := true;
    response.patchType := Some(JSONPatch);
    response.patch := Some(patch);
    return None;
  }

  /** What Handle receives: the resource of the request and its object, None when the
      object does not decode as a pod. */
  datatype AdmissionRequest = AdmissionRequest(resource: GroupVersionResource, kind: string, pod: Option<Pod>)

  /** Handle. */
  method Handle(request: AdmissionRequest, response: AdmissionResponse) returns (err: Option<string>)
    modifies response
    ensures request.resource != PodResource ==>
      err == Some(NotAPodError) && unchanged(response)
    ensures request.resource == PodResource && request.pod.None? ==>
      err == Some(DecodeError) && unchanged(response)
    ensures request.resource == PodResource && request.pod.Some? ==>
      err.None? && response.allowed && response.groupVersionKind == Some(request.kind) &&
      (!MutationPolicy(IgnoredNamespaces, request.pod.value.meta) ==>
        response.patchType == old(response.patchType) && response.patch == old(response.patch)) &&
      (MutationPolicy(IgnoredNamespaces, request.pod.value.meta) ==>
        response.patchType == Some(JSONPatch) && response.patch == Some(InjectionPatch(request.pod.value)))
  {
    if request.resource != PodResource {
      return Some(NotAPodError);
    }
    if request.pod.None? {
      return Some(DecodeError);
    }
    response.groupVersionKind := Some(request.kind);
    err := Mutate(request.pod.value, response);
  }

  /** Only the resource {core, v1, pods} is accepted. The API server names the core group
      by the empty string, so a pod request as it identifies pods ({"", v1, pods}) is
      rejected. */
  lemma OnlyCorePodsAccepted(resource: GroupVersionResource)
    ensures resource == PodResource <==>
      resource.group == "core" && resource.version == "v1" && resource.resource == "pods"
    ensures GroupVersionResource("", "v1", "pods") != PodResource
  {
  }
}
