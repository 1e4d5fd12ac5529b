/** pkg/controller/controller.go: the ProxyConfig controller. A work item names a
    ProxyConfig; syncing it makes sure a ConfigMap `configMapPrefix + name` exists, is
    controlled by that ProxyConfig and holds the rendered Envoy bootstrap, and then
    writes the ProxyConfig's status.

    The informer caches are maps the controller reads; the API server is a log of the
    writes sent to it, each with an outcome supplied by the caller; the event recorder
    and the work queue are logs too. The renderer (FromUnstructured followed by
    proxy.GenerateBootstrap and YAML output) is a function fixed at construction. */
module Controller {
  import opened Wrappers
  import opened Kube

  const ControllerAgentName: string := "maestro"
  const SuccessSynced: string := "Synced"
  const ErrResourceExists: string := "ErrResourceExists"
  const MessageResourceSynced: string := "ProxyConfig synced successfully"
  const DefaultConfigMapPrefix: string := "proxy-config-"
  const ConfigMapDataKey: string := "envoy.yaml"
  /** configv1.SchemeGroupVersion: group config.maestro.io, version v1. */
  const ProxyConfigAPIVersion: string := "config.maestro.io/v1"
  const ProxyConfigKind: string := "ProxyConfig"

  /** A ProxyConfig as the dynamic lister returns it (an unstructured object): its
      metadata, the rest of its content, and its status map. */
  datatype ProxyConfigObject = ProxyConfigObject(meta: ObjectMeta, spec: map<string, string>,
                                                 status: map<string, string>)

  /** The writes syncHandler sends. */
  datatype ApiCall =
    | CreateConfigMap(namespace: string, configMap: ConfigMap)
    | UpdateConfigMap(namespace: string, configMap: ConfigMap)
    | UpdateProxyConfigStatus(namespace: string, proxyConfig: ProxyConfigObject)

  /** How the reads and writes of one sync turn out: an error other than NotFound from
      either lister, and the outcome of each write should it be sent. */
  datatype Outcomes = Outcomes(proxyConfigGet: Option<string>, configMapGet: Option<string>,
                               create: ApiOutcome, update: ApiOutcome, status: ApiOutcome)

  /** What one sync returns and sends. */
  datatype SyncOutcome = SyncOutcome(err: Option<string>, calls: seq<ApiCall>, events: seq<EventRecord>)

  type Renderer = ProxyConfigObject -> Result<string>

  /** fmt.Sprintf("%s%s", prefix, name). */
  function ConfigMapName(prefix: string, proxyConfigName: string): (r: string)
    ensures |r| == |prefix| + |proxyConfigName|
    ensures r[..|prefix|] == prefix && r[|prefix|..] == proxyConfigName
  {
    prefix + proxyConfigName
  }

  /** With one prefix, distinct ProxyConfigs get distinct ConfigMaps. */
  lemma ConfigMapNameInjective(prefix: string, n1: string, n2: string)
    ensures ConfigMapName(prefix, n1) == ConfigMapName(prefix, n2) <==> n1 == n2
  {
    if ConfigMapName(prefix, n1) == ConfigMapName(prefix, n2) {
      assert n1 == ConfigMapName(prefix, n1)[|prefix|..];
    }
  }

  /** The prefix after applying the WithConfigMapPrefix options in order to the default. */
  function ConfiguredPrefix(options: seq<string>): (r: string)
    ensures |options| == 0 ==> r == DefaultConfigMapPrefix
    ensures |options| > 0 ==> r == options[|options| - 1]
  {
    if |options| == 0 then DefaultConfigMapPrefix else options[|options| - 1]
  }

  /** cmd/controller.go passes WithConfigMapPrefix only for a non-empty flag value. */
  function CommandLineOptions(configMapPrefixFlag: string): (options: seq<string>)
    ensures configMapPrefixFlag == "" ==> options == []
    ensures configMapPrefixFlag != "" ==> options == [configMapPrefixFlag]
  {
    if configMapPrefixFlag == "" then [] else [configMapPrefixFlag]
  }

  /** An empty flag keeps the default prefix; any other value replaces it. */
  lemma CommandLinePrefix(configMapPrefixFlag: string)
    ensures ConfiguredPrefix(CommandLineOptions(configMapPrefixFlag)) ==
      if configMapPrefixFlag == "" then DefaultConfigMapPrefix else configMapPrefixFlag
  {
  }

  /** generateProxyConfigConfigMapData: the one-entry data map, or the renderer's error. */
  function ConfigMapData(render: Renderer, u: ProxyConfigObject): (r: Result<map<string, string>>)
    ensures r.Ok? <==> render(u).Ok?
    ensures r.Ok? ==> r.value == map[ConfigMapDataKey := render(u).value]
    ensures r.Err? ==> r.error == render(u).error
  {
    match render(u)
    case Ok(yaml) => Ok(map[ConfigMapDataKey := yaml])
    case Err(e) => Err(e)
  }

  /** newProxyConfigConfigMap. */
  function NewProxyConfigConfigMap(prefix: string, render: Renderer, u: ProxyConfigObject): (r: Result<ConfigMap>)
    ensures r.Ok? <==> render(u).Ok?
    ensures r.Ok? ==>
      r.value.meta.name == ConfigMapName(prefix, u.meta.name) &&
      r.value.meta.namespace == u.meta.namespace &&
      r.value.meta.labels == map["controller" := ControllerAgentName] &&
      r.value.data == map[ConfigMapDataKey := render(u).value] &&
      |r.value.meta.ownerReferences| == 1 &&
      r.value.meta.ownerReferences[0] == NewControllerRef(u.meta, ProxyConfigAPIVersion, ProxyConfigKind)
    ensures r.Ok? ==> IsControlledBy(r.value.meta, u.meta)
  {
    match ConfigMapData(render, u)
    case Err(e) => Err(e)
    case Ok(data) =>
      var meta := ObjectMeta(ConfigMapName(prefix, u.meta.name), u.meta.namespace, "", "",
                             map["controller" := ControllerAgentName],
                             [NewControllerRef(u.meta, ProxyConfigAPIVersion, ProxyConfigKind)]);
      assert ControllerOf(meta.ownerReferences) == Some(meta.ownerReferences[0]);
      Ok(ConfigMap(meta, data))
  }

  /** fmt.Sprintf(MessageResourceExists, name); names are DNS labels, so %q only adds quotes. */
  function MessageResourceExists(name: string): string
  {
    "Resource \"" + name + "\" already exists and is not managed by ProxyConfig"
  }

  /** The copy updateProxyConfigStatus builds: status replaced by {ResourceVersion: rv}. */
  function StatusCopy(u: ProxyConfigObject, resourceVersion: string): (r: ProxyConfigObject)
    ensures r.meta == u.meta && r.spec == u.spec
    ensures r.status == map["ResourceVersion" := resourceVersion]
  {
    u.(status := map["ResourceVersion" := resourceVersion])
  }

  // ---------------------------------------------------------------------
  // The decision chain of syncHandler, as a function of its inputs
  // ---------------------------------------------------------------------

  /** updateProxyConfigStatus followed by the success event. The object sent is u,
      the object read from the lister. */
  function WriteStatus(u: ProxyConfigObject, o: Outcomes): SyncOutcome
  {
    var call := UpdateProxyConfigStatus(u.meta.namespace, u);
    match o.status
    case Fails(e) => SyncOutcome(Some(e), [call], [])
    case Succeeds(_) =>
      SyncOutcome(None, [call], [EventRecord(NameOf(u.meta), EventTypeNormal, SuccessSynced, MessageResourceSynced)])
  }

  /** The ownership check, the data comparison and update, then the status write. */
  function SyncConfigMap(render: Renderer, u: ProxyConfigObject, cm: ConfigMap, o: Outcomes): SyncOutcome
  {
    if !IsControlledBy(cm.meta, u.meta) then
      var msg := MessageResourceExists(cm.meta.name);
      SyncOutcome(Some(msg), [], [EventRecord(NameOf(u.meta), EventTypeWarning, ErrResourceExists, msg)])
    else
      match ConfigMapData(render, u)
      case Err(e) => SyncOutcome(Some(e), [], [])
      case Ok(data) =>
        if cm.data == data then WriteStatus(u, o)
        else
          var call := UpdateConfigMap(cm.meta.namespace, cm.(data := data));
          match o.update
          case Fails(e) => SyncOutcome(Some(e), [call], [])
          case Succeeds(_) =>
            var rest := WriteStatus(u, o);
            SyncOutcome(rest.err, [call] + rest.calls, rest.events)
  }

  /** Everything after the ProxyConfig was found. */
  function SyncProxyConfig(prefix: string, render: Renderer, u: ProxyConfigObject,
                           configMaps: map<ObjectName, ConfigMap>, o: Outcomes): SyncOutcome
  {
    if u.meta.name == "" then SyncOutcome(None, [], [])
    else if o.configMapGet.Some? then SyncOutcome(Some(o.configMapGet.value), [], [])
    else
      var key := ObjectName(u.meta.namespace, ConfigMapName(prefix, u.meta.name));
      if key in configMaps then SyncConfigMap(render, u, configMaps[key], o)
      else
        match NewProxyConfigConfigMap(prefix, render, u)
        case Err(e) => SyncOutcome(Some(e), [], [])
        case Ok(cm) =>
          var call := CreateConfigMap(u.meta.namespace, cm);
          match o.create
          case Fails(e) => SyncOutcome(Some(e), [call], [])
          case Succeeds(rv) =>
            var created := cm.(meta := cm.meta.(resourceVersion := rv));
            var rest := SyncConfigMap(render, u, created, o);
            SyncOutcome(rest.err, [call] + rest.calls, rest.events)
  }

  /** syncHandler for the work item ref. */
  function Sync(prefix: string, render: Renderer, proxyConfigs: map<ObjectName, ProxyConfigObject>,
                configMaps: map<ObjectName, ConfigMap>, ref: ObjectName, o: Outcomes): SyncOutcome
  {
    if o.proxyConfigGet.Some? then SyncOutcome(Some(o.proxyConfigGet.value), [], [])
    else if ref !in proxyConfigs then SyncOutcome(None, [], [])
    else SyncProxyConfig(prefix, render, proxyConfigs[ref], configMaps, o)
  }

  function ProxyConfigMeta(u: ProxyConfigObject): ObjectMeta { u.meta }
  function ConfigMapMeta(cm: ConfigMap): ObjectMeta { cm.meta }

  class MaestroController {
    var configMapPrefix: string
    const spiffeTrustDomain: string
    const render: Renderer
    /** The informer caches behind the two listers. */
    var proxyConfigs: map<ObjectName, ProxyConfigObject>
    var configMaps: map<ObjectName, ConfigMap>
    /** The writes sent to the API server, the recorded events and the queue operations, oldest first. */
    var calls: seq<ApiCall>
    var events: seq<EventRecord>
    var queue: seq<QueueOp>

    ghost predicate Valid()
      reads this
    {
      KeyedByName(proxyConfigs, ProxyConfigMeta) && KeyedByName(configMaps, ConfigMapMeta)
    }

    /** NewMaestroController: the default prefix, then each option applied in turn. */
    constructor(spiffeTrustDomain: string, render: Renderer, options: seq<string>,
                proxyConfigs: map<ObjectName, ProxyConfigObject>, configMaps: map<ObjectName, ConfigMap>)
      requires KeyedByName(proxyConfigs, ProxyConfigMeta) && KeyedByName(configMaps, ConfigMapMeta)
      ensures Valid()
      ensures this.configMapPrefix == ConfiguredPrefix(options)
      ensures this.spiffeTrustDomain == spiffeTrustDomain && this.render == render
      ensures this.proxyConfigs == proxyConfigs && this.configMaps == configMaps
      ensures calls == [] && events == [] && queue == []
    {
      this.spiffeTrustDomain := spiffeTrustDomain;
      this.render := render;
      this.proxyConfigs := proxyConfigs;
      this.configMaps := configMaps;
      calls, events, queue := [], [], [];
      configMapPrefix := DefaultConfigMapPrefix;
      new;
      var i := 0;
      while i < |options|
        invariant 0 <= i <= |options|
        invariant configMapPrefix == ConfiguredPrefix(options[..i])
        invariant this.proxyConfigs == proxyConfigs && this.configMaps == configMaps
        invariant calls == [] && events == [] && queue == []
      {
        WithConfigMapPrefix(options[i]);
        i := i + 1;
      }
      assert options[..i] == options;
    }

    /** The option WithConfigMapPrefix(prefix). */
    method WithConfigMapPrefix(prefix: string)
      modifies this
      ensures configMapPrefix == prefix
      ensures proxyConfigs == old(proxyConfigs) && configMaps == old(configMaps)
      ensures calls == old(calls) && events == old(events) && queue == old(queue)
    {
      configMapPrefix := prefix;
    }

    /** updateProxyConfigStatus: builds the copy with the new status, then sends u. */
    method UpdateProxyConfigStatus(u: ProxyConfigObject, cm: ConfigMap, o: Outcomes) returns (err: Option<string>)
      modifies this
      ensures calls == old(calls) + [ApiCall.UpdateProxyConfigStatus(u.meta.namespace, u)]
      ensures err == (if o.status.Fails? then Some(o.status.err) else None)
      ensures configMapPrefix == old(configMapPrefix) && proxyConfigs == old(proxyConfigs)
      ensures configMaps == old(configMaps) && events == old(events) && queue == old(queue)
    {
      var proxyConfigCopy := StatusCopy(u, cm.meta.resourceVersion);
      calls := calls + [ApiCall.UpdateProxyConfigStatus(u.meta.namespace, u)];
      match o.status
      case Fails(e) => err := Some(e);
      case Succeeds(_) => err := None;
    }

    /** Ownership check, data update and status write for cm. */
    method SyncExisting(u: ProxyConfigObject, cm: ConfigMap, o: Outcomes) returns (err: Option<string>)
      modifies this
      ensures var s := SyncConfigMap(render, u, cm, o);
        err == s.err && calls == old(calls) + s.calls && events == old(events) + s.events
      ensures configMapPrefix == old(configMapPrefix) && proxyConfigs == old(proxyConfigs)
      ensures configMaps == old(configMaps) && queue == old(queue)
    {
      if !IsControlledBy(cm.meta, u.meta) {
        var msg := MessageResourceExists(cm.meta.name);
        events := events + [EventRecord(NameOf(u.meta), EventTypeWarning, ErrResourceExists, msg)];
        return Some(msg);
      }
      var data := ConfigMapData(render, u);
      if data.Err? {
        return Some(data.error);
      }
      var current := cm;
      if current.data != data.value {
        // updateProxyConfigMapData renders again; the renderer is a function, so the
        // data is the same map.
        var copy := current.(data := data.value);
        calls := calls + [UpdateConfigMap(current.meta.namespace, copy)];
        match o.update
        case Fails(e) => return Some(e);
        case Succeeds(rv) => current := copy.(meta := copy.meta.(resourceVersion := rv));
      }
      err := UpdateProxyConfigStatus(u, current, o);
      if err.Some? {
        return;
      }
      events := events + [EventRecord(NameOf(u.meta), EventTypeNormal, SuccessSynced, MessageResourceSynced)];
    }

    /** syncHandler. */
    method SyncHandler(ref: ObjectName, o: Outcomes) returns (err: Option<string>)
      requires Valid()
      modifies this
      ensures Valid()
      ensures var s := Sync(old(configMapPrefix), render, old(proxyConfigs), old(configMaps), ref, o);
        err == s.err && calls == old(calls) + s.calls && events == old(events) + s.events
      ensures configMapPrefix == old(configMapPrefix) && proxyConfigs == old(proxyConfigs)
      ensures configMaps == old(configMaps) && queue == old(queue)
    {
      if o.proxyConfigGet.Some? {
        return Some(o.proxyConfigGet.value);
      }
      if ref !in proxyConfigs {
        return None;
      }
      var u := proxyConfigs[ref];
      if u.meta.name == "" {
        return None;
      }
      var name := ConfigMapName(configMapPrefix, u.meta.name);
      if o.configMapGet.Some? {
        return Some(o.configMapGet.value);
      }
      var key := ObjectName(u.meta.namespace, name);
      if key in configMaps {
        err := SyncExisting(u, configMaps[key], o);
        return;
      }
      var made := NewProxyConfigConfigMap(configMapPrefix, render, u);
      if made.Err? {
        return Some(made.error);
      }
      calls := calls + [CreateConfigMap(u.meta.namespace, made.value)];
      match o.create
      case Fails(e) => return Some(e);
      case Succeeds(rv) =>
        var created := made.value.(meta := made.value.meta.(resourceVersion := rv));
        err := SyncExisting(u, created, o);
    }

    /** processNextWorkItem, given what workqueue.Get returned (None: shut down). */
    method ProcessNextWorkItem(next: Option<ObjectName>, o: Outcomes) returns (more: bool)
      requires Valid()
      modifies this
      ensures Valid()
      ensures more <==> next.Some?
      ensures next.None? ==> queue == old(queue) && calls == old(calls) && events == old(events)
      ensures next.Some? ==>
        var s := Sync(old(configMapPrefix), render, old(proxyConfigs), old(configMaps), next.value, o);
        calls == old(calls) + s.calls && events == old(events) + s.events &&
        queue == old(queue) + WorkItemOps(next.value, s.err)
      ensures configMapPrefix == old(configMapPrefix) && proxyConfigs == old(proxyConfigs)
      ensures configMaps == old(configMaps)
    {
      if next.None? {
        return false;
      }
      var ref := next.value;
      var err := SyncHandler(ref, o);
      if err.None? {
        queue := queue + [Forget(ref)];
      } else {
        queue := queue + [AddRateLimited(ref)];
      }
      queue := queue + [Done(ref)];
      return true;
    }

    /** enqueueProxyConfig. */
    method EnqueueProxyConfig(m: ObjectMeta)
      modifies this
      ensures queue == old(queue) + [Add(NameOf(m))]
      ensures configMapPrefix == old(configMapPrefix) && proxyConfigs == old(proxyConfigs)
      ensures configMaps == old(configMaps) && calls == old(calls) && events == old(events)
    {
      queue := queue + [Add(NameOf(m))];
    }

    /** handleObject. */
    method HandleObject(obj: HandledObject)
      modifies this
      ensures OwnerToEnqueue(old(proxyConfigs), ProxyConfigMeta, obj, ProxyConfigKind).None? ==> queue == old(queue)
      ensures OwnerToEnqueue(old(proxyConfigs), ProxyConfigMeta, obj, ProxyConfigKind).Some? ==>
        queue == old(queue) + [Add(OwnerToEnqueue(old(proxyConfigs), ProxyConfigMeta, obj, ProxyConfigKind).value)]
      ensures configMapPrefix == old(configMapPrefix) && proxyConfigs == old(proxyConfigs)
      ensures configMaps == old(configMaps) && calls == old(calls) && events == old(events)
    {
      var target := Unwrap(obj);
      if target.None? {
        return;
      }
      var ownerRef := GetControllerOf(target.value);
      if ownerRef.Some? {
        if ownerRef.value.kind != ProxyConfigKind {
          return;
        }
        var key := ObjectName(target.value.namespace, ownerRef.value.name);
        if key !in proxyConfigs {
          return;
        }
        EnqueueProxyConfig(proxyConfigs[key].meta);
      }
    }

    /** The ConfigMap informer's UpdateFunc. */
    method OnConfigMapUpdate(oldCm: ConfigMap, newCm: ConfigMap)
      modifies this
      ensures !ConfigMapUpdateRelevant(oldCm, newCm) ==> queue == old(queue)
      ensures ConfigMapUpdateRelevant(oldCm, newCm) && OwnerToEnqueue(old(proxyConfigs), ProxyConfigMeta, AnObject(newCm.meta), ProxyConfigKind).Some? ==>
        queue == old(queue) + [Add(OwnerToEnqueue(old(proxyConfigs), ProxyConfigMeta, AnObject(newCm.meta), ProxyConfigKind).value)]
      ensures ConfigMapUpdateRelevant(oldCm, newCm) && OwnerToEnqueue(old(proxyConfigs), ProxyConfigMeta, AnObject(newCm.meta), ProxyConfigKind).None? ==>
        queue == old(queue)
      ensures configMapPrefix == old(configMapPrefix) && proxyConfigs == old(proxyConfigs)
      ensures configMaps == old(configMaps) && calls == old(calls) && events == old(events)
    {
      if newCm.meta.resourceVersion == oldCm.meta.resourceVersion {
        return;
      }
      HandleObject(AnObject(newCm.meta));
    }
  }
}
