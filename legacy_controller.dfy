/** pkg/controllers/controller.go: the earlier ProxyConfig controller. It looks the
    ConfigMap up under the ProxyConfig's own name, creates it when missing with a
    bootstrap that does not depend on the ProxyConfig, never updates an existing one,
    and writes the ConfigMap's resource version into the status copy it sends.

    As in the newer controller, the listers are maps, and the API writes, the events
    and the queue operations are logs. The API version of the maestro.io group is a
    constructor argument: pkg/apis/maestro/v1's registration file is not part of this
    model. The bootstrap YAML (internal/envoy/config.go, admin resource only) is a string
    fixed at construction. */
module LegacyController {
  import opened Wrappers
  import opened Kube

  const SuccessSynced: string := "Synced"
  const ErrResourceExists: string := "ErrResourceExists"
  const MessageResourceSynced: string := "ProxyConfig synced successfully"
  const ConfigMapDataKey: string := "envoy.yaml"
  const ProxyConfigKind: string := "ProxyConfig"

  datatype ProxyConfigStatus = ProxyConfigStatus(resourceVersion: string)

  /** maestrov1.ProxyConfig: metadata, an opaque spec, and the status. */
  datatype ProxyConfig = ProxyConfig(meta: ObjectMeta, spec: map<string, string>, status: ProxyConfigStatus)

  datatype ApiCall =
    | CreateConfigMap(namespace: string, configMap: ConfigMap)
    | UpdateProxyConfigStatus(namespace: string, proxyConfig: ProxyConfig)

  /** An error other than NotFound from either lister, and the outcome of each write. */
  datatype Outcomes = Outcomes(proxyConfigGet: Option<string>, configMapGet: Option<string>,
                               create: ApiOutcome, status: ApiOutcome)

  datatype SyncOutcome = SyncOutcome(err: Option<string>, calls: seq<ApiCall>, events: seq<EventRecord>)

  function MessageResourceExists(name: string): string
  {
    "Resource \"" + name + "\" already exists and is not managed by ProxyConfig"
  }

  /** newConfigMap. */
  function NewConfigMap(apiVersion: string, bootstrap: string, p: ProxyConfig): (cm: ConfigMap)
    ensures cm.meta.name == p.meta.name && cm.meta.namespace == p.meta.namespace
    ensures cm.meta.labels == map["controller" := p.meta.name]
    ensures cm.meta.ownerReferences == [NewControllerRef(p.meta, apiVersion, ProxyConfigKind)]
    ensures cm.data == map[ConfigMapDataKey := bootstrap]
  {
    ConfigMap(ObjectMeta(p.meta.name, p.meta.namespace, "", "", map["controller" := p.meta.name],
                         [NewControllerRef(p.meta, apiVersion, ProxyConfigKind)]),
              map[ConfigMapDataKey := bootstrap])
  }

  /** The status copy: ResourceVersion set to the ConfigMap's, everything else kept. */
  function StatusCopy(p: ProxyConfig, cm: ConfigMap): (r: ProxyConfig)
    ensures r.meta == p.meta && r.spec == p.spec
    ensures r.status.resourceVersion == cm.meta.resourceVersion
  {
    p.(status := p.status.(resourceVersion := cm.meta.resourceVersion))
  }

  /** The ownership check and then the status write. */
  function SyncConfigMap(p: ProxyConfig, cm: ConfigMap, o: Outcomes): SyncOutcome
  {
    if !IsControlledBy(cm.meta, p.meta) then
      var msg := MessageResourceExists(cm.meta.name);
      SyncOutcome(Some(msg), [], [EventRecord(NameOf(p.meta), EventTypeWarning, ErrResourceExists, msg)])
    else
      var call := UpdateProxyConfigStatus(p.meta.namespace, StatusCopy(p, cm));
      match o.status
      case Fails(e) => SyncOutcome(Some(e), [call], [])
      case Succeeds(_) =>
        SyncOutcome(None, [call], [EventRecord(NameOf(p.meta), EventTypeNormal, SuccessSynced, MessageResourceSynced)])
  }

  /** syncHandler for the work item ref. */
  function Sync(apiVersion: string, bootstrap: string, proxyConfigs: map<ObjectName, ProxyConfig>,
                configMaps: map<ObjectName, ConfigMap>, ref: ObjectName, o: Outcomes): SyncOutcome
  {
    if o.proxyConfigGet.Some? then SyncOutcome(o.proxyConfigGet, [], [])
    else if ref !in proxyConfigs then SyncOutcome(None, [], [])
    else
      var p := proxyConfigs[ref];
      if p.meta.name == "" then SyncOutcome(None, [], [])
      else if o.configMapGet.Some? then SyncOutcome(o.configMapGet, [], [])
      else
        var key := ObjectName(p.meta.namespace, p.meta.name);
        if key in configMaps then SyncConfigMap(p, configMaps[key], o)
        else
          var cm := NewConfigMap(apiVersion, bootstrap, p);
          var call := CreateConfigMap(p.meta.namespace, cm);
          match o.create
          case Fails(e) => SyncOutcome(Some(e), [call], [])
          case Succeeds(rv) =>
            var rest := SyncConfigMap(p, cm.(meta := cm.meta.(resourceVersion := rv)), o);
            SyncOutcome(rest.err, [call] + rest.calls, rest.events)
  }

  function ProxyConfigMeta(p: ProxyConfig): ObjectMeta { p.meta }
  function ConfigMapMeta(cm: ConfigMap): ObjectMeta { cm.meta }

  class MaestroController {
    const apiVersion: string
    const bootstrap: string
    var proxyConfigs: map<ObjectName, ProxyConfig>
    var configMaps: map<ObjectName, ConfigMap>
    var calls: seq<ApiCall>
    var events: seq<EventRecord>
    var queue: seq<QueueOp>

    ghost predicate Valid()
      reads this
    {
      KeyedByName(proxyConfigs, ProxyConfigMeta) && KeyedByName(configMaps, ConfigMapMeta)
    }

    constructor(apiVersion: string, bootstrap: string,
                proxyConfigs: map<ObjectName, ProxyConfig>, configMaps: map<ObjectName, ConfigMap>)
      requires KeyedByName(proxyConfigs, ProxyConfigMeta) && KeyedByName(configMaps, ConfigMapMeta)
      ensures Valid()
      ensures this.apiVersion == apiVersion && this.bootstrap == bootstrap
      ensures this.proxyConfigs == proxyConfigs && this.configMaps == configMaps
      ensures calls == [] && events == [] && queue == []
    {
      this.apiVersion := apiVersion;
      this.bootstrap := bootstrap;
      this.proxyConfigs := proxyConfigs;
      this.configMaps := configMaps;
      calls, events, queue := [], [], [];
    }

    /** The ownership check, then updateProxyConfigStatus and the success event. */
    method SyncExisting(p: ProxyConfig, cm: ConfigMap, o: Outcomes) returns (err: Option<string>)
      modifies this
      ensures var s := SyncConfigMap(p, cm, o);
        err == s.err && calls == old(calls) + s.calls && events == old(events) + s.events
      ensures proxyConfigs == old(proxyConfigs) && configMaps == old(configMaps) && queue == old(queue)
    {
      if !IsControlledBy(cm.meta, p.meta) {
        var msg := MessageResourceExists(cm.meta.name);
        events := events + [EventRecord(NameOf(p.meta), EventTypeWarning, ErrResourceExists, msg)];
        return Some(msg);
      }
      var proxyConfigCopy := p.(status := p.status.(resourceVersion := cm.meta.resourceVersion));
      calls := calls + [UpdateProxyConfigStatus(p.meta.namespace, proxyConfigCopy)];
      if o.status.Fails? {
        return Some(o.status.err);
      }
      events := events + [EventRecord(NameOf(p.meta), EventTypeNormal, SuccessSynced, MessageResourceSynced)];
      return None;
    }

    /** syncHandler. */
    method SyncHandler(ref: ObjectName, o: Outcomes) returns (err: Option<string>)
      requires Valid()
      modifies this
      ensures Valid()
      ensures var s := Sync(apiVersion, bootstrap, old(proxyConfigs), old(configMaps), ref, o);
        err == s.err && calls == old(calls) + s.calls && events == old(events) + s.events
      ensures proxyConfigs == old(proxyConfigs) && configMaps == old(configMaps) && queue == old(queue)
    {
      if o.proxyConfigGet.Some? {
        return o.proxyConfigGet;
      }
      if ref !in proxyConfigs {
        return None;
      }
      var p := proxyConfigs[ref];
      if p.meta.name == "" {
        return None;
      }
      if o.configMapGet.Some? {
        return o.configMapGet;
      }
      var key := ObjectName(p.meta.namespace, p.meta.name);
      if key in configMaps {
        err := SyncExisting(p, configMaps[key], o);
        return;
      }
      var cm := NewConfigMap(apiVersion, bootstrap, p);
      calls := calls + [CreateConfigMap(p.meta.namespace, cm)];
      match o.create
      case Fails(e) => return Some(e);
      case Succeeds(rv) =>
        err := SyncExisting(p, cm.(meta := cm.meta.(resourceVersion := rv)), o);
    }

    /** processNextWorkItem, given what workqueue.Get returned (None: shut down). */
    method ProcessNextWorkItem(next: Option<ObjectName>, o: Outcomes) returns (more: bool)
      requires Valid()
      modifies this
      ensures Valid()
      ensures more <==> next.Some?
      ensures next.None? ==> queue == old(queue) && calls == old(calls) && events == old(events)
      ensures next.Some? ==>
        var s := Sync(apiVersion, bootstrap, old(proxyConfigs), old(configMaps), next.value, o);
        calls == old(calls) + s.calls && events == old(events) + s.events &&
        queue == old(queue) + WorkItemOps(next.value, s.err)
      ensures proxyConfigs == old(proxyConfigs) && configMaps == old(configMaps)
    {
      if next.None? {
        return false;
      }
      var ref := next.value;
      var err := SyncHandler(ref, o);
      if err.None? {
        queue := queue + [Forget(ref)];
      } else {
        queue := queue + [AddRateLimited(ref)];
      }
      queue := queue + [Done(ref)];
      return true;
    }

    /** handleObject, with enqueueProxyConfig inlined. */
    method HandleObject(obj: HandledObject)
      modifies this
      ensures var target := OwnerToEnqueue(old(proxyConfigs), ProxyConfigMeta, obj, ProxyConfigKind);
        queue == old(queue) + (if target.Some? then [Add(target.value)] else [])
      ensures proxyConfigs == old(proxyConfigs) && configMaps == old(configMaps)
      ensures calls == old(calls) && events == old(events)
    {
      var target := Unwrap(obj);
      if target.None? {
        return;
      }
      var ownerRef := GetControllerOf(target.value);
      if ownerRef.Some? {
        if ownerRef.value.kind != ProxyConfigKind {
          return;
        }
        var key := ObjectName(target.value.namespace, ownerRef.value.name);
        if key !in proxyConfigs {
          return;
        }
        queue := queue + [Add(NameOf(proxyConfigs[key].meta))];
      }
    }

    /** The ConfigMap informer's UpdateFunc. */
    method OnConfigMapUpdate(oldCm: ConfigMap, newCm: ConfigMap)
      modifies this
      ensures var target := OwnerToEnqueue(old(proxyConfigs), ProxyConfigMeta, AnObject(newCm.meta), ProxyConfigKind);
        queue == old(queue) + (if ConfigMapUpdateRelevant(oldCm, newCm) && target.Some? then [Add(target.value)] else [])
      ensures proxyConfigs == old(proxyConfigs) && configMaps == old(configMaps)
      ensures calls == old(calls) && events == old(events)
    {
      if newCm.meta.resourceVersion == oldCm.meta.resourceVersion {
        return;
      }
      HandleObject(AnObject(newCm.meta));
    }
  }

  // ---------------------------------------------------------------------
  // Properties
  // ---------------------------------------------------------------------

  /** The ConfigMap is looked up and created under the ProxyConfig's own name in its own
      namespace, with no prefix. */
  lemma LegacyCreatesUnderOwnName(apiVersion: string, bootstrap: string, pcs: map<ObjectName, ProxyConfig>,
                                  cms: map<ObjectName, ConfigMap>, ref: ObjectName, o: Outcomes)
    requires o.proxyConfigGet.None? && o.configMapGet.None? && ref in pcs && pcs[ref].meta.name != ""
    requires ObjectName(pcs[ref].meta.namespace, pcs[ref].meta.name) !in cms
    ensures var p := pcs[ref];
      var s := Sync(apiVersion, bootstrap, pcs, cms, ref, o);
      |s.calls| >= 1 && s.calls[0] == CreateConfigMap(p.meta.namespace, NewConfigMap(apiVersion, bootstrap, p)) &&
      s.calls[0].configMap.meta.name == p.meta.name &&
      IsControlledBy(s.calls[0].configMap.meta, p.meta) &&
      (o.create.Succeeds? ==> forall e :: e in s.events ==> e.eventType == EventTypeNormal)
  {
    var p := pcs[ref];
    var cm := NewConfigMap(apiVersion, bootstrap, p);
    ControllerRefControls(cm.meta, p.meta, p.meta, apiVersion, ProxyConfigKind);
    if o.create.Succeeds? {
      var created := cm.(meta := cm.meta.(resourceVersion := o.create.resourceVersion));
      ControllerRefControls(created.meta, p.meta, p.meta, apiVersion, ProxyConfigKind);
    }
  }

  /** The created data does not depend on the ProxyConfig. */
  lemma LegacyDataIndependentOfProxyConfig(apiVersion: string, bootstrap: string, p1: ProxyConfig, p2: ProxyConfig)
    ensures NewConfigMap(apiVersion, bootstrap, p1).data == NewConfigMap(apiVersion, bootstrap, p2).data
  {
  }

  /** The position of a write in syncHandler: create, then status. */
  function CallRank(call: ApiCall): nat
  {
    match call
    case CreateConfigMap(_, _) => 0
    case UpdateProxyConfigStatus(_, _) => 1
  }

  /** How the write call turns out. */
  function CallOutcome(call: ApiCall, o: Outcomes): ApiOutcome
  {
    match call
    case CreateConfigMap(_, _) => o.create
    case UpdateProxyConfigStatus(_, _) => o.status
  }

  /** Each failure returns at once: the writes come in the order create, status, at most
      one of each; every write but the last succeeded; a failed last write is the error
      returned, with no event; a successful last write is the status write, and the sync
      then succeeds. */
  ghost predicate WritesInOrder(s: SyncOutcome, o: Outcomes)
  {
    (forall i, j :: 0 <= i < j < |s.calls| ==> CallRank(s.calls[i]) < CallRank(s.calls[j])) &&
    (forall i :: 0 <= i < |s.calls| - 1 ==> CallOutcome(s.calls[i], o).Succeeds?) &&
    (|s.calls| > 0 ==>
      var last := CallOutcome(s.calls[|s.calls| - 1], o);
      (last.Fails? ==> s.err == Some(last.err) && s.events == []) &&
      (last.Succeeds? ==> s.calls[|s.calls| - 1].UpdateProxyConfigStatus? && s.err.None?))
  }

  /** Over every input: no ConfigMap is ever updated (only a create, then the status
      write); the status write is last, follows only a successful create, and sends the
      ProxyConfig with its status resource version set to that of the ConfigMap it
      checked (the existing one, or the one just created); each failure returns at once;
      NotFound or an empty name gives success with nothing written. */
  lemma LegacySyncShape(apiVersion: string, bootstrap: string, pcs: map<ObjectName, ProxyConfig>,
                        cms: map<ObjectName, ConfigMap>, ref: ObjectName, o: Outcomes)
    ensures WritesInOrder(Sync(apiVersion, bootstrap, pcs, cms, ref, o), o)
    ensures var s := Sync(apiVersion, bootstrap, pcs, cms, ref, o);
      forall i :: 0 <= i < |s.calls| && s.calls[i].UpdateProxyConfigStatus? ==>
        ref in pcs &&
        var key := ObjectName(pcs[ref].meta.namespace, pcs[ref].meta.name);
        var rv := s.calls[i].proxyConfig.status.resourceVersion;
        (key in cms ==> rv == cms[key].meta.resourceVersion) &&
        (key !in cms ==> o.create.Succeeds? && rv == o.create.resourceVersion)
    ensures var s := Sync(apiVersion, bootstrap, pcs, cms, ref, o);
      |s.calls| <= 2 &&
      (forall i :: 0 < i < |s.calls| ==> s.calls[i].UpdateProxyConfigStatus?) &&
      (forall i :: 0 <= i < |s.calls| && s.calls[i].UpdateProxyConfigStatus? ==>
        i == |s.calls| - 1 && ref in pcs &&
        s.calls[i].proxyConfig.meta == pcs[ref].meta && s.calls[i].proxyConfig.spec == pcs[ref].spec) &&
      (s.err.None? && s.calls == [] <==>
        o.proxyConfigGet.None? && (ref !in pcs || pcs[ref].meta.name == "")) &&
      (s.err.None? && s.calls != [] ==> s.calls[|s.calls| - 1].UpdateProxyConfigStatus? && |s.events| == 1)
  {
    if o.proxyConfigGet.None? && ref in pcs && pcs[ref].meta.name != "" && o.configMapGet.None? &&
       ObjectName(pcs[ref].meta.namespace, pcs[ref].meta.name) !in cms && o.create.Succeeds? {
      // The created ConfigMap passes the ownership check, so the status write follows.
      var p := pcs[ref];
      var cm := NewConfigMap(apiVersion, bootstrap, p);
      var created := cm.(meta := cm.meta.(resourceVersion := o.create.resourceVersion));
      ControllerRefControls(created.meta, p.meta, p.meta, apiVersion, ProxyConfigKind);
    }
  }

  /** An existing ConfigMap controlled by the ProxyConfig leads straight to the status
      write, whose status carries that ConfigMap's resource version; a foreign one is
      reported by a warning and nothing is written. */
  lemma LegacyExistingConfigMap(apiVersion: string, bootstrap: string, pcs: map<ObjectName, ProxyConfig>,
                                cms: map<ObjectName, ConfigMap>, ref: ObjectName, o: Outcomes)
    requires o.proxyConfigGet.None? && o.configMapGet.None? && ref in pcs && pcs[ref].meta.name != ""
    requires ObjectName(pcs[ref].meta.namespace, pcs[ref].meta.name) in cms
    ensures var p := pcs[ref];
      var cm := cms[ObjectName(p.meta.namespace, p.meta.name)];
      var s := Sync(apiVersion, bootstrap, pcs, cms, ref, o);
      (IsControlledBy(cm.meta, p.meta) ==>
        s.calls == [UpdateProxyConfigStatus(p.meta.namespace, StatusCopy(p, cm))] &&
        s.calls[0].proxyConfig.status.resourceVersion == cm.meta.resourceVersion) &&
      (!IsControlledBy(cm.meta, p.meta) ==>
        s.calls == [] && s.err == Some(MessageResourceExists(cm.meta.name)) &&
        s.events == [EventRecord(NameOf(p.meta), EventTypeWarning, ErrResourceExists, MessageResourceExists(cm.meta.name))])
  {
  }
}
