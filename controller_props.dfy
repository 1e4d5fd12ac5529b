/** Properties of syncHandler in pkg/controller/controller.go, stated about the
    decision function Sync that the SyncHandler method is proved to follow. */
module ControllerProperties {
  import opened Wrappers
  import opened Kube
  import opened Controller

  function SyncedEvent(u: ProxyConfigObject): EventRecord
  {
    EventRecord(NameOf(u.meta), EventTypeNormal, SuccessSynced, MessageResourceSynced)
  }

  function ForeignOwnerEvent(u: ProxyConfigObject, cm: ConfigMap): EventRecord
  {
    EventRecord(NameOf(u.meta), EventTypeWarning, ErrResourceExists, MessageResourceExists(cm.meta.name))
  }

  /** The status write sends u itself, not the copy carrying the ConfigMap's resource
      version; the success event follows only a successful write. */
  lemma WriteStatusSendsOriginal(u: ProxyConfigObject, o: Outcomes, rv: string)
    ensures WriteStatus(u, o).calls == [ApiCall.UpdateProxyConfigStatus(u.meta.namespace, u)]
    ensures WriteStatus(u, o).err.None? <==> o.status.Succeeds?
    ensures WriteStatus(u, o).events == if o.status.Succeeds? then [SyncedEvent(u)] else []
    ensures u.status != map["ResourceVersion" := rv] ==>
      WriteStatus(u, o).calls[0].proxyConfig != StatusCopy(u, rv)
  {
  }

  /** The position of a write in syncHandler: create, then update, then status. */
  function CallRank(call: ApiCall): nat
  {
    match call
    case CreateConfigMap(_, _) => 0
    case UpdateConfigMap(_, _) => 1
    case UpdateProxyConfigStatus(_, _) => 2
  }

  /** How the write call turns out. */
  function CallOutcome(call: ApiCall, o: Outcomes): ApiOutcome
  {
    match call
    case CreateConfigMap(_, _) => o.create
    case UpdateConfigMap(_, _) => o.update
    case UpdateProxyConfigStatus(_, _) => o.status
  }

  /** Each failure returns at once: the writes come in the order create, update, status,
      at most one of each; every write but the last succeeded; a failed last write is the
      error returned, with no event; a successful last write is the status write, and the
      sync then succeeds. */
  ghost predicate WritesInOrder(s: SyncOutcome, o: Outcomes)
  {
    (forall i, j :: 0 <= i < j < |s.calls| ==> CallRank(s.calls[i]) < CallRank(s.calls[j])) &&
    (forall i :: 0 <= i < |s.calls| - 1 ==> CallOutcome(s.calls[i], o).Succeeds?) &&
    (|s.calls| > 0 ==>
      var last := CallOutcome(s.calls[|s.calls| - 1], o);
      (last.Fails? ==> s.err == Some(last.err) && s.events == []) &&
      (last.Succeeds? ==> s.calls[|s.calls| - 1].UpdateProxyConfigStatus? && s.err.None?))
  }

  /** The shape of the part after the ConfigMap was obtained: at most an update and the
      status write, the status write last and carrying u and sent only after a successful
      update, a failed update returned at once, and exactly one event: the warning for a
      foreign owner or the success event. */
  lemma SyncConfigMapShape(render: Renderer, u: ProxyConfigObject, cm: ConfigMap, o: Outcomes)
    ensures WritesInOrder(SyncConfigMap(render, u, cm, o), o)
    ensures var s := SyncConfigMap(render, u, cm, o);
      |s.calls| <= 2 &&
      (forall i :: 0 <= i < |s.calls| ==> !s.calls[i].CreateConfigMap?) &&
      (forall i :: 0 <= i < |s.calls| && s.calls[i].UpdateProxyConfigStatus? ==>
        i == |s.calls| - 1 && s.calls[i].proxyConfig == u) &&
      (s.err.None? ==> |s.calls| >= 1 && s.calls[|s.calls| - 1].UpdateProxyConfigStatus? && s.events == [SyncedEvent(u)]) &&
      (s.err.Some? ==> s.events == [] || (s.events == [ForeignOwnerEvent(u, cm)] && s.calls == []))
  {
    var s := SyncConfigMap(render, u, cm, o);
    if IsControlledBy(cm.meta, u.meta) && ConfigMapData(render, u).Ok? {
      WriteStatusSendsOriginal(u, o, "");
    }
  }

  /** A ConfigMap whose controller is not this ProxyConfig: one warning event, the error
      it names, and nothing written. */
  lemma ForeignOwnerStops(render: Renderer, u: ProxyConfigObject, cm: ConfigMap, o: Outcomes)
    requires !IsControlledBy(cm.meta, u.meta)
    ensures SyncConfigMap(render, u, cm, o) ==
      SyncOutcome(Some(MessageResourceExists(cm.meta.name)), [], [ForeignOwnerEvent(u, cm)])
  {
  }

  /** For a controlled ConfigMap and a successful render, an update is sent exactly when
      the data differs, and it sends the ConfigMap with its Data replaced wholesale. */
  lemma UpdateOnlyWhenDataDiffers(render: Renderer, u: ProxyConfigObject, cm: ConfigMap, o: Outcomes)
    requires IsControlledBy(cm.meta, u.meta) && render(u).Ok?
    ensures var data := map[ConfigMapDataKey := render(u).value];
      var s := SyncConfigMap(render, u, cm, o);
      ((exists i :: 0 <= i < |s.calls| && s.calls[i].UpdateConfigMap?) <==> cm.data != data) &&
      (cm.data != data ==> s.calls[0] == UpdateConfigMap(cm.meta.namespace, cm.(data := data)))
  {
    var data := map[ConfigMapDataKey := render(u).value];
    var s := SyncConfigMap(render, u, cm, o);
    if cm.data == data {
      WriteStatusSendsOriginal(u, o, "");
      assert s.calls == [ApiCall.UpdateProxyConfigStatus(u.meta.namespace, u)];
    } else {
      assert s.calls[0].UpdateConfigMap?;
    }
  }

  /** Not finding the ProxyConfig is success with nothing written; an empty name is
      absorbed the same way; any other lister error is returned with nothing written. */
  lemma SyncAbsorbsMissingProxyConfig(prefix: string, render: Renderer, pcs: map<ObjectName, ProxyConfigObject>,
                                      cms: map<ObjectName, ConfigMap>, ref: ObjectName, o: Outcomes)
    ensures o.proxyConfigGet.Some? ==>
      Sync(prefix, render, pcs, cms, ref, o) == SyncOutcome(o.proxyConfigGet, [], [])
    ensures o.proxyConfigGet.None? && (ref !in pcs || pcs[ref].meta.name == "") ==>
      Sync(prefix, render, pcs, cms, ref, o) == SyncOutcome(None, [], [])
  {
  }

  /** A missing ConfigMap is created first, under the prefixed name in the ProxyConfig's
      namespace, controlled by the ProxyConfig alone, labelled controller=maestro and
      holding the rendered bootstrap; after a successful create the ownership check
      passes, so no warning is ever recorded for it. */
  lemma SyncCreatesMissingConfigMap(prefix: string, render: Renderer, pcs: map<ObjectName, ProxyConfigObject>,
                                    cms: map<ObjectName, ConfigMap>, ref: ObjectName, o: Outcomes)
    requires o.proxyConfigGet.None? && o.configMapGet.None? && ref in pcs && pcs[ref].meta.name != ""
    requires ObjectName(pcs[ref].meta.namespace, ConfigMapName(prefix, pcs[ref].meta.name)) !in cms
    requires render(pcs[ref]).Ok?
    ensures var u := pcs[ref];
      var s := Sync(prefix, render, pcs, cms, ref, o);
      |s.calls| >= 1 && s.calls[0].CreateConfigMap? &&
      s.calls[0].namespace == u.meta.namespace &&
      s.calls[0].configMap.meta.name == prefix + u.meta.name &&
      s.calls[0].configMap.meta.namespace == u.meta.namespace &&
      s.calls[0].configMap.meta.labels == map["controller" := "maestro"] &&
      s.calls[0].configMap.data == map["envoy.yaml" := render(u).value] &&
      s.calls[0].configMap.meta.ownerReferences ==
        [OwnerReference("config.maestro.io/v1", "ProxyConfig", u.meta.name, u.meta.uid, true, true)] &&
      (forall e :: e in s.events ==> e.eventType == EventTypeNormal)
  {
    var u := pcs[ref];
    var cm := NewProxyConfigConfigMap(prefix, render, u).value;
    if o.create.Succeeds? {
      var created := cm.(meta := cm.meta.(resourceVersion := o.create.resourceVersion));
      assert GetControllerOf(created.meta) == GetControllerOf(cm.meta);
      SyncConfigMapShape(render, u, created, o);
    }
  }

  /** Over every input: the writes come in the order create, update, status, at most
      one of each, and each failure returns at once (WritesInOrder); the status write is
      last and sends the lister's object unchanged; success with no write happens
      exactly when the ProxyConfig is gone or has no name; otherwise success means the
      status write was sent and one success event recorded. */
  lemma SyncShape(prefix: string, render: Renderer, pcs: map<ObjectName, ProxyConfigObject>,
                  cms: map<ObjectName, ConfigMap>, ref: ObjectName, o: Outcomes)
    ensures SyncShaped(Sync(prefix, render, pcs, cms, ref, o), pcs, ref, o)
    ensures WritesInOrder(Sync(prefix, render, pcs, cms, ref, o), o)
  {
    if o.proxyConfigGet.None? && ref in pcs && pcs[ref].meta.name != "" && o.configMapGet.None? {
      var u := pcs[ref];
      var key := ObjectName(u.meta.namespace, ConfigMapName(prefix, u.meta.name));
      if key in cms {
        SyncConfigMapShape(render, u, cms[key], o);
      } else if render(u).Ok? && o.create.Succeeds? {
        SyncShapeAfterCreate(prefix, render, pcs, cms, ref, o);
      }
    }
  }

  /** The clauses of SyncShape about one sync result. */
  ghost predicate SyncShaped(s: SyncOutcome, pcs: map<ObjectName, ProxyConfigObject>, ref: ObjectName, o: Outcomes)
  {
    |s.calls| <= 3 &&
    (forall i :: 0 < i < |s.calls| ==> !s.calls[i].CreateConfigMap?) &&
    (forall i :: 0 <= i < |s.calls| && s.calls[i].UpdateProxyConfigStatus? ==>
      i == |s.calls| - 1 && ref in pcs && s.calls[i].proxyConfig == pcs[ref]) &&
    (s.err.None? && s.calls == [] <==>
      o.proxyConfigGet.None? && (ref !in pcs || pcs[ref].meta.name == "")) &&
    (s.err.None? && s.calls != [] ==>
      s.calls[|s.calls| - 1].UpdateProxyConfigStatus? && s.events == [SyncedEvent(pcs[ref])]) &&
    (s.err.Some? ==> forall e :: e in s.events ==> e.eventType == EventTypeWarning)
  }

  /** The case where the ConfigMap was missing and has just been created. */
  lemma SyncShapeAfterCreate(prefix: string, render: Renderer, pcs: map<ObjectName, ProxyConfigObject>,
                             cms: map<ObjectName, ConfigMap>, ref: ObjectName, o: Outcomes)
    requires o.proxyConfigGet.None? && ref in pcs && pcs[ref].meta.name != "" && o.configMapGet.None?
    requires ObjectName(pcs[ref].meta.namespace, ConfigMapName(prefix, pcs[ref].meta.name)) !in cms
    requires render(pcs[ref]).Ok? && o.create.Succeeds?
    ensures SyncShaped(Sync(prefix, render, pcs, cms, ref, o), pcs, ref, o)
    ensures WritesInOrder(Sync(prefix, render, pcs, cms, ref, o), o)
  {
    var u := pcs[ref];
    var cm := NewProxyConfigConfigMap(prefix, render, u).value;
    var created := cm.(meta := cm.meta.(resourceVersion := o.create.resourceVersion));
    SyncConfigMapShape(render, u, created, o);
    var rest := SyncConfigMap(render, u, created, o);
    var s := Sync(prefix, render, pcs, cms, ref, o);
    assert s.calls == [CreateConfigMap(u.meta.namespace, cm)] + rest.calls;
    assert forall i :: 0 < i < |s.calls| ==> s.calls[i] == rest.calls[i - 1];
    // The created ConfigMap passes the ownership check and holds the rendered data,
    // so the status write follows the create.
    assert GetControllerOf(created.meta) == GetControllerOf(cm.meta);
    assert rest == WriteStatus(u, o);
  }

  /** handleObject enqueues exactly the controller owner of kind ProxyConfig when it is
      in the lister, under the object's namespace and the owner's name; a tombstone is
      handled like the object it wraps. */
  lemma HandleObjectEnqueuesOwner(pcs: map<ObjectName, ProxyConfigObject>, m: ObjectMeta)
    requires KeyedByName(pcs, ProxyConfigMeta)
    ensures var owner := GetControllerOf(m);
      OwnerToEnqueue(pcs, ProxyConfigMeta, AnObject(m), ProxyConfigKind).Some? <==>
        owner.Some? && owner.value.kind == "ProxyConfig" && ObjectName(m.namespace, owner.value.name) in pcs
    ensures OwnerToEnqueue(pcs, ProxyConfigMeta, AnObject(m), ProxyConfigKind).Some? ==>
      OwnerToEnqueue(pcs, ProxyConfigMeta, AnObject(m), ProxyConfigKind).value == ObjectName(m.namespace, GetControllerOf(m).value.name)
    ensures OwnerToEnqueue(pcs, ProxyConfigMeta, Tombstone(Some(m)), ProxyConfigKind) == OwnerToEnqueue(pcs, ProxyConfigMeta, AnObject(m), ProxyConfigKind)
    ensures OwnerToEnqueue(pcs, ProxyConfigMeta, Tombstone(None), ProxyConfigKind) == None && OwnerToEnqueue(pcs, ProxyConfigMeta, NotAnObject, ProxyConfigKind) == None
  {
    var owner := GetControllerOf(m);
    if owner.Some? && owner.value.kind == "ProxyConfig" {
      var key := ObjectName(m.namespace, owner.value.name);
      if key in pcs {
        assert NameOf(ProxyConfigMeta(pcs[key])) == key;
      }
    }
  }
}
