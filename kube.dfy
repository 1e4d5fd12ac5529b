/** The parts of the Kubernetes client libraries that the two ProxyConfig controllers
    rely on: object metadata and owner references (metav1.GetControllerOf,
    metav1.IsControlledBy, metav1.NewControllerRef), informer tombstones, the events the
    recorder emits, the work-queue operations and the outcome of an API call. */
module Kube {
  import opened Wrappers

  /** cache.ObjectName: the namespace/name key of an object. */
  datatype ObjectName = ObjectName(namespace: string, name: string)

  datatype OwnerReference = OwnerReference(apiVersion: string, kind: string, name: string, uid: string,
                                           controller: bool, blockOwnerDeletion: bool)

  datatype ObjectMeta = ObjectMeta(name: string, namespace: string, uid: string, resourceVersion: string,
                                   labels: map<string, string>, ownerReferences: seq<OwnerReference>)

  datatype ConfigMap = ConfigMap(meta: ObjectMeta, data: map<string, string>)

  /** cache.ObjectToName on an object with this metadata. */
  function NameOf(m: ObjectMeta): (r: ObjectName)
    ensures r.namespace == m.namespace && r.name == m.name
  {
    ObjectName(m.namespace, m.name)
  }

  /** The first owner reference marked as the controller. */
  function ControllerOf(refs: seq<OwnerReference>): (r: Option<OwnerReference>)
    ensures r.None? <==> forall i :: 0 <= i < |refs| ==> !refs[i].controller
    ensures r.Some? ==>
      r.value.controller &&
      exists i :: 0 <= i < |refs| && refs[i] == r.value && forall j :: 0 <= j < i ==> !refs[j].controller
  {
    if |refs| == 0 then None
    else if refs[0].controller then Some(refs[0])
    else
      var r := ControllerOf(refs[1..]);
      assert forall i :: 1 <= i < |refs| ==> refs[i] == refs[1..][i - 1];
      r
  }

  /** metav1.GetControllerOf. */
  function GetControllerOf(m: ObjectMeta): Option<OwnerReference>
  {
    ControllerOf(m.ownerReferences)
  }

  /** metav1.IsControlledBy: the controller reference carries the owner's UID. */
  predicate IsControlledBy(m: ObjectMeta, owner: ObjectMeta)
  {
    GetControllerOf(m).Some? && GetControllerOf(m).value.uid == owner.uid
  }

  /** metav1.NewControllerRef(owner, gvk). */
  function NewControllerRef(owner: ObjectMeta, apiVersion: string, kind: string): (r: OwnerReference)
    ensures r.controller && r.blockOwnerDeletion
    ensures r.uid == owner.uid && r.name == owner.name && r.kind == kind && r.apiVersion == apiVersion
  {
    OwnerReference(apiVersion, kind, owner.name, owner.uid, true, true)
  }

  /** An object whose only owner reference is a controller reference to owner is
      controlled by owner, and by no object with another UID. */
  lemma ControllerRefControls(m: ObjectMeta, owner: ObjectMeta, other: ObjectMeta, apiVersion: string, kind: string)
    requires m.ownerReferences == [NewControllerRef(owner, apiVersion, kind)]
    ensures IsControlledBy(m, owner)
    ensures IsControlledBy(m, other) <==> other.uid == owner.uid
  {
    assert ControllerOf(m.ownerReferences) == Some(m.ownerReferences[0]);
  }

  /** What an informer hands to an event handler: an object, a tombstone
      (cache.DeletedFinalStateUnknown) wrapping an object or something else, or a value
      of some other type. */
  datatype HandledObject = AnObject(meta: ObjectMeta) | Tombstone(inner: Option<ObjectMeta>) | NotAnObject

  /** The object a handler works on, after unwrapping a tombstone. */
  function Unwrap(obj: HandledObject): (r: Option<ObjectMeta>)
    ensures obj.AnObject? ==> r == Some(obj.meta)
    ensures obj.Tombstone? ==> r == obj.inner
    ensures obj.NotAnObject? ==> r.None?
  {
    match obj
    case AnObject(m) => Some(m)
    case Tombstone(inner) => inner
    case NotAnObject => None
  }

  const EventTypeNormal: string := "Normal"
  const EventTypeWarning: string := "Warning"

  /** One recorder.Event call, against the object with this key. */
  datatype EventRecord = EventRecord(object: ObjectName, eventType: string, reason: string, message: string)

  /** The work-queue operations a controller performs. */
  datatype QueueOp = Add(ref: ObjectName) | Done(ref: ObjectName) | Forget(ref: ObjectName) | AddRateLimited(ref: ObjectName)

  /** What processNextWorkItem does to the queue once it got an item and synced it:
      Forget on success, AddRateLimited on failure, and the deferred Done last. */
  function WorkItemOps(ref: ObjectName, err: Option<string>): (ops: seq<QueueOp>)
    ensures |ops| == 2 && ops[1] == Done(ref)
    ensures Forget(ref) in ops <==> err.None?
    ensures AddRateLimited(ref) in ops <==> err.Some?
    ensures forall i :: 0 <= i < |ops| ==> !ops[i].Add?
  {
    if err.None? then [Forget(ref), Done(ref)] else [AddRateLimited(ref), Done(ref)]
  }

  /** The result of one write to the API server: the resource version the server
      assigned, or an error. */
  datatype ApiOutcome = Succeeds(resourceVersion: string) | Fails(err: string)

  /** The ConfigMap update filter: a resync delivers an update with an unchanged
      resource version, which is ignored. */
  predicate ConfigMapUpdateRelevant(oldCm: ConfigMap, newCm: ConfigMap)
  {
    newCm.meta.resourceVersion != oldCm.meta.resourceVersion
  }

  /** Each object in a lister's cache is keyed by its own namespace and name. */
  ghost predicate KeyedByName<T>(m: map<ObjectName, T>, metaOf: T -> ObjectMeta)
  {
    forall k :: k in m ==> NameOf(metaOf(m[k])) == k
  }

  /** The owner handleObject enqueues for an object: the cached owner that is the
      object's controller, when that controller reference is of the given kind. The
      owner is looked up in the object's own namespace. */
  function OwnerToEnqueue<T>(owners: map<ObjectName, T>, metaOf: T -> ObjectMeta, obj: HandledObject, kind: string): (r: Option<ObjectName>)
    ensures r.Some? ==>
      Unwrap(obj).Some? && GetControllerOf(Unwrap(obj).value).Some? &&
      GetControllerOf(Unwrap(obj).value).value.kind == kind
    ensures r.Some? ==> exists k :: k in owners && r.value == NameOf(metaOf(owners[k]))
  {
    match Unwrap(obj)
    case None => None
    case Some(m) =>
      match GetControllerOf(m)
      case None => None
      case Some(owner) =>
        if owner.kind != kind then None
        else
          var key := ObjectName(m.namespace, owner.name);
          if key in owners then Some(NameOf(metaOf(owners[key]))) else None
  }
}
