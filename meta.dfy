/**
 * The pieces of Kubernetes object metadata (k8s.io/apimachinery, metav1) that
 * the reconcilers read and write.
 */
module Meta {
  import opened Wrappers

  /** Go's int32. */
  newtype Int32 = x: int | -0x8000_0000 <= x < 0x8000_0000

  /** metav1.Time as a count of seconds; 0 is Go's zero time. */
  type Time = int

  /** A Go `map[string]string` that may be nil (None). */
  type StringMap = Option<map<string, string>>

  /** Ranging over, or indexing into, a nil map behaves like the empty map. */
  function OrEmpty(m: StringMap): map<string, string> {
    m.GetOr(map[])
  }

  /** Go's `m[key]`: the zero value "" when the key (or the whole map) is absent. */
  function Lookup(m: StringMap, key: string): (v: string)
    ensures key in OrEmpty(m) ==> v == OrEmpty(m)[key]
    ensures key !in OrEmpty(m) ==> v == ""
  {
    if m.Some? && key in m.value then m.value[key] else ""
  }

  datatype OwnerReference = OwnerReference(
    apiVersion: string,
    kind: string,
    name: string,
    uid: string,
    controller: Option<bool>,
    blockOwnerDeletion: Option<bool>)

  datatype ObjectMeta = ObjectMeta(
    name: string,
    generateName: string,
    namespace: string,
    uid: string,
    resourceVersion: string,
    creationTimestamp: Time,
    deletionTimestamp: Option<Time>,
    labels: StringMap,
    annotations: StringMap,
    ownerReferences: seq<OwnerReference>)

  /** The zero ObjectMeta of a freshly allocated Go object. */
  const EmptyMeta := ObjectMeta("", "", "", "", "", 0, None, None, None, [])

  /** metav1.Time.IsZero, which also accepts a nil pointer. */
  predicate IsZero(t: Option<Time>) {
    t.None? || t.value == 0
  }

  datatype GroupVersionKind = GroupVersionKind(group: string, version: string, kind: string)

  /** schema.GroupVersion.String(): the core group has no prefix. */
  function ApiVersion(gvk: GroupVersionKind): (s: string)
    ensures gvk.group == "" ==> s == gvk.version
    ensures gvk.group != "" ==> s == gvk.group + "/" + gvk.version
  {
    if gvk.group == "" then gvk.version else gvk.group + "/" + gvk.version
  }

  /** An owner reference that marks `owner` (of kind `gvk`) as the managing controller. */
  predicate IsControllerRefTo(ref: OwnerReference, owner: ObjectMeta, gvk: GroupVersionKind) {
    && ref.apiVersion == ApiVersion(gvk)
    && ref.kind == gvk.kind
    && ref.name == owner.name
    && ref.uid == owner.uid
    && ref.controller == Some(true)
  }

  /** metav1.NewControllerRef. */
  function NewControllerRef(owner: ObjectMeta, gvk: GroupVersionKind): (r: OwnerReference)
    ensures IsControllerRefTo(r, owner, gvk)
    ensures r.blockOwnerDeletion == Some(true)
  {
    OwnerReference(ApiVersion(gvk), gvk.kind, owner.name, owner.uid, Some(true), Some(true))
  }
}
