/** The DataLogger custom resource of the `app.stackit.cloud/v1` API group. */
module ApiV1 {
  import opened Wrappers
  import opened Meta

  /** The API group, also the prefix of the hash annotation key. */
  const Group: string := "app.stackit.cloud"
  const Version: string := "v1"

  datatype DataLoggerSpec = DataLoggerSpec(
    customName: string,
    replicas: Int32,
    port: Int32,
    nodePort: Int32,
    targetPort: Int32)

  /**
   * The DataLogger record. `finalizers` is the list carried next to the type
   * metadata; the status is an empty record and is not represented.
   */
  datatype DataLogger = DataLogger(finalizers: seq<string>, meta: ObjectMeta, spec: DataLoggerSpec)

  const EmptySpec := DataLoggerSpec("", 0, 0, 0, 0)

  /** `&appv1.DataLogger{}`: the zero record a Get decodes into. */
  const EmptyDataLogger := DataLogger([], EmptyMeta, EmptySpec)

  /** The record with `ObjectMeta.ResourceVersion` set to `version` and nothing else changed. */
  function SetResourceVersion(d: DataLogger, version: string): (r: DataLogger)
    ensures r.meta.resourceVersion == version
    ensures r.(meta := r.meta.(resourceVersion := d.meta.resourceVersion)) == d
  {
    d.(meta := d.meta.(resourceVersion := version))
  }

  function GetGenerateName(d: DataLogger): string {
    d.meta.generateName
  }

  function GetCreationTimestamp(d: DataLogger): Time {
    d.meta.creationTimestamp
  }

  function GetNamespace(d: DataLogger): string {
    d.meta.namespace
  }

  /** The record with `ObjectMeta.Namespace` set to `namespace` and nothing else changed. */
  function SetNamespace(d: DataLogger, namespace: string): (r: DataLogger)
    ensures r.(meta := r.meta.(namespace := d.meta.namespace)) == d
  {
    d.(meta := d.meta.(namespace := namespace))
  }

  function GetName(d: DataLogger): string {
    d.meta.name
  }

  /**
   * GetLabels: nil for nil labels, otherwise a freshly built map holding
   * exactly the same pairs, filled one key at a time.
   */
  method GetLabels(d: DataLogger) returns (r: StringMap)
    ensures d.meta.labels.None? <==> r.None?
    ensures r.Some? ==> r.value.Keys == d.meta.labels.value.Keys
    ensures r.Some? ==> forall k | k in r.value :: r.value[k] == d.meta.labels.value[k]
  {
    if d.meta.labels.None? {
      return None;
    }
    var labels := d.meta.labels.value;
    var labelsCopy: map<string, string> := map[];
    var rest := labels.Keys;
    while rest != {}
      invariant rest <= labels.Keys
      invariant labelsCopy.Keys == labels.Keys - rest
      invariant forall k | k in labelsCopy :: labelsCopy[k] == labels[k]
      decreases |rest|
    {
      var key :| key in rest;
      labelsCopy := labelsCopy[key := labels[key]];
      rest := rest - {key};
    }
    return Some(labelsCopy);
  }

  /** SetNamespace then GetNamespace gives back the namespace that was set. */
  lemma SetThenGetNamespace(d: DataLogger, namespace: string)
    ensures GetNamespace(SetNamespace(d, namespace)) == namespace
    ensures SetNamespace(SetNamespace(d, namespace), GetNamespace(d)) == d
  {
  }
}
