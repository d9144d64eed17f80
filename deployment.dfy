/**
 * Deployment convergence: the desired Deployment is derived from the
 * DataLogger, stamped with an owner reference by a fallible callback, and
 * then created when absent or updated when present.
 */
module Deployments {
  import opened Wrappers
  import opened Meta
  import opened ApiV1
  import opened Resources
  import opened Store

  /** SetControllerReference(owner, controlled, scheme): the stamped Deployment, or a configuration error. */
  type OwnerCallback = (DataLogger, Deployment) -> Result<Deployment, Error>

  const NameLabel: string := "app.kubernetes.io/name"
  const InstanceLabel: string := "app.kubernetes.io/instance"
  const AppLabel: string := "app"
  const ContainerName: string := "datalogger-container"
  const Image: string := "kennethreitz/httpbin"
  const AppPort: Int32 := 8080

  /** The pod labels, used both as the template labels and as the selector. */
  function PodLabels(dl: DataLogger): map<string, string> {
    map[NameLabel := Lookup(dl.meta.labels, NameLabel),
        InstanceLabel := Lookup(dl.meta.labels, InstanceLabel),
        AppLabel := dl.spec.customName]
  }

  /** CreateDeployment: the Deployment the DataLogger asks for. */
  function CreateDeployment(dl: DataLogger): (d: Deployment)
    // filed under the custom name, in the DataLogger's namespace, with only those two metadata fields set
    ensures KeyOf(DeploymentObject(d)) == Key(DeploymentKind, dl.meta.namespace, dl.spec.customName)
    ensures d.meta == EmptyMeta.(name := dl.spec.customName, namespace := dl.meta.namespace)
    ensures d.spec.replicas == Some(dl.spec.replicas)
    // the selector picks exactly the pods of the template
    ensures d.spec.selector == Some(LabelSelector(d.spec.template.labels))
    ensures d.spec.template.labels.Some?
    ensures d.spec.template.labels.value.Keys == {NameLabel, InstanceLabel, AppLabel}
    ensures d.spec.template.labels.value[AppLabel] == dl.spec.customName
    // the two well-known labels are copied from the DataLogger, "" when it lacks them
    ensures d.spec.template.labels.value[NameLabel] == Lookup(dl.meta.labels, NameLabel)
    ensures d.spec.template.labels.value[InstanceLabel] == Lookup(dl.meta.labels, InstanceLabel)
    // one container, serving on 8080 and told its custom name
    ensures |d.spec.template.containers| == 1
    ensures d.spec.template.containers[0].name == ContainerName
    ensures d.spec.template.containers[0].image == Image
    ensures d.spec.template.containers[0].ports == [ContainerPort(AppPort)]
    ensures d.spec.template.containers[0].env == [EnvVar("CUSTOM_NAME", dl.spec.customName)]
  {
    var labels := PodLabels(dl);
    var selectorLabels := PodLabels(dl);
    Deployment(
      EmptyMeta.(name := dl.spec.customName, namespace := dl.meta.namespace),
      DeploymentSpec(
        Some(dl.spec.replicas),
        Some(LabelSelector(Some(selectorLabels))),
        PodTemplateSpec(
          Some(labels),
          [Container(ContainerName, Image, [EnvVar("CUSTOM_NAME", dl.spec.customName)], [ContainerPort(AppPort)])])))
  }

  function FetchDataLogger(c: Cluster, req: Request): Fetched {
    GetStep(c, req.namespace, req.name, DataLoggerObject(EmptyDataLogger))
  }

  /** The store key of a Deployment. */
  function DeploymentKey(d: Deployment): Key {
    KeyOf(DeploymentObject(d))
  }

  /**
   * CreateOrUpdate as it is evidently meant: the existing Deployment is read
   * into an object of its own, and the desired Deployment is what gets
   * created or updated.
   */
  function Converge(c: Cluster, desired: Deployment): (r: Reply)
    ensures r.after.faults == c.faults
    // one Get, then at most one write, and that write carries the desired Deployment
    ensures || r.after.log == c.log + [GetCall(DeploymentKey(desired))]
            || r.after.log == c.log + [GetCall(DeploymentKey(desired)), CreateCall(DeploymentObject(desired))]
            || r.after.log == c.log + [GetCall(DeploymentKey(desired)), UpdateCall(DeploymentObject(desired))]
    ensures || r.after.table == c.table
            || r.after.table == c.table[DeploymentKey(desired) := DeploymentObject(desired)]
  {
    var current := GetStep(c, desired.meta.namespace, desired.meta.name, DeploymentObject(EmptyDeployment));
    match current.err
    case Some(e) =>
      if e != NotFound then Reply(current.after, Some(e))
      else CreateStep(current.after, DeploymentObject(desired))
    case None => UpdateStep(current.after, DeploymentObject(desired))
  }

  /**
   * CreateOrUpdate as written: Get reads into `obj` itself, so when the
   * Deployment exists, the object passed to Update is the stored one.
   */
  function ConvergeAsWritten(c: Cluster, obj: Deployment): (r: Reply)
    ensures r.after.faults == c.faults
    // an Update only ever sends back what is stored
    ensures || r.after.log == c.log + [GetCall(DeploymentKey(obj))]
            || r.after.log == c.log + [GetCall(DeploymentKey(obj)), CreateCall(DeploymentObject(obj))]
            || (DeploymentKey(obj) in c.table
                && r.after.log == c.log + [GetCall(DeploymentKey(obj)), UpdateCall(c.table[DeploymentKey(obj)])])
    // so a stored Deployment is never changed; only a missing one is filed
    ensures || r.after.table == c.table
            || (DeploymentKey(obj) !in c.table && r.after.table == c.table[DeploymentKey(obj) := DeploymentObject(obj)])
  {
    var fetched := GetStep(c, obj.meta.namespace, obj.meta.name, DeploymentObject(obj));
    var overwritten := DeploymentObject(AsDeployment(fetched.obj));
    match fetched.err
    case Some(e) =>
      if e != NotFound then Reply(fetched.after, Some(e))
      else CreateStep(fetched.after, overwritten)
    case None => UpdateStep(fetched.after, overwritten)
  }

  /** Deployment.Reconcile, with the corrected CreateOrUpdate. */
  function ReconcileSpec(c: Cluster, req: Request, ownerCallback: OwnerCallback): (r: Reply)
    ensures r.after.faults == c.faults
    ensures c.log <= r.after.log && |r.after.log| <= |c.log| + 4
    ensures FetchDataLogger(c, req).err.Some? ==> r.err == FetchDataLogger(c, req).err
    // the pass never deletes, and changes no object but a Deployment
    ensures forall j | |c.log| <= j < |r.after.log| :: !r.after.log[j].DeleteCall?
    ensures forall k | k in c.table && k.kind != DeploymentKind :: k in r.after.table && r.after.table[k] == c.table[k]
  {
    var fetched := FetchDataLogger(c, req);
    if fetched.err.Some? then Reply(fetched.after, fetched.err)
    else
      var dl := AsDataLogger(fetched.obj);
      var desired := CreateDeployment(dl);
      var withScheme := SchemeStep(fetched.after);
      match ownerCallback(dl, desired)
      case Failure(e) => Reply(withScheme, Some(e))
      case Success(owned) => Converge(withScheme, owned)
  }

  /** Deployment.Reconcile as written: the same pass over CreateOrUpdate as written. */
  function ReconcileAsWrittenSpec(c: Cluster, req: Request, ownerCallback: OwnerCallback): (r: Reply)
    ensures r.after.faults == c.faults
    ensures c.log <= r.after.log && |r.after.log| <= |c.log| + 4
    ensures FetchDataLogger(c, req).err.Some? ==> r.err == FetchDataLogger(c, req).err
    ensures forall j | |c.log| <= j < |r.after.log| :: !r.after.log[j].DeleteCall?
    // as written, no object already stored is ever changed
    ensures forall k | k in c.table :: k in r.after.table && r.after.table[k] == c.table[k]
  {
    var fetched := FetchDataLogger(c, req);
    if fetched.err.Some? then Reply(fetched.after, fetched.err)
    else
      var dl := AsDataLogger(fetched.obj);
      var desired := CreateDeployment(dl);
      var withScheme := SchemeStep(fetched.after);
      match ownerCallback(dl, desired)
      case Failure(e) => Reply(withScheme, Some(e))
      case Success(owned) => ConvergeAsWritten(withScheme, owned)
  }

  method CreateOrUpdate(desired: Deployment, client: Client) returns (err: Option<Error>)
    modifies client
    ensures var r := Converge(old(client.State()), desired); client.State() == r.after && err == r.err
  {
    var getErr, current := client.Get(desired.meta.namespace, desired.meta.name, DeploymentObject(EmptyDeployment));
    if getErr.Some? {
      if getErr != Some(NotFound) {
        return getErr;
      }
      err := client.Create(DeploymentObject(desired));
      return;
    }
    err := client.Update(DeploymentObject(desired));
  }

  method CreateOrUpdateAsWritten(obj: Deployment, client: Client) returns (err: Option<Error>)
    modifies client
    ensures var r := ConvergeAsWritten(old(client.State()), obj); client.State() == r.after && err == r.err
  {
    var getErr, fetched := client.Get(obj.meta.namespace, obj.meta.name, DeploymentObject(obj));
    var overwritten := AsDeployment(fetched);
    if getErr.Some? {
      if getErr != Some(NotFound) {
        return getErr;
      }
      err := client.Create(DeploymentObject(overwritten));
      return;
    }
    err := client.Update(DeploymentObject(overwritten));
  }

  method Reconcile(req: Request, client: Client, ownerCallback: OwnerCallback) returns (err: Option<Error>)
    modifies client
    ensures var r := ReconcileSpec(old(client.State()), req, ownerCallback);
            client.State() == r.after && err == r.err
  {
    var getErr, fetched := client.Get(req.namespace, req.name, DataLoggerObject(EmptyDataLogger));
    if getErr.Some? {
      return getErr;
    }
    var dataLogger := AsDataLogger(fetched);
    var deployment := CreateDeployment(dataLogger);
    client.Scheme();
    var owned := ownerCallback(dataLogger, deployment);
    if owned.Failure? {
      return Some(owned.error);
    }
    err := CreateOrUpdate(owned.value, client);
  }

  method ReconcileAsWritten(req: Request, client: Client, ownerCallback: OwnerCallback) returns (err: Option<Error>)
    modifies client
    ensures var r := ReconcileAsWrittenSpec(old(client.State()), req, ownerCallback);
            client.State() == r.after && err == r.err
  {
    var getErr, fetched := client.Get(req.namespace, req.name, DataLoggerObject(EmptyDataLogger));
    if getErr.Some? {
      return getErr;
    }
    var dataLogger := AsDataLogger(fetched);
    var deployment := CreateDeployment(dataLogger);
    client.Scheme();
    var owned := ownerCallback(dataLogger, deployment);
    if owned.Failure? {
      return Some(owned.error);
    }
    err := CreateOrUpdateAsWritten(owned.value, client);
  }

  /** The two versions differ only for a Deployment that is already stored: a missing one is created alike. */
  lemma AsWrittenAgreesWhenAbsent(c: Cluster, obj: Deployment)
    requires DeploymentKey(obj) !in c.table
    ensures ConvergeAsWritten(c, obj) == Converge(c, obj)
  {
  }

  // ---------------------------------------------------------------------
  // Properties

  /** A failed DataLogger fetch (NotFound included) is returned after that one Get: no Scheme, no owner call, no Deployment access. */
  lemma DataLoggerFetchFailure(c: Cluster, req: Request, ownerCallback: OwnerCallback)
    requires FetchDataLogger(c, req).err.Some?
    ensures ReconcileSpec(c, req, ownerCallback)
            == Reply(c.(log := c.log + [GetCall(Key(DataLoggerKind, req.namespace, req.name))]),
                     FetchDataLogger(c, req).err)
  {
  }

  /** An owner-callback error is returned before the Deployment is looked at. */
  lemma OwnerCallbackFailure(c: Cluster, req: Request, ownerCallback: OwnerCallback)
    requires FetchDataLogger(c, req).err.None?
    requires ownerCallback(AsDataLogger(FetchDataLogger(c, req).obj),
                           CreateDeployment(AsDataLogger(FetchDataLogger(c, req).obj))).Failure?
    ensures var r := ReconcileSpec(c, req, ownerCallback);
            && r.err == Some(ownerCallback(AsDataLogger(FetchDataLogger(c, req).obj),
                                           CreateDeployment(AsDataLogger(FetchDataLogger(c, req).obj))).error)
            && r.after.table == c.table
            && r.after.log == c.log + [GetCall(Key(DataLoggerKind, req.namespace, req.name)), SchemeCall]
  {
  }

  /** NotFound: exactly one Create of the desired Deployment and no Update; the Create's error is the result. */
  lemma NotFoundCreates(c: Cluster, desired: Deployment)
    requires GetStep(c, desired.meta.namespace, desired.meta.name, DeploymentObject(EmptyDeployment)).err == Some(NotFound)
    ensures var r := Converge(c, desired);
            && r.after.log == c.log + [GetCall(DeploymentKey(desired)), CreateCall(DeploymentObject(desired))]
            && r.err == CreateStep(c.(log := c.log + [GetCall(DeploymentKey(desired))]), DeploymentObject(desired)).err
  {
  }

  /** Any other Get error is returned with no write. */
  lemma GetErrorReturned(c: Cluster, desired: Deployment)
    requires GetStep(c, desired.meta.namespace, desired.meta.name, DeploymentObject(EmptyDeployment)).err.Some?
    requires GetStep(c, desired.meta.namespace, desired.meta.name, DeploymentObject(EmptyDeployment)).err != Some(NotFound)
    ensures Converge(c, desired)
            == Reply(c.(log := c.log + [GetCall(DeploymentKey(desired))]),
                     GetStep(c, desired.meta.namespace, desired.meta.name, DeploymentObject(EmptyDeployment)).err)
  {
  }

  /**
   * A Deployment that exists is updated, unconditionally, exactly once and
   * never created; on success the store holds the desired Deployment.
   */
  lemma FoundUpdates(c: Cluster, desired: Deployment)
    requires GetStep(c, desired.meta.namespace, desired.meta.name, DeploymentObject(EmptyDeployment)).err.None?
    ensures var r := Converge(c, desired);
            && r.after.log == c.log + [GetCall(DeploymentKey(desired)), UpdateCall(DeploymentObject(desired))]
            && r.err == UpdateStep(c.(log := c.log + [GetCall(DeploymentKey(desired))]), DeploymentObject(desired)).err
            && (r.err.None? ==> r.after.table == c.table[DeploymentKey(desired) := DeploymentObject(desired)])
  {
  }

  /**
   * As written, a Deployment that exists is updated exactly once with the
   * object the Get returned, so whether the Update succeeds or fails the
   * table is unchanged; the Update's error is the result.
   */
  lemma FoundUpdatesAsWritten(c: Cluster, obj: Deployment)
    requires GetStep(c, obj.meta.namespace, obj.meta.name, DeploymentObject(obj)).err.None?
    ensures DeploymentKey(obj) in c.table
    ensures var r := ConvergeAsWritten(c, obj);
            var stored := c.table[DeploymentKey(obj)];
            && r.after.log == c.log + [GetCall(DeploymentKey(obj)), UpdateCall(stored)]
            && r.err == UpdateStep(c.(log := c.log + [GetCall(DeploymentKey(obj))]), stored).err
            && r.after.table == c.table
  {
    var stored := c.table[DeploymentKey(obj)];
    assert KeyOf(stored) == DeploymentKey(obj);
    assert DeploymentObject(AsDeployment(stored)) == stored;
  }

  /** When the Get fails, NotFound included, the object it was given is untouched, so both versions make the same calls. */
  lemma AsWrittenAgreesOnGetFailure(c: Cluster, obj: Deployment)
    requires GetStep(c, obj.meta.namespace, obj.meta.name, DeploymentObject(obj)).err.Some?
    ensures ConvergeAsWritten(c, obj) == Converge(c, obj)
  {
  }

  /** Before CreateOrUpdate is reached, the pass as written and the corrected pass coincide. */
  lemma AsWrittenAgreesBeforeConverge(c: Cluster, req: Request, ownerCallback: OwnerCallback)
    requires || FetchDataLogger(c, req).err.Some?
             || ownerCallback(AsDataLogger(FetchDataLogger(c, req).obj),
                              CreateDeployment(AsDataLogger(FetchDataLogger(c, req).obj))).Failure?
    ensures ReconcileAsWrittenSpec(c, req, ownerCallback) == ReconcileSpec(c, req, ownerCallback)
  {
  }

  /** Whatever path it takes, a successful convergence leaves the desired Deployment in the store. */
  lemma ConvergeStoresDesired(c: Cluster, desired: Deployment)
    ensures var r := Converge(c, desired);
            r.err.None? ==> DeploymentKey(desired) in r.after.table
                            && r.after.table[DeploymentKey(desired)] == DeploymentObject(desired)
  {
  }

  /**
   * No write gating: a second fault-free pass over an unchanged store still
   * issues an Update.
   */
  lemma SecondPassStillUpdates(c: Cluster, desired: Deployment)
    requires c.faults == map[]
    ensures var first := Converge(c, desired);
            var second := Converge(first.after, desired);
            first.err.None? ==> second.err.None? && second.after.log[|second.after.log| - 1] == UpdateCall(DeploymentObject(desired))
  {
  }

  /**
   * As written, a second fault-free pass also ends with an Update, but one
   * that sends back what the first pass left stored, so nothing changes.
   */
  lemma SecondPassStillUpdatesAsWritten(c: Cluster, obj: Deployment)
    requires c.faults == map[]
    ensures var first := ConvergeAsWritten(c, obj);
            var second := ConvergeAsWritten(first.after, obj);
            first.err.None? ==>
              && DeploymentKey(obj) in first.after.table
              && second.err.None?
              && second.after.log[|second.after.log| - 1] == UpdateCall(first.after.table[DeploymentKey(obj)])
              && second.after.table == first.after.table
  {
    var first := ConvergeAsWritten(c, obj);
    if first.err.None? {
      AsWrittenKeepsStoredDeployment(first.after, obj);
    }
  }

  /**
   * As written, a found Deployment is written back as it was stored: the
   * Update succeeds and the desired Deployment never reaches the store.
   */
  lemma AsWrittenKeepsStoredDeployment(c: Cluster, obj: Deployment)
    requires Injected(c).None? && c.faults == map[]
    requires DeploymentKey(obj) in c.table
    ensures var r := ConvergeAsWritten(c, obj);
            && r.err.None?
            && r.after.table == c.table
            && r.after.log == c.log + [GetCall(DeploymentKey(obj)), UpdateCall(c.table[DeploymentKey(obj)])]
  {
    var stored := c.table[DeploymentKey(obj)];
    assert KeyOf(stored) == DeploymentKey(obj);
    assert DeploymentObject(AsDeployment(stored)) == stored;
  }

  /** A concrete case: the stored Deployment runs 1 replica, the DataLogger asks for 2, and 1 stays. */
  lemma AsWrittenReplicasNeverChange()
    ensures var old1 := CreateDeployment(EmptyDataLogger.(spec := EmptySpec.(customName := "logger", replicas := 1)));
            var want2 := CreateDeployment(EmptyDataLogger.(spec := EmptySpec.(customName := "logger", replicas := 2)));
            var c := Cluster(map[DeploymentKey(old1) := DeploymentObject(old1)], [], map[]);
            var r := ConvergeAsWritten(c, want2);
            && r.err.None?
            && r.after.table[DeploymentKey(want2)] == DeploymentObject(old1)
            && old1.spec.replicas == Some(1) && want2.spec.replicas == Some(2)
            && Converge(c, want2).after.table[DeploymentKey(want2)] == DeploymentObject(want2)
  {
    var old1 := CreateDeployment(EmptyDataLogger.(spec := EmptySpec.(customName := "logger", replicas := 1)));
    var want2 := CreateDeployment(EmptyDataLogger.(spec := EmptySpec.(customName := "logger", replicas := 2)));
    var c := Cluster(map[DeploymentKey(old1) := DeploymentObject(old1)], [], map[]);
    assert DeploymentKey(want2) == DeploymentKey(old1);
    AsWrittenKeepsStoredDeployment(c, want2);
  }
}
