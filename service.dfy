/**
 * Service convergence: the NodePort Service in front of the DataLogger's
 * Deployment. It is created when it cannot be read, and rebuilt and updated
 * when the Deployment does not control it.
 */
module Services {
  import opened Wrappers
  import opened Meta
  import opened ApiV1
  import opened Resources
  import opened Store

  /** IsControlledBy(service, deployment), left abstract. */
  type ControllerBy = (Service, Deployment) -> bool

  const AppLabel: string := "app"
  const NodePort: string := "NodePort"

  /** The owner kind NewServiceForDataLogger stamps: the apps/v1 group version with kind "dataLogger". */
  const DataLoggerOwnerKind := GroupVersionKind("apps", "v1", "dataLogger")

  /** The owner kind UpdateService stamps. */
  const DeploymentOwnerKind := GroupVersionKind("apps", "v1", "Deployment")

  /** NewServiceForDataLogger: the Service the DataLogger asks for. */
  function NewServiceForDataLogger(dl: DataLogger): (s: Service)
    ensures KeyOf(ServiceObject(s)) == Key(ServiceKind, dl.meta.namespace, dl.spec.customName)
    ensures s.meta.labels == Some(map[AppLabel := dl.spec.customName])
    ensures s.spec.selector == s.meta.labels
    ensures s.spec.ports == [ServicePort(dl.spec.port, dl.spec.targetPort, dl.spec.nodePort)]
    ensures s.spec.serviceType == NodePort
    ensures |s.meta.ownerReferences| == 1
    ensures IsControllerRefTo(s.meta.ownerReferences[0], dl.meta, DataLoggerOwnerKind)
    ensures s.meta.ownerReferences[0].apiVersion == "apps/v1"
  {
    var labels := map[AppLabel := dl.spec.customName];
    Service(
      EmptyMeta.(name := dl.spec.customName, namespace := dl.meta.namespace, labels := Some(labels),
                 ownerReferences := [NewControllerRef(dl.meta, DataLoggerOwnerKind)]),
      ServiceSpec(Some(labels), [ServicePort(dl.spec.port, dl.spec.targetPort, dl.spec.nodePort)], NodePort))
  }

  /**
   * UpdateService: the found Service with its labels, owner references and
   * whole spec replaced.
   */
  function UpdateService(svc: Service, dep: Deployment, dl: DataLogger): (r: Service)
    // of the metadata only labels and owner references change: name, namespace, annotations ... are kept
    ensures r.meta.(labels := svc.meta.labels, ownerReferences := svc.meta.ownerReferences) == svc.meta
    ensures KeyOf(ServiceObject(r)) == KeyOf(ServiceObject(svc))
    ensures r.meta.labels == Some(map[AppLabel := dl.spec.customName])
    // exactly one owner reference: the Deployment, as controller
    ensures |r.meta.ownerReferences| == 1
    ensures IsControllerRefTo(r.meta.ownerReferences[0], dep.meta, DeploymentOwnerKind)
    // the spec is the one a new Service for the DataLogger gets
    ensures r.spec == NewServiceForDataLogger(dl).spec
  {
    var labels := map[AppLabel := dl.spec.customName];
    svc.(meta := svc.meta.(labels := Some(labels),
                           ownerReferences := [NewControllerRef(dep.meta, DeploymentOwnerKind)]),
         spec := ServiceSpec(Some(map[AppLabel := dl.spec.customName]),
                             [ServicePort(dl.spec.port, dl.spec.targetPort, dl.spec.nodePort)],
                             NodePort))
  }

  /** Rebuilding an already rebuilt Service changes nothing. */
  lemma UpdateServiceIdempotent(svc: Service, dep: Deployment, dl: DataLogger)
    ensures UpdateService(UpdateService(svc, dep, dl), dep, dl) == UpdateService(svc, dep, dl)
  {
  }

  function FetchDataLogger(c: Cluster, req: Request): Fetched {
    GetStep(c, req.namespace, req.name, DataLoggerObject(EmptyDataLogger))
  }

  /** The Deployment and the Service both live under the custom name in the DataLogger's namespace. */
  function FetchDeployment(c: Cluster, dl: DataLogger): Fetched {
    GetStep(c, dl.meta.namespace, dl.spec.customName, DeploymentObject(EmptyDeployment))
  }

  function FetchService(c: Cluster, dl: DataLogger): Fetched {
    GetStep(c, dl.meta.namespace, dl.spec.customName, ServiceObject(EmptyService))
  }

  /** Service.Reconcile. */
  function ReconcileSpec(c: Cluster, req: Request, controlledBy: ControllerBy): (r: Reply)
    ensures r.after.faults == c.faults && c.log <= r.after.log
    ensures FetchDataLogger(c, req).err == Some(NotFound) ==> r.err.None?
    // the pass only reads, and creates or updates Services
    ensures forall j | |c.log| <= j < |r.after.log| ::
              || r.after.log[j].GetCall?
              || ((r.after.log[j].CreateCall? || r.after.log[j].UpdateCall?) && r.after.log[j].obj.ServiceObject?)
    ensures forall k | k in c.table && k.kind != ServiceKind :: k in r.after.table && r.after.table[k] == c.table[k]
  {
    var fetchedLogger := FetchDataLogger(c, req);
    if fetchedLogger.err == Some(NotFound) then Reply(fetchedLogger.after, None)
    else if fetchedLogger.err.Some? then Reply(fetchedLogger.after, fetchedLogger.err)
    else
      var dl := AsDataLogger(fetchedLogger.obj);
      var fetchedDeployment := FetchDeployment(fetchedLogger.after, dl);
      if fetchedDeployment.err.Some? then Reply(fetchedDeployment.after, fetchedDeployment.err)
      else
        var dep := AsDeployment(fetchedDeployment.obj);
        var fetchedService := FetchService(fetchedDeployment.after, dl);
        if fetchedService.err.Some? then
          CreateStep(fetchedService.after, ServiceObject(NewServiceForDataLogger(dl)))
        else
          var svc := AsService(fetchedService.obj);
          if !controlledBy(svc, dep) then
            UpdateStep(fetchedService.after, ServiceObject(UpdateService(svc, dep, dl)))
          else Reply(fetchedService.after, None)
  }

  method Reconcile(req: Request, client: Client, controlledBy: ControllerBy) returns (err: Option<Error>)
    modifies client
    ensures var r := ReconcileSpec(old(client.State()), req, controlledBy);
            client.State() == r.after && err == r.err
  {
    var getErr, fetched := client.Get(req.namespace, req.name, DataLoggerObject(EmptyDataLogger));
    if getErr == Some(NotFound) {
      return None;
    }
    if getErr.Some? {
      return getErr;
    }
    var dataLogger := AsDataLogger(fetched);

    var depErr, depObject := client.Get(dataLogger.meta.namespace, dataLogger.spec.customName, DeploymentObject(EmptyDeployment));
    if depErr.Some? {
      return depErr;
    }
    var deployment := AsDeployment(depObject);

    var svcErr, svcObject := client.Get(dataLogger.meta.namespace, dataLogger.spec.customName, ServiceObject(EmptyService));
    if svcErr.Some? {
      var service := NewServiceForDataLogger(dataLogger);
      err := client.Create(ServiceObject(service));
      return;
    }
    var service := AsService(svcObject);
    if !controlledBy(service, deployment) {
      service := UpdateService(service, deployment, dataLogger);
      err := client.Update(ServiceObject(service));
      return;
    }
    return None;
  }

  // ---------------------------------------------------------------------
  // Properties

  /** A DataLogger that is NotFound ends the pass without error and without another call. */
  lemma DataLoggerNotFoundIgnored(c: Cluster, req: Request, controlledBy: ControllerBy)
    requires FetchDataLogger(c, req).err == Some(NotFound)
    ensures ReconcileSpec(c, req, controlledBy)
            == Reply(c.(log := c.log + [GetCall(Key(DataLoggerKind, req.namespace, req.name))]), None)
  {
  }

  /** Any other DataLogger fetch error is returned after that one Get. */
  lemma DataLoggerErrorReturned(c: Cluster, req: Request, controlledBy: ControllerBy)
    requires FetchDataLogger(c, req).err.Some? && FetchDataLogger(c, req).err != Some(NotFound)
    ensures ReconcileSpec(c, req, controlledBy)
            == Reply(c.(log := c.log + [GetCall(Key(DataLoggerKind, req.namespace, req.name))]),
                     FetchDataLogger(c, req).err)
  {
  }

  /** A Deployment that cannot be read, for whatever reason, ends the pass before the Service is read or written. */
  lemma DeploymentRequired(c: Cluster, req: Request, controlledBy: ControllerBy)
    requires FetchDataLogger(c, req).err.None?
    requires FetchDeployment(FetchDataLogger(c, req).after, AsDataLogger(FetchDataLogger(c, req).obj)).err.Some?
    ensures var dl := AsDataLogger(FetchDataLogger(c, req).obj);
            var r := ReconcileSpec(c, req, controlledBy);
            && r.err == FetchDeployment(FetchDataLogger(c, req).after, dl).err
            && r.after.table == c.table
            && r.after.log == c.log + [GetCall(Key(DataLoggerKind, req.namespace, req.name)),
                                       GetCall(Key(DeploymentKind, dl.meta.namespace, dl.spec.customName))]
  {
  }

  /** Any Service fetch error, not only NotFound, leads to exactly one Create of NewServiceForDataLogger; its error is the result. */
  lemma ServiceErrorCreates(c: Cluster, req: Request, controlledBy: ControllerBy)
    requires FetchDataLogger(c, req).err.None?
    requires var dl := AsDataLogger(FetchDataLogger(c, req).obj);
             var fd := FetchDeployment(FetchDataLogger(c, req).after, dl);
             fd.err.None? && FetchService(fd.after, dl).err.Some?
    ensures var dl := AsDataLogger(FetchDataLogger(c, req).obj);
            var fd := FetchDeployment(FetchDataLogger(c, req).after, dl);
            var fs := FetchService(fd.after, dl);
            var r := ReconcileSpec(c, req, controlledBy);
            && r.after.log == fs.after.log + [CreateCall(ServiceObject(NewServiceForDataLogger(dl)))]
            && r.err == CreateStep(fs.after, ServiceObject(NewServiceForDataLogger(dl))).err
  {
  }

  /**
   * Ownership gating: a found Service is written iff the Deployment does not
   * control it, and then with exactly one Update of the rebuilt Service whose
   * error is the result.
   */
  lemma OwnershipGatesUpdate(c: Cluster, req: Request, controlledBy: ControllerBy)
    requires FetchDataLogger(c, req).err.None?
    requires var dl := AsDataLogger(FetchDataLogger(c, req).obj);
             var fd := FetchDeployment(FetchDataLogger(c, req).after, dl);
             fd.err.None? && FetchService(fd.after, dl).err.None?
    ensures var dl := AsDataLogger(FetchDataLogger(c, req).obj);
            var fd := FetchDeployment(FetchDataLogger(c, req).after, dl);
            var fs := FetchService(fd.after, dl);
            var svc := AsService(fs.obj);
            var dep := AsDeployment(fd.obj);
            var r := ReconcileSpec(c, req, controlledBy);
            && r.after.log == fs.after.log + (if controlledBy(svc, dep) then [] else [UpdateCall(ServiceObject(UpdateService(svc, dep, dl)))])
            && (controlledBy(svc, dep) ==> r == Reply(fs.after, None))
            && (!controlledBy(svc, dep) ==> r.err == UpdateStep(fs.after, ServiceObject(UpdateService(svc, dep, dl))).err)
  {
  }

  /** The Service pass never deletes, and writes at most once. */
  lemma AtMostOneWrite(c: Cluster, req: Request, controlledBy: ControllerBy)
    ensures var r := ReconcileSpec(c, req, controlledBy);
            && c.log <= r.after.log
            && |r.after.log| <= |c.log| + 4
            && (forall j | |c.log| <= j < |r.after.log| - 1 :: r.after.log[j].GetCall?)
            && (forall j | |c.log| <= j < |r.after.log| :: !r.after.log[j].DeleteCall?)
  {
  }
}
