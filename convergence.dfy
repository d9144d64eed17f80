/**
 * The Deployment and Service passes together: on a store where nothing
 * fails, a DataLogger with neither child yet ends up with exactly one
 * Deployment and one Service, each created once.
 */
module Convergence {
  import opened Wrappers
  import opened ApiV1
  import opened Resources
  import opened Store
  import Deployments
  import Services

  function DataLoggerKey(req: Request): Key {
    Key(DataLoggerKind, req.namespace, req.name)
  }

  /** Where both children of `dl` live. */
  function ChildKey(kind: Kind, dl: DataLogger): Key {
    Key(kind, dl.meta.namespace, dl.spec.customName)
  }

  lemma FirstPassesProvision(c: Cluster, req: Request, ownerCallback: Deployments.OwnerCallback,
                             controlledBy: Services.ControllerBy)
    requires c.faults == map[]
    requires DataLoggerKey(req) in c.table
    requires var dl := AsDataLogger(c.table[DataLoggerKey(req)]);
             && ChildKey(DeploymentKind, dl) !in c.table
             && ChildKey(ServiceKind, dl) !in c.table
             // the owner callback succeeds and keeps the Deployment's name and namespace
             && ownerCallback(dl, Deployments.CreateDeployment(dl)).Success?
             && Deployments.DeploymentKey(ownerCallback(dl, Deployments.CreateDeployment(dl)).value)
                == ChildKey(DeploymentKind, dl)
    ensures var dl := AsDataLogger(c.table[DataLoggerKey(req)]);
            var owned := ownerCallback(dl, Deployments.CreateDeployment(dl)).value;
            var d := Deployments.ReconcileSpec(c, req, ownerCallback);
            var s := Services.ReconcileSpec(d.after, req, controlledBy);
            && d.err.None? && s.err.None?
            // on this first pass the code as written behaves the same
            && Deployments.ReconcileAsWrittenSpec(c, req, ownerCallback) == d
            && d.after.log == c.log + [GetCall(DataLoggerKey(req)), SchemeCall,
                                       GetCall(ChildKey(DeploymentKind, dl)), CreateCall(DeploymentObject(owned))]
            && s.after.log == d.after.log + [GetCall(DataLoggerKey(req)), GetCall(ChildKey(DeploymentKind, dl)),
                                             GetCall(ChildKey(ServiceKind, dl)),
                                             CreateCall(ServiceObject(Services.NewServiceForDataLogger(dl)))]
            && s.after.table == c.table[ChildKey(DeploymentKind, dl) := DeploymentObject(owned)]
                                       [ChildKey(ServiceKind, dl) := ServiceObject(Services.NewServiceForDataLogger(dl))]
  {
    var dl := AsDataLogger(c.table[DataLoggerKey(req)]);
    var owned := ownerCallback(dl, Deployments.CreateDeployment(dl)).value;
    var d := Deployments.ReconcileSpec(c, req, ownerCallback);
    assert d.after.table == c.table[ChildKey(DeploymentKind, dl) := DeploymentObject(owned)];
    assert Services.FetchDataLogger(d.after, req).obj == c.table[DataLoggerKey(req)];
  }

  /**
   * Once both exist and the Deployment controls the Service, further passes
   * write nothing: the Deployment pass only re-sends what is stored and the
   * Service pass only reads.
   */
  lemma SteadyStateWritesNothingNew(c: Cluster, req: Request, ownerCallback: Deployments.OwnerCallback,
                                    controlledBy: Services.ControllerBy)
    requires c.faults == map[]
    requires DataLoggerKey(req) in c.table
    requires var dl := AsDataLogger(c.table[DataLoggerKey(req)]);
             && ownerCallback(dl, Deployments.CreateDeployment(dl)).Success?
             && var owned := ownerCallback(dl, Deployments.CreateDeployment(dl)).value;
             && Deployments.DeploymentKey(owned) == ChildKey(DeploymentKind, dl)
             && ChildKey(DeploymentKind, dl) in c.table
             && c.table[ChildKey(DeploymentKind, dl)] == DeploymentObject(owned)
             && ChildKey(ServiceKind, dl) in c.table
             && controlledBy(AsService(c.table[ChildKey(ServiceKind, dl)]), owned)
    ensures var d := Deployments.ReconcileSpec(c, req, ownerCallback);
            var s := Services.ReconcileSpec(d.after, req, controlledBy);
            && d.err.None? && s.err.None?
            && s.after.table == c.table
            && |s.after.log| == |c.log| + 7
  {
    var dl := AsDataLogger(c.table[DataLoggerKey(req)]);
    var owned := ownerCallback(dl, Deployments.CreateDeployment(dl)).value;
    var d := Deployments.ReconcileSpec(c, req, ownerCallback);
    assert c.table[ChildKey(DeploymentKind, dl) := DeploymentObject(owned)] == c.table;
    assert d.after.table == c.table;
    assert Services.FetchDataLogger(d.after, req).obj == c.table[DataLoggerKey(req)];
  }
}
