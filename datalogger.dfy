/**
 * The top-level DataLogger reconciler. The finalizer step and all three child
 * reconciliations are not implemented yet, so a pass issues no call on its
 * client, leaves the DataLogger as it is and reports success.
 */
module DataLoggers {
  import opened Wrappers
  import opened Meta
  import opened ApiV1
  import opened Store

  /** The finalizer name reserved for cleaning up the provisioned resources. */
  const ClusterFinalizer: string := "finalizer.stackit.cloud/datalogger"

  /** The reconciler value: the client it was given and the DataLogger it works on. */
  datatype Reconciler = Reconciler(client: Cluster, dataLogger: DataLogger)

  /**
   * The value of a pass: the error returned, the reconciler afterwards and
   * whether control reached the place where the child resources would be
   * reconciled (it returns early for a DataLogger that is being deleted).
   */
  datatype Pass = Pass(err: Option<Error>, reconciler: Reconciler, reachedChildren: bool)

  /** The finalizer step, a stub: no error, nothing changed. */
  function HandleFinalizer(r: Reconciler): (out: (Option<Error>, Reconciler))
    ensures out.0.None?
    ensures out.1 == r
  {
    (None, r)
  }

  /** Reconciler.Reconcile. */
  function Reconcile(r: Reconciler): (p: Pass)
    ensures p.err.None?
    // no call on the client, the DataLogger (finalizers included) untouched
    ensures p.reconciler == r
    // a DataLogger with a deletion timestamp stops before the child section
    ensures p.reachedChildren <==> IsZero(r.dataLogger.meta.deletionTimestamp)
  {
    var (err, after) := HandleFinalizer(r);
    if err.Some? then Pass(err, after, false)
    else if !IsZero(after.dataLogger.meta.deletionTimestamp) then Pass(None, after, false)
    else Pass(None, after, true)
  }
}
