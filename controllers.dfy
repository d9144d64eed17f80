/**
 * The two controllers the manager drives: the DataLogger controller, which
 * fetches the DataLogger and hands it to the top-level reconciler, and the
 * Namespace controller, which delegates to the namespace operator. Both map
 * an error to "requeue after RequeueTime seconds" and hide NotFound from the
 * manager.
 */
module Controllers {
  import opened Wrappers
  import opened ApiV1
  import opened Resources
  import opened Store
  import DataLoggers
  import Namespaces

  /** The requeue delay, in seconds. */
  const RequeueTime: nat := 30

  /** ctrl.Result: whether to requeue and after how many seconds. */
  datatype ReconcileResult = ReconcileResult(requeue: bool, requeueAfter: nat)

  /** What a controller returns to the manager. */
  datatype Outcome = Outcome(result: ReconcileResult, err: Option<Error>)

  /** client.IgnoreNotFound. */
  function IgnoreNotFound(e: Error): (r: Option<Error>)
    ensures r.None? <==> e == NotFound
    ensures r.Some? ==> r.value == e
  {
    if e == NotFound then None else Some(e)
  }

  /** The errors a controller writes to its log: all but NotFound. */
  function Logged(e: Option<Error>): (l: seq<Error>)
    ensures |l| <= 1
    ensures l != [] <==> e.Some? && e != Some(NotFound)
    ensures l != [] ==> l[0] == e.value
  {
    if e.Some? && e != Some(NotFound) then [e.value] else []
  }

  /**
   * The DataLogger controller's answer, given the error of its Get and the
   * error of the top-level reconciler (consulted only after a successful Get).
   */
  function DataLoggerOutcome(getErr: Option<Error>, innerErr: Option<Error>): (o: Outcome)
    // any failure requeues after RequeueTime; success finishes with an empty result
    ensures o.result.requeue <==> getErr.Some? || innerErr.Some?
    ensures o.result.requeue ==> o.result.requeueAfter == RequeueTime
    ensures !o.result.requeue ==> o == Outcome(ReconcileResult(false, 0), None)
    // only a NotFound Get is hidden: it requeues with no error
    ensures o.err.None? <==> getErr == Some(NotFound) || (getErr.None? && innerErr.None?)
    ensures o.err.Some? ==> o.err == if getErr.Some? then getErr else innerErr
  {
    match getErr
    case Some(e) => Outcome(ReconcileResult(true, RequeueTime), IgnoreNotFound(e))
    case None =>
      if innerErr.Some? then Outcome(ReconcileResult(true, RequeueTime), innerErr)
      else Outcome(ReconcileResult(false, 0), None)
  }

  /** The Namespace controller's answer, given the namespace operator's error. */
  function NamespaceOutcome(opErr: Option<Error>): (o: Outcome)
    ensures o.result.requeue <==> opErr.Some?
    ensures o.result.requeue ==> o.result.requeueAfter == RequeueTime
    ensures !o.result.requeue ==> o == Outcome(ReconcileResult(false, 0), None)
    ensures o.err.None? <==> opErr.None? || opErr == Some(NotFound)
    ensures o.err.Some? ==> o.err == opErr
  {
    match opErr
    case Some(e) => Outcome(ReconcileResult(true, RequeueTime), IgnoreNotFound(e))
    case None => Outcome(ReconcileResult(false, 0), None)
  }

  function FetchDataLogger(c: Cluster, req: Request): Fetched {
    GetStep(c, req.namespace, req.name, DataLoggerObject(EmptyDataLogger))
  }

  /** The top-level reconciler a successful fetch hands the DataLogger to. */
  function InnerPass(f: Fetched): DataLoggers.Pass {
    DataLoggers.Reconcile(DataLoggers.Reconciler(f.after, AsDataLogger(f.obj)))
  }

  /**
   * DataLoggerReconciler.Reconcile: one Get, then the top-level reconciler on
   * the fetched DataLogger. `logger` is the log sink of the request context.
   */
  method DataLoggerReconcile(logger: Namespaces.Logger, req: Request, client: Client)
    returns (result: ReconcileResult, err: Option<Error>)
    modifies logger, client
    ensures var f := FetchDataLogger(old(client.State()), req);
            && client.State() == f.after
            && Outcome(result, err) == DataLoggerOutcome(f.err, if f.err.None? then InnerPass(f).err else None)
            && logger.errors == old(logger.errors) + Logged(f.err)
                                + (if f.err.None? then Logged(InnerPass(f).err) else [])
  {
    var getErr, fetched := client.Get(req.namespace, req.name, DataLoggerObject(EmptyDataLogger));
    if getErr.Some? {
      if getErr != Some(NotFound) {
        logger.Error(getErr.value);
      }
      return ReconcileResult(true, RequeueTime), IgnoreNotFound(getErr.value);
    }
    var pass := DataLoggers.Reconcile(DataLoggers.Reconciler(client.State(), AsDataLogger(fetched)));
    if pass.err.Some? {
      // the top-level reconciler as it stands never fails; DataLoggerOutcome
      // states the answer it would get (requeue, error returned and logged)
      assert false;
    }
    return ReconcileResult(false, 0), None;
  }

  /**
   * NamespaceReconciler.Reconcile: the namespace operator's pass, then its
   * error mapped. The operator and the controller write to the same sink.
   */
  method NamespaceReconcile(logger: Namespaces.Logger, req: Request, client: Client)
    returns (result: ReconcileResult, err: Option<Error>, ghost order: seq<(string, string)>)
    modifies logger, client
    ensures var f := Namespaces.FetchTrigger(old(client.State()), req);
            f.err.None? ==> Namespaces.EnumerationOf(order, Namespaces.TriggerLabels(f))
    ensures var p := Namespaces.ReconcileSpec(old(client.State()), req, order);
            && client.State() == p.after
            && Outcome(result, err) == NamespaceOutcome(p.err)
            && logger.errors == old(logger.errors) + p.logged + Logged(p.err)
  {
    var opErr;
    opErr, order := Namespaces.Reconcile(logger, req, client);
    if opErr.Some? {
      if opErr != Some(NotFound) {
        logger.Error(opErr.value);
      }
      return ReconcileResult(true, RequeueTime), IgnoreNotFound(opErr.value), order;
    }
    return ReconcileResult(false, 0), None, order;
  }

  // ---------------------------------------------------------------------
  // Properties

  /** With the top-level reconciler as it stands, a DataLogger that can be read is done, with nothing requeued or logged. */
  lemma FetchedDataLoggerIsDone(c: Cluster, req: Request)
    requires FetchDataLogger(c, req).err.None?
    ensures var f := FetchDataLogger(c, req);
            && DataLoggerOutcome(f.err, InnerPass(f).err) == Outcome(ReconcileResult(false, 0), None)
            && Logged(InnerPass(f).err) == []
  {
  }

  /** A DataLogger that cannot be read is retried after RequeueTime whatever the reason; only NotFound reaches the manager as success. */
  lemma FetchFailureRequeues(getErr: Error, innerErr: Option<Error>)
    ensures DataLoggerOutcome(Some(getErr), innerErr).result == ReconcileResult(true, RequeueTime)
    ensures DataLoggerOutcome(Some(getErr), innerErr).err == IgnoreNotFound(getErr)
  {
  }

  /**
   * A failed fetch of the trigger namespace is logged twice, once by the
   * operator and once by the controller; a NotFound is logged by neither.
   */
  lemma NamespaceFetchFailureLoggedTwice(c: Cluster, req: Request, items: seq<(string, string)>)
    requires Namespaces.FetchTrigger(c, req).err.Some?
    ensures var e := Namespaces.FetchTrigger(c, req).err.value;
            var p := Namespaces.ReconcileSpec(c, req, items);
            p.logged + Logged(p.err) == (if e == NotFound then [] else [e, e])
  {
  }

  /**
   * A namespace pass that fails while provisioning reaches the operator's
   * injected logger not at all; the controller logs it unless it is NotFound.
   */
  lemma ProvisioningFailureLoggedByController(c: Cluster, req: Request, items: seq<(string, string)>)
    requires Namespaces.FetchTrigger(c, req).err.None?
    ensures var p := Namespaces.ReconcileSpec(c, req, items);
            && p.logged == []
            && (p.err.Some? && p.err != Some(NotFound) ==> p.logged + Logged(p.err) == [p.err.value])
  {
  }
}
