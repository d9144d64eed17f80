/**
 * Namespace fan-out: the labels of the namespace that changed name further
 * namespaces to provision. Every label whose key starts with "namespaces"
 * (and is not "name") makes sure a namespace named by the label's value
 * exists; the first error ends the pass.
 */
module Namespaces {
  import opened Wrappers
  import opened Meta
  import opened Resources
  import opened Store

  /** The logger injected into the namespace operator; it keeps the errors it was given. */
  class Logger {
    var errors: seq<Error>

    constructor ()
      ensures errors == []
    {
      errors := [];
    }

    method Error(err: Error)
      modifies this
      ensures errors == old(errors) + [err]
    {
      errors := errors + [err];
    }
  }

  /** A label key that names a namespace to provision. */
  predicate IsCandidate(key: string)
    // a candidate is exactly a key starting with "namespaces"; "name" never is one
    ensures IsCandidate(key) <==> |key| >= 10 && key[..10] == "namespaces"
    ensures key == "name" ==> !IsCandidate(key)
  {
    key != "name" && "namespaces" <= key
  }

  /** Namespaces are cluster-scoped: their key has an empty namespace. */
  function NamespaceKey(name: string): Key {
    Key(NamespaceKind, "", name)
  }

  /** The namespace the fan-out creates: only its name is set. */
  function NewNamespace(name: string): (n: Namespace)
    ensures KeyOf(NamespaceObject(n)) == NamespaceKey(name)
    ensures n.meta == EmptyMeta.(name := name)
  {
    Namespace(EmptyMeta.(name := name))
  }

  /** `items` visits every label of `labels` exactly once. */
  ghost predicate EnumerationOf(items: seq<(string, string)>, labels: map<string, string>) {
    && (forall i | 0 <= i < |items| :: items[i].0 in labels && labels[items[i].0] == items[i].1)
    && (forall i, j | 0 <= i < j < |items| :: items[i].0 != items[j].0)
    && (forall k | k in labels :: exists i | 0 <= i < |items| :: items[i].0 == k)
  }

  /** `range labels`: the pairs of the map in an order the runtime picks. */
  method Enumerate(labels: map<string, string>) returns (items: seq<(string, string)>)
    ensures EnumerationOf(items, labels)
  {
    items := [];
    var rest := labels.Keys;
    while rest != {}
      invariant rest <= labels.Keys
      invariant forall i | 0 <= i < |items| :: items[i].0 in labels && labels[items[i].0] == items[i].1
      invariant forall i | 0 <= i < |items| :: items[i].0 !in rest
      invariant forall i, j | 0 <= i < j < |items| :: items[i].0 != items[j].0
      invariant forall k | k in labels && k !in rest :: exists i | 0 <= i < |items| :: items[i].0 == k
      decreases |rest|
    {
      var key :| key in rest;
      ghost var before := items;
      items := items + [(key, labels[key])];
      forall k | k in labels && k !in rest - {key}
        ensures exists i | 0 <= i < |items| :: items[i].0 == k
      {
        if k == key {
          assert items[|before|].0 == k;
        } else {
          var i :| 0 <= i < |before| && before[i].0 == k;
          assert items[i].0 == k;
        }
      }
      rest := rest - {key};
    }
  }

  /** One candidate: look the namespace up and create it on NotFound. */
  function EnsureNamespace(c: Cluster, name: string): (r: Reply)
    ensures r.after.faults == c.faults
    // one Get, then at most one Create, of the namespace the value names
    ensures || r.after.log == c.log + [GetCall(NamespaceKey(name))]
            || r.after.log == c.log + [GetCall(NamespaceKey(name)), CreateCall(NamespaceObject(NewNamespace(name)))]
    ensures r.err.None? ==> NamespaceKey(name) in r.after.table
    ensures || r.after.table == c.table
            || (NamespaceKey(name) !in c.table
                && r.after.table == c.table[NamespaceKey(name) := NamespaceObject(NewNamespace(name))])
  {
    var existing := GetStep(c, "", name, NamespaceObject(EmptyNamespace));
    if existing.err == Some(NotFound) then CreateStep(existing.after, NamespaceObject(NewNamespace(name)))
    else Reply(existing.after, existing.err)
  }

  /** createNamespaces over the labels in the order `items` visits them. */
  function FanOut(c: Cluster, items: seq<(string, string)>): (r: Reply)
    ensures r.after.faults == c.faults
    // the calls of the pass are appended to the log, at most a Get and a Create per label
    ensures c.log <= r.after.log && |r.after.log| <= |c.log| + 2 * |items|
    decreases |items|
  {
    if items == [] then Reply(c, None)
    else if !IsCandidate(items[0].0) then FanOut(c, items[1..])
    else
      var r := EnsureNamespace(c, items[0].1);
      if r.err.Some? then r else FanOut(r.after, items[1..])
  }

  /** The value of a Reconcile pass: the store, the error returned and what went to the logger. */
  datatype Pass = Pass(after: Cluster, err: Option<Error>, logged: seq<Error>)

  function FetchTrigger(c: Cluster, req: Request): Fetched {
    GetStep(c, req.namespace, req.name, NamespaceObject(EmptyNamespace))
  }

  /** The labels of the namespace a successful fetch returned. */
  function TriggerLabels(f: Fetched): map<string, string> {
    OrEmpty(AsNamespace(f.obj).meta.labels)
  }

  /** Namespace.Reconcile, with the fetched labels visited in the order `items`. */
  function ReconcileSpec(c: Cluster, req: Request, items: seq<(string, string)>): (p: Pass)
    ensures p.after.faults == c.faults
    // the first call fetches the trigger namespace; at most a Get and a Create per label follow
    ensures c.log + [GetCall(Key(NamespaceKind, req.namespace, req.name))] <= p.after.log
    ensures |p.after.log| <= |c.log| + 1 + 2 * |items|
    // the injected logger receives at most the returned error, and never NotFound
    ensures |p.logged| <= 1
    ensures p.logged != [] ==> p.err == Some(p.logged[0]) && p.logged[0] != NotFound
  {
    var fetched := FetchTrigger(c, req);
    match fetched.err
    case Some(e) => Pass(fetched.after, Some(e), if e != NotFound then [e] else [])
    case None =>
      var r := FanOut(fetched.after, items);
      Pass(r.after, r.err, [])
  }

  method CreateNamespaces(labels: map<string, string>, client: Client)
    returns (err: Option<Error>, ghost order: seq<(string, string)>)
    modifies client
    ensures EnumerationOf(order, labels)
    ensures var r := FanOut(old(client.State()), order); client.State() == r.after && err == r.err
  {
    var items := Enumerate(labels);
    order := items;
    ghost var start := client.State();
    var i := 0;
    while i < |items|
      invariant 0 <= i <= |items|
      invariant FanOut(start, items) == FanOut(client.State(), items[i..])
    {
      assert items[i..][1..] == items[i + 1..];
      var (key, value) := items[i];
      if key != "name" && "namespaces" <= key {
        var getErr, existing := client.Get("", value, NamespaceObject(EmptyNamespace));
        if getErr == Some(NotFound) {
          var createErr := client.Create(NamespaceObject(NewNamespace(value)));
          if createErr.Some? {
            return createErr, order;
          }
        } else if getErr.Some? {
          return getErr, order;
        }
      }
      i := i + 1;
    }
    return None, order;
  }

  method Reconcile(logger: Logger, req: Request, client: Client)
    returns (err: Option<Error>, ghost order: seq<(string, string)>)
    modifies logger, client
    ensures var f := FetchTrigger(old(client.State()), req);
            f.err.None? ==> EnumerationOf(order, TriggerLabels(f))
    ensures var p := ReconcileSpec(old(client.State()), req, order);
            client.State() == p.after && err == p.err && logger.errors == old(logger.errors) + p.logged
  {
    var getErr, namespace := client.Get(req.namespace, req.name, NamespaceObject(EmptyNamespace));
    if getErr.Some? {
      if getErr != Some(NotFound) {
        logger.Error(getErr.value);
      }
      return getErr, [];
    }
    var labels := OrEmpty(AsNamespace(namespace).meta.labels);
    err, order := CreateNamespaces(labels, client);
  }

  // ---------------------------------------------------------------------
  // Properties of the fan-out

  /** The namespace names the labels in `items` ask for. */
  ghost function CandidateValues(items: seq<(string, string)>): set<string> {
    set i | 0 <= i < |items| && IsCandidate(items[i].0) :: items[i].1
  }

  /** A Get or a Create of the cluster-scoped namespace named by one of `values`. */
  predicate IsProvisioningCall(call: Call, values: set<string>) {
    match call
    case GetCall(key) => key.kind == NamespaceKind && key.namespace == "" && key.name in values
    case CreateCall(obj) =>
      && obj.NamespaceObject?
      && obj == NamespaceObject(NewNamespace(obj.namespace.meta.name))
      && obj.namespace.meta.name in values
    case _ => false
  }

  /** A table with every namespace of `values` that was missing added, as NewNamespace makes it. */
  ghost function Provisioned(t: Table, values: set<string>): map<Key, Object> {
    map k | k in t.Keys + (set v | v in values :: NamespaceKey(v)) ::
      if k in t then t[k] else NamespaceObject(NewNamespace(k.name))
  }

  lemma CandidateValuesCons(items: seq<(string, string)>)
    requires items != []
    ensures CandidateValues(items)
            == (if IsCandidate(items[0].0) then {items[0].1} else {}) + CandidateValues(items[1..])
  {
    var rest := items[1..];
    forall v | v in CandidateValues(items)
      ensures v in (if IsCandidate(items[0].0) then {items[0].1} else {}) + CandidateValues(rest)
    {
      var i :| 0 <= i < |items| && IsCandidate(items[i].0) && items[i].1 == v;
      if i > 0 {
        assert rest[i - 1] == items[i];
      }
    }
    forall v | v in CandidateValues(rest) ensures v in CandidateValues(items) {
      var i :| 0 <= i < |rest| && IsCandidate(rest[i].0) && rest[i].1 == v;
      assert items[i + 1] == rest[i];
    }
  }

  /** A failed fetch of the triggering namespace is returned as it is, after that one Get; only a non-NotFound error is logged. */
  lemma FetchFailureReturned(c: Cluster, req: Request, items: seq<(string, string)>)
    requires FetchTrigger(c, req).err.Some?
    ensures var p := ReconcileSpec(c, req, items);
            && p.err == FetchTrigger(c, req).err
            && p.after == c.(log := c.log + [GetCall(Key(NamespaceKind, req.namespace, req.name))])
            && (p.logged == [] <==> p.err == Some(NotFound))
            && (p.logged != [] ==> p.logged == [p.err.value])
  {
  }

  /** One label issues store calls iff its key is a candidate; other labels are skipped without a call. */
  lemma LabelTriggersCallsIff(c: Cluster, key: string, value: string, rest: seq<(string, string)>)
    ensures FanOut(c, [(key, value)]).after.log != c.log <==> IsCandidate(key)
    ensures !IsCandidate(key) ==> FanOut(c, [(key, value)] + rest) == FanOut(c, rest)
  {
    assert ([(key, value)] + rest)[1..] == rest;
  }

  /** A candidate whose namespace is NotFound gets exactly one Create of a namespace named by the label value; a Create error ends the pass. */
  lemma NotFoundCreatesOnce(c: Cluster, key: string, value: string, rest: seq<(string, string)>)
    requires IsCandidate(key)
    requires GetStep(c, "", value, NamespaceObject(EmptyNamespace)).err == Some(NotFound)
    ensures var r := EnsureNamespace(c, value);
            && r.after.log == c.log + [GetCall(NamespaceKey(value)), CreateCall(NamespaceObject(NewNamespace(value)))]
            && NewNamespace(value).meta.name == value
            && (r.err.Some? ==> FanOut(c, [(key, value)] + rest) == r)
  {
    assert ([(key, value)] + rest)[1..] == rest;
  }

  /** An existence check failing with anything but NotFound ends the pass with that error and no write. */
  lemma CheckErrorAborts(c: Cluster, key: string, value: string, rest: seq<(string, string)>)
    requires IsCandidate(key)
    requires GetStep(c, "", value, NamespaceObject(EmptyNamespace)).err.Some?
    requires GetStep(c, "", value, NamespaceObject(EmptyNamespace)).err != Some(NotFound)
    ensures FanOut(c, [(key, value)] + rest)
            == Reply(c.(log := c.log + [GetCall(NamespaceKey(value))]),
                     GetStep(c, "", value, NamespaceObject(EmptyNamespace)).err)
  {
    assert ([(key, value)] + rest)[1..] == rest;
  }

  /** A target namespace that already exists costs one Get and no write. */
  lemma ExistingNamespaceNoWrite(c: Cluster, value: string)
    requires Injected(c).None?
    requires NamespaceKey(value) in c.table
    ensures EnsureNamespace(c, value) == Reply(c.(log := c.log + [GetCall(NamespaceKey(value))]), None)
  {
  }

  /** A key the table gained is a namespace named by one of `values`, stored as NewNamespace makes it. */
  predicate ProvisionedOnly(before: Table, after: Table, values: set<string>) {
    forall k | k in after && k !in before ::
      && k == NamespaceKey(k.name)
      && k.name in values
      && after[k] == NamespaceObject(NewNamespace(k.name))
  }

  /**
   * The fan-out only Gets and Creates namespaces named by candidate labels:
   * nothing is updated or deleted, nothing stored before is changed, and
   * the table gains nothing but such namespaces, whatever faults occur.
   */
  lemma {:induction false} FanOutOnlyProvisions(c: Cluster, items: seq<(string, string)>)
    ensures var r := FanOut(c, items);
            && r.after.faults == c.faults
            && c.log <= r.after.log
            && (forall j | |c.log| <= j < |r.after.log| :: IsProvisioningCall(r.after.log[j], CandidateValues(items)))
            && (forall k | k in c.table :: k in r.after.table && r.after.table[k] == c.table[k])
            && ProvisionedOnly(c.table, r.after.table, CandidateValues(items))
    decreases |items|
  {
    if items != [] {
      var rest := items[1..];
      CandidateValuesCons(items);
      if !IsCandidate(items[0].0) {
        FanOutOnlyProvisions(c, rest);
      } else {
        var e := EnsureNamespace(c, items[0].1);
        assert c.log <= e.after.log;
        assert forall j | |c.log| <= j < |e.after.log| :: IsProvisioningCall(e.after.log[j], CandidateValues(items));
        assert ProvisionedOnly(c.table, e.after.table, CandidateValues(items));
        if e.err.None? {
          FanOutOnlyProvisions(e.after, rest);
          var r := FanOut(e.after, rest);
          forall k | k in r.after.table && k !in c.table
            ensures && k == NamespaceKey(k.name)
                    && k.name in CandidateValues(items)
                    && r.after.table[k] == NamespaceObject(NewNamespace(k.name))
          {
            if k in e.after.table {
              assert e.after.table[k] == r.after.table[k];
            }
          }
        }
      }
    }
  }

  /** A pass that ends without error has a namespace for every candidate label, and looked each one up. */
  lemma FanOutSuccessProvisions(c: Cluster, items: seq<(string, string)>)
    ensures var r := FanOut(c, items);
            r.err.None? ==>
              && |c.log| <= |r.after.log|
              && (forall v | v in CandidateValues(items) :: NamespaceKey(v) in r.after.table)
              && (forall v | v in CandidateValues(items) :: GetCall(NamespaceKey(v)) in r.after.log[|c.log|..])
  {
    FanOutSuccessStores(c, items);
    FanOutSuccessLooksUp(c, items);
  }

  lemma {:induction false} FanOutSuccessStores(c: Cluster, items: seq<(string, string)>)
    ensures var r := FanOut(c, items);
            r.err.None? ==> forall v | v in CandidateValues(items) :: NamespaceKey(v) in r.after.table
    decreases |items|
  {
    if items != [] {
      var rest := items[1..];
      CandidateValuesCons(items);
      if !IsCandidate(items[0].0) {
        FanOutSuccessStores(c, rest);
      } else {
        var e := EnsureNamespace(c, items[0].1);
        if e.err.None? {
          FanOutSuccessStores(e.after, rest);
          FanOutOnlyProvisions(e.after, rest);
        }
      }
    }
  }

  lemma {:induction false} FanOutSuccessLooksUp(c: Cluster, items: seq<(string, string)>)
    ensures var r := FanOut(c, items);
            r.err.None? ==> forall v | v in CandidateValues(items) :: GetCall(NamespaceKey(v)) in r.after.log[|c.log|..]
    decreases |items|
  {
    if items != [] {
      var rest := items[1..];
      CandidateValuesCons(items);
      if !IsCandidate(items[0].0) {
        FanOutSuccessLooksUp(c, rest);
      } else {
        var e := EnsureNamespace(c, items[0].1);
        if e.err.None? {
          var r := FanOut(e.after, rest);
          FanOutSuccessLooksUp(e.after, rest);
          var tail := r.after.log[|c.log|..];
          var later := r.after.log[|e.after.log|..];
          assert tail[0] == e.after.log[|c.log|] == GetCall(NamespaceKey(items[0].1));
          forall v | v in CandidateValues(items) && r.err.None? ensures GetCall(NamespaceKey(v)) in tail {
            if v != items[0].1 {
              assert v in CandidateValues(rest);
              assert GetCall(NamespaceKey(v)) in later;
              var i :| 0 <= i < |later| && later[i] == GetCall(NamespaceKey(v));
              assert tail[|e.after.log| - |c.log| + i] == later[i];
            }
          }
        }
      }
    }
  }

  lemma ProvisionedOne(t: Table, v: string, rest: set<string>)
    requires NamespaceKey(v) !in t
    ensures Provisioned(t[NamespaceKey(v) := NamespaceObject(NewNamespace(v))], rest) == Provisioned(t, {v} + rest)
  {
  }

  lemma ProvisionedPresent(t: Table, v: string, rest: set<string>)
    requires NamespaceKey(v) in t
    ensures Provisioned(t, rest) == Provisioned(t, {v} + rest)
  {
  }

  /** Without injected faults the fan-out succeeds and adds exactly the missing candidate namespaces. */
  lemma {:induction false} FanOutWithoutFaults(c: Cluster, items: seq<(string, string)>)
    requires c.faults == map[]
    ensures var r := FanOut(c, items);
            r.err.None? && r.after.table == Provisioned(c.table, CandidateValues(items))
    decreases |items|
  {
    if items == [] {
      assert Provisioned(c.table, {}) == c.table;
    } else {
      var rest := items[1..];
      CandidateValuesCons(items);
      if !IsCandidate(items[0].0) {
        FanOutWithoutFaults(c, rest);
      } else {
        var v := items[0].1;
        var e := EnsureNamespace(c, v);
        FanOutWithoutFaults(e.after, rest);
        if NamespaceKey(v) in c.table {
          ProvisionedPresent(c.table, v, CandidateValues(rest));
        } else {
          ProvisionedOne(c.table, v, CandidateValues(rest));
        }
      }
    }
  }

  /** When every candidate namespace exists and nothing fails, the pass only reads. */
  lemma {:induction false} FanOutWhenProvisioned(c: Cluster, items: seq<(string, string)>)
    requires c.faults == map[]
    requires forall v | v in CandidateValues(items) :: NamespaceKey(v) in c.table
    ensures var r := FanOut(c, items);
            && r.err.None? && r.after.table == c.table && c.log <= r.after.log
            && (forall j | |c.log| <= j < |r.after.log| :: r.after.log[j].GetCall?)
    decreases |items|
  {
    if items != [] {
      var rest := items[1..];
      CandidateValuesCons(items);
      if !IsCandidate(items[0].0) {
        FanOutWhenProvisioned(c, rest);
      } else {
        var e := EnsureNamespace(c, items[0].1);
        FanOutWhenProvisioned(e.after, rest);
      }
    }
  }

  /** Idempotence: a second fault-free pass over the same labels issues no write and changes nothing. */
  lemma FanOutIdempotent(c: Cluster, items: seq<(string, string)>)
    requires c.faults == map[]
    ensures var first := FanOut(c, items);
            var second := FanOut(first.after, items);
            && second.err.None?
            && second.after.table == first.after.table
            && (forall j | |first.after.log| <= j < |second.after.log| :: !IsWrite(second.after.log[j]))
  {
    var first := FanOut(c, items);
    FanOutOnlyProvisions(c, items);
    FanOutWithoutFaults(c, items);
    FanOutSuccessProvisions(c, items);
    FanOutWhenProvisioned(first.after, items);
  }

  /** The namespace names the candidate labels of a label map ask for. */
  ghost function LabelCandidates(labels: map<string, string>): set<string> {
    set key | key in labels && IsCandidate(key) :: labels[key]
  }

  /** An enumeration of a label map asks for exactly the map's candidate values. */
  lemma EnumeratedCandidates(items: seq<(string, string)>, labels: map<string, string>)
    requires EnumerationOf(items, labels)
    ensures CandidateValues(items) == LabelCandidates(labels)
  {
    forall v | v in LabelCandidates(labels) ensures v in CandidateValues(items) {
      var key :| key in labels && IsCandidate(key) && labels[key] == v;
      var i :| 0 <= i < |items| && items[i].0 == key;
    }
  }

  /**
   * Reconcile never updates or deletes and never touches what was already stored:
   * after the trigger fetch it only Gets and Creates namespaces named by the
   * fetched candidate labels, and those are all the table can gain.
   */
  lemma ReconcileOnlyProvisions(c: Cluster, req: Request, items: seq<(string, string)>)
    ensures var p := ReconcileSpec(c, req, items);
            && c.log <= p.after.log
            && (forall j | |c.log| < j < |p.after.log| :: IsProvisioningCall(p.after.log[j], CandidateValues(items)))
            && (forall k | k in c.table :: k in p.after.table && p.after.table[k] == c.table[k])
            && ProvisionedOnly(c.table, p.after.table, CandidateValues(items))
    ensures var f := FetchTrigger(c, req);
            f.err.None? && EnumerationOf(items, TriggerLabels(f)) ==>
              ProvisionedOnly(c.table, ReconcileSpec(c, req, items).after.table, LabelCandidates(TriggerLabels(f)))
  {
    var fetched := FetchTrigger(c, req);
    if fetched.err.None? {
      FanOutOnlyProvisions(fetched.after, items);
      if EnumerationOf(items, TriggerLabels(fetched)) {
        EnumeratedCandidates(items, TriggerLabels(fetched));
      }
    }
  }

  /** Two candidate labels and the excluded key "name". */
  function ExampleLabels(): map<string, string> {
    map["namespaces/a" := "ns-a", "namespaces/b" := "ns-b", "name" := "ignored"]
  }

  lemma ExampleCandidates(items: seq<(string, string)>)
    requires EnumerationOf(items, ExampleLabels())
    ensures CandidateValues(items) == {"ns-a", "ns-b"}
  {
    var labels := ExampleLabels();
    forall v | v in CandidateValues(items) ensures v in {"ns-a", "ns-b"} {
      var i :| 0 <= i < |items| && IsCandidate(items[i].0) && items[i].1 == v;
      assert items[i].0 in labels && labels[items[i].0] == v;
      assert items[i].0 != "name";
    }
    forall v | v in {"ns-a", "ns-b"} ensures v in CandidateValues(items) {
      var k := if v == "ns-a" then "namespaces/a" else "namespaces/b";
      assert k in labels && labels[k] == v;
      var i :| 0 <= i < |items| && items[i].0 == k;
      assert IsCandidate(items[i].0) && items[i].1 == v;
    }
  }

  /**
   * The example labels, visited in any order, provision exactly ns-a and
   * ns-b and never mention "ignored".
   */
  lemma FanOutExample(c: Cluster, items: seq<(string, string)>)
    requires c.faults == map[]
    requires EnumerationOf(items, ExampleLabels())
    ensures var r := FanOut(c, items);
            && r.err.None?
            && r.after.table == Provisioned(c.table, {"ns-a", "ns-b"})
            && (forall j | |c.log| <= j < |r.after.log| :: !IsProvisioningCall(r.after.log[j], {"ignored"}))
  {
    ExampleCandidates(items);
    FanOutWithoutFaults(c, items);
    FanOutOnlyProvisions(c, items);
  }
}
