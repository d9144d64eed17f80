/**
 * The API client every reconciler talks to (Get / Scheme / Create / Update /
 * Delete), modelled as an in-memory table keyed by (kind, namespace, name)
 * with a log of every call and an error oracle that can make any call fail.
 */
module Store {
  import opened Wrappers
  import opened Resources

  /** The two error kinds the reconcilers tell apart. */
  datatype Error = NotFound | Other(reason: string)

  /** What the store answers to a Create of a key that already exists. */
  const AlreadyExists: Error := Other("already exists")

  /** Every stored object sits under its own key. */
  predicate Consistent(t: map<Key, Object>) {
    forall k | k in t :: KeyOf(t[k]) == k
  }

  type Table = t: map<Key, Object> | Consistent(t) witness map[]

  datatype Call =
    | GetCall(key: Key)
    | CreateCall(obj: Object)
    | UpdateCall(obj: Object)
    | DeleteCall(obj: Object)
    | SchemeCall

  predicate IsWrite(call: Call) {
    call.CreateCall? || call.UpdateCall? || call.DeleteCall?
  }

  /**
   * The store as a value: its contents, every call made so far, and the
   * oracle `faults`, which makes the call with index n (counted from 0 over
   * the whole log) fail with `faults[n]`.
   */
  datatype Cluster = Cluster(table: Table, log: seq<Call>, faults: map<nat, Error>)

  /** The failure the oracle injects into the next call, if any. */
  function Injected(c: Cluster): Option<Error> {
    if |c.log| in c.faults then Some(c.faults[|c.log|]) else None
  }

  /** The outcome of a write, or of a whole reconcile pass. */
  datatype Reply = Reply(after: Cluster, err: Option<Error>)

  /** The outcome of a Get: the out-parameter `obj` after the call. */
  datatype Fetched = Fetched(after: Cluster, err: Option<Error>, obj: Object)

  /**
   * Get(key, into): the kind comes from `into`; on success `into` is
   * overwritten with the stored object, on failure it is left as it was.
   */
  function GetStep(c: Cluster, namespace: string, name: string, into: Object): (r: Fetched)
    ensures r.after == c.(log := c.log + [GetCall(Key(KindOf(into), namespace, name))])
    ensures r.err.None? ==> Key(KindOf(into), namespace, name) in c.table
                            && r.obj == c.table[Key(KindOf(into), namespace, name)]
    ensures r.err.Some? ==> r.obj == into
    ensures Key(KindOf(into), namespace, name) !in c.table ==> r.err.Some?
    ensures Injected(c).None? && Key(KindOf(into), namespace, name) !in c.table ==> r.err == Some(NotFound)
    ensures Injected(c).None? && Key(KindOf(into), namespace, name) in c.table ==> r.err.None?
    ensures Injected(c).Some? ==> r.err == Injected(c)
    ensures KindOf(r.obj) == KindOf(into)
  {
    var key := Key(KindOf(into), namespace, name);
    var after := c.(log := c.log + [GetCall(key)]);
    if Injected(c).Some? then Fetched(after, Injected(c), into)
    else if key in c.table then Fetched(after, None, c.table[key])
    else Fetched(after, Some(NotFound), into)
  }

  /** Create(obj): fails on an injected fault or when the key is taken; otherwise files `obj`. */
  function CreateStep(c: Cluster, obj: Object): (r: Reply)
    ensures r.after.log == c.log + [CreateCall(obj)] && r.after.faults == c.faults
    ensures r.err.None? <==> Injected(c).None? && KeyOf(obj) !in c.table
    ensures Injected(c).Some? ==> r.err == Injected(c)
    ensures Injected(c).None? && KeyOf(obj) in c.table ==> r.err == Some(AlreadyExists)
    ensures r.after.table == if r.err.None? then c.table[KeyOf(obj) := obj] else c.table
  {
    var after := c.(log := c.log + [CreateCall(obj)]);
    if Injected(c).Some? then Reply(after, Injected(c))
    else if KeyOf(obj) in c.table then Reply(after, Some(AlreadyExists))
    else Reply(after.(table := c.table[KeyOf(obj) := obj]), None)
  }

  /** Update(obj): fails on an injected fault or when the key is absent; otherwise replaces the stored object. */
  function UpdateStep(c: Cluster, obj: Object): (r: Reply)
    ensures r.after.log == c.log + [UpdateCall(obj)] && r.after.faults == c.faults
    ensures r.err.None? <==> Injected(c).None? && KeyOf(obj) in c.table
    ensures Injected(c).Some? ==> r.err == Injected(c)
    ensures Injected(c).None? && KeyOf(obj) !in c.table ==> r.err == Some(NotFound)
    ensures r.after.table == if r.err.None? then c.table[KeyOf(obj) := obj] else c.table
  {
    var after := c.(log := c.log + [UpdateCall(obj)]);
    if Injected(c).Some? then Reply(after, Injected(c))
    else if KeyOf(obj) !in c.table then Reply(after, Some(NotFound))
    else Reply(after.(table := c.table[KeyOf(obj) := obj]), None)
  }

  /** Delete(obj): fails on an injected fault or when the key is absent; otherwise removes the key. */
  function DeleteStep(c: Cluster, obj: Object): (r: Reply)
    ensures r.after.log == c.log + [DeleteCall(obj)] && r.after.faults == c.faults
    ensures r.err.None? <==> Injected(c).None? && KeyOf(obj) in c.table
    ensures Injected(c).Some? ==> r.err == Injected(c)
    ensures Injected(c).None? && KeyOf(obj) !in c.table ==> r.err == Some(NotFound)
    ensures r.after.table == if r.err.None? then c.table - {KeyOf(obj)} else c.table
  {
    var after := c.(log := c.log + [DeleteCall(obj)]);
    if Injected(c).Some? then Reply(after, Injected(c))
    else if KeyOf(obj) !in c.table then Reply(after, Some(NotFound))
    else Reply(after.(table := c.table - {KeyOf(obj)}), None)
  }

  /** Scheme(): a lookup that never fails and changes nothing but the log. */
  function SchemeStep(c: Cluster): (r: Cluster)
    ensures r.table == c.table && r.faults == c.faults && r.log == c.log + [SchemeCall]
  {
    c.(log := c.log + [SchemeCall])
  }

  /** The client object handed to the reconcilers. */
  class Client {
    var table: Table
    var log: seq<Call>
    const faults: map<nat, Error>

    function State(): Cluster
      reads this
    {
      Cluster(table, log, faults)
    }

    constructor (table: Table, faults: map<nat, Error>)
      ensures State() == Cluster(table, [], faults)
    {
      this.table := table;
      this.log := [];
      this.faults := faults;
    }

    method Get(namespace: string, name: string, into: Object) returns (err: Option<Error>, obj: Object)
      modifies this
      ensures var r := GetStep(old(State()), namespace, name, into);
              State() == r.after && err == r.err && obj == r.obj
    {
      var key := Key(KindOf(into), namespace, name);
      err := if |log| in faults then Some(faults[|log|]) else None;
      log := log + [GetCall(key)];
      obj := into;
      if err.None? {
        if key in table {
          obj := table[key];
        } else {
          err := Some(NotFound);
        }
      }
    }

    method Create(obj: Object) returns (err: Option<Error>)
      modifies this
      ensures var r := CreateStep(old(State()), obj); State() == r.after && err == r.err
    {
      err := if |log| in faults then Some(faults[|log|]) else None;
      log := log + [CreateCall(obj)];
      if err.None? {
        if KeyOf(obj) in table {
          err := Some(AlreadyExists);
        } else {
          table := table[KeyOf(obj) := obj];
        }
      }
    }

    method Update(obj: Object) returns (err: Option<Error>)
      modifies this
      ensures var r := UpdateStep(old(State()), obj); State() == r.after && err == r.err
    {
      err := if |log| in faults then Some(faults[|log|]) else None;
      log := log + [UpdateCall(obj)];
      if err.None? {
        if KeyOf(obj) in table {
          table := table[KeyOf(obj) := obj];
        } else {
          err := Some(NotFound);
        }
      }
    }

    method Delete(obj: Object) returns (err: Option<Error>)
      modifies this
      ensures var r := DeleteStep(old(State()), obj); State() == r.after && err == r.err
    {
      err := if |log| in faults then Some(faults[|log|]) else None;
      log := log + [DeleteCall(obj)];
      if err.None? {
        if KeyOf(obj) in table {
          table := table - {KeyOf(obj)};
        } else {
          err := Some(NotFound);
        }
      }
    }

    method Scheme()
      modifies this
      ensures State() == SchemeStep(old(State()))
    {
      log := log + [SchemeCall];
    }
  }
}
