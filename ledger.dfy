/** A ledger of the registrations one object makes with a collaborator: a
    listener added to or removed from a data source, a tracker opened or
    closed, an item registered or unregistered. `Net(log, k)` is how many
    registrations on key `k` are live after the calls in `log`; the classes
    of this model keep it at 0 or 1 for every key as part of their
    invariants. */
module Ledger {

  datatype Reg<K> = Add(key: K) | Drop(key: K)

  /** The change one call makes to the registrations on `k`. */
  function Delta<K(==)>(r: Reg<K>, k: K): (d: int)
    ensures -1 <= d <= 1
    ensures d != 0 <==> r.key == k
  {
    match r
    case Add(x) => if x == k then 1 else 0
    case Drop(x) => if x == k then -1 else 0
  }

  /** Live registrations on `k`: adds minus drops, counted from the start. */
  function Net<K(==)>(log: seq<Reg<K>>, k: K): int
  {
    if log == [] then 0 else Net(log[..|log| - 1], k) + Delta(log[|log| - 1], k)
  }

  /** Appending one call changes the count of its own key only. */
  lemma NetSnoc<K>(log: seq<Reg<K>>, r: Reg<K>, k: K)
    ensures Net(log + [r], k) == Net(log, k) + Delta(r, k)
  {
    assert (log + [r])[..|log|] == log;
  }

  /** The keys on which the ledger `log` holds exactly `live`: one
      registration on every key of `live`, none elsewhere. */
  ghost predicate Holds<K(!new)>(log: seq<Reg<K>>, live: set<K>)
  {
    forall k :: Net(log, k) == (if k in live then 1 else 0)
  }

  /** Registering a key that is not live makes it live. */
  lemma HoldsAdd<K(!new)>(log: seq<Reg<K>>, live: set<K>, k: K)
    requires Holds(log, live) && k !in live
    ensures Holds(log + [Add(k)], live + {k})
  {
    forall x ensures Net(log + [Add(k)], x) == (if x in live + {k} then 1 else 0) {
      NetSnoc(log, Add(k), x);
    }
  }

  /** Unregistering a live key makes it not live. */
  lemma HoldsDrop<K(!new)>(log: seq<Reg<K>>, live: set<K>, k: K)
    requires Holds(log, live) && k in live
    ensures Holds(log + [Drop(k)], live - {k})
  {
    forall x ensures Net(log + [Drop(k)], x) == (if x in live - {k} then 1 else 0) {
      NetSnoc(log, Drop(k), x);
    }
  }
}
