/** The client-side controller of one browsed folder. It keeps the folder
    subscription on the server alive while at least one folder listener is
    registered, replays its cache of the folder's entries to every new
    listener and forwards every change to all listeners. The cache itself
    is kept up to date by the folder watcher it extends, which is not part
    of this model: the updated cache comes in as a parameter. */
module FolderSync {
  import opened Common

  /** A browser entry of the folder, keyed by its name in the cache. */
  datatype Entry = Entry(name: string, attributes: Attributes)

  /** One call of a listener's `folderChanged`: the listener, the added or
      changed entries, the removed names and whether it is a full update. */
  datatype Notification = Notification(listener: nat, added: set<Entry>, removed: set<string>, full: bool)

  /** Calls on the connection for this folder's location. */
  datatype FolderCall = SubscribeFolder | UnsubscribeFolder

  /** A snapshot of the controller. */
  datatype Folder = Folder(
    listeners: set<nat>,
    subscribed: bool,
    cache: map<string, Entry>,
    calls: seq<FolderCall>,
    notes: seq<Notification>)

  /** The controller only believes itself subscribed while someone listens:
      removing the last listener unsubscribes. */
  ghost predicate Valid(f: Folder) {
    f.subscribed ==> f.listeners != {}
  }

  /** The full update `transmitCache` sends: every cached entry, nothing
      removed. */
  function CacheUpdate(f: Folder, listener: nat): (n: Notification)
    ensures n.listener == listener && n.full && n.removed == {}
    ensures forall e :: e in n.added <==> exists k :: k in f.cache && f.cache[k] == e
  {
    Notification(listener, f.cache.Values, {}, true)
  }

  /** `subscribe`: the flag is set before the connection is asked; an
      exception from the connection clears it again. */
  function SubscribeStep(f: Folder, fails: bool): (r: Folder)
    requires f.listeners != {}
    ensures Valid(r)
    ensures r.subscribed == !fails
    ensures r == f.(subscribed := r.subscribed, calls := f.calls + [SubscribeFolder])
  {
    f.(subscribed := !fails, calls := f.calls + [SubscribeFolder])
  }

  /** `unsubscribe`: the flag is cleared before the connection is asked. An
      exception from the connection goes to `handleError`, which clears the
      flag again, so a failed unsubscribe ends in the same state as a
      successful one; `fails` is kept so that `sync` reads the same on both
      paths. */
  function UnsubscribeStep(f: Folder, fails: bool): (r: Folder)
    ensures Valid(r) && !r.subscribed
    ensures r == f.(subscribed := false, calls := f.calls + [UnsubscribeFolder])
  {
    f.(subscribed := false, calls := f.calls + [UnsubscribeFolder])
  }

  /** `sync(force)`: subscribe or unsubscribe when "someone listens" differs
      from the flag, or always when forced; otherwise nothing happens. */
  function SyncStep(f: Folder, force: bool, fails: bool): (r: Folder)
    ensures Valid(r)
    ensures r.listeners == f.listeners && r.cache == f.cache && r.notes == f.notes
    ensures !force && (f.listeners != {}) == f.subscribed ==> r == f
    ensures (force || (f.listeners != {}) != f.subscribed) ==>
      && r.calls == f.calls + [if f.listeners != {} then SubscribeFolder else UnsubscribeFolder]
      && r.subscribed == (f.listeners != {} && !fails)
  {
    var need := f.listeners != {};
    if need != f.subscribed || force then
      if need then SubscribeStep(f, fails) else UnsubscribeStep(f, fails)
    else f
  }

  /** `addListener`: a new listener triggers `sync`, a known one does not;
      either way the listener then gets the whole cache as a full update. */
  function AddListenerStep(f: Folder, listener: nat, fails: bool): (r: Folder)
    requires Valid(f)
    ensures Valid(r)
    ensures r.listeners == f.listeners + {listener} && r.cache == f.cache
    ensures r.notes == f.notes + [CacheUpdate(f, listener)]
    ensures listener in f.listeners ==> r.calls == f.calls && r.subscribed == f.subscribed
    ensures listener !in f.listeners && !f.subscribed ==> r.calls == f.calls + [SubscribeFolder] && r.subscribed == !fails
    ensures listener !in f.listeners && f.subscribed ==> r.calls == f.calls && r.subscribed
  {
    var f1 := if listener in f.listeners then f else SyncStep(f.(listeners := f.listeners + {listener}), false, fails);
    f1.(notes := f1.notes + [CacheUpdate(f1, listener)])
  }

  /** `removeListener`: removing a registered listener triggers `sync`,
      removing an unknown one changes nothing. Removing the last listener of
      a subscribed folder unsubscribes; removing one of several listeners of
      a folder that is not subscribed (after a failure or a disconnect)
      subscribes again; removing the last listener of a folder that is not
      subscribed makes no call. */
  function RemoveListenerStep(f: Folder, listener: nat, fails: bool): (r: Folder)
    requires Valid(f)
    ensures Valid(r)
    ensures r.listeners == f.listeners - {listener} && r.cache == f.cache && r.notes == f.notes
    ensures listener !in f.listeners ==> r == f
    ensures listener in f.listeners && f.listeners == {listener} && f.subscribed ==>
      r.calls == f.calls + [UnsubscribeFolder] && !r.subscribed
    ensures listener in f.listeners && f.listeners == {listener} && !f.subscribed ==> r.calls == f.calls && !r.subscribed
    ensures listener in f.listeners && f.listeners != {listener} && f.subscribed ==> r.calls == f.calls && r.subscribed
    ensures listener in f.listeners && f.listeners != {listener} && !f.subscribed ==>
      r.calls == f.calls + [SubscribeFolder] && r.subscribed == !fails
  {
    if listener in f.listeners then SyncStep(f.(listeners := f.listeners - {listener}), false, fails) else f
  }

  /** `resync`: always one call, subscribe while someone listens and
      unsubscribe otherwise. */
  lemma ResyncAlwaysCalls(f: Folder, fails: bool)
    requires Valid(f)
    ensures var r := SyncStep(f, true, fails);
      && |r.calls| == |f.calls| + 1
      && r.calls[|f.calls|] == (if f.listeners != {} then SubscribeFolder else UnsubscribeFolder)
  {
  }

  /** With a connection that never fails, adding a first listener and
      removing it again subscribes and unsubscribes exactly once each, and
      the listener gets one full update with the cache. */
  lemma {:induction false} AddRemoveRoundTrip(f: Folder, listener: nat)
    requires Valid(f) && f.listeners == {}
    ensures var f1 := AddListenerStep(f, listener, false);
      var f2 := RemoveListenerStep(f1, listener, false);
      && f1.subscribed && !f2.subscribed && f2.listeners == {}
      && f2.calls == f.calls + [SubscribeFolder, UnsubscribeFolder]
      && f2.notes == f.notes + [CacheUpdate(f, listener)]
  {
    var f1 := AddListenerStep(f, listener, false);
    assert !f.subscribed;
    assert f1.listeners == {listener};
  }

  /** `ns` calls every listener of `to` exactly once, each with the same
      arguments. */
  predicate Notified(ns: seq<Notification>, to: set<nat>, added: set<Entry>, removed: set<string>, full: bool) {
    && |ns| == |to|
    && (forall i :: 0 <= i < |ns| ==> ns[i] == Notification(ns[i].listener, added, removed, full) && ns[i].listener in to)
    && (forall i, j :: 0 <= i < j < |ns| ==> ns[i].listener != ns[j].listener)
    && (forall l :: l in to ==> exists i :: 0 <= i < |ns| && ns[i].listener == l)
  }

  /** Calling one more listener extends the notified set by that listener. */
  lemma NotifyOne(ns: seq<Notification>, to: set<nat>, l: nat, added: set<Entry>, removed: set<string>, full: bool)
    requires Notified(ns, to, added, removed, full) && l !in to
    ensures Notified(ns + [Notification(l, added, removed, full)], to + {l}, added, removed, full)
  {
    var ns' := ns + [Notification(l, added, removed, full)];
    assert forall i :: 0 <= i < |ns| ==> ns'[i] == ns[i];
    assert ns'[|ns|].listener == l;
    forall m | m in to + {l}
      ensures exists i :: 0 <= i < |ns'| && ns'[i].listener == m
    {
      if m == l {
        assert ns'[|ns|].listener == m;
      } else {
        var i :| 0 <= i < |ns| && ns[i].listener == m;
        assert ns'[i].listener == m;
      }
    }
  }

  /** The listener loop of `folderChanged` and `disconnected`: every
      listener is called once with the same arguments. */
  method NotifyAll(listeners: set<nat>, added: set<Entry>, removed: set<string>, full: bool)
    returns (ns: seq<Notification>)
    ensures Notified(ns, listeners, added, removed, full)
  {
    ns := [];
    var rest := listeners;
    ghost var done: set<nat> := {};
    while rest != {}
      invariant rest !! done && rest + done == listeners
      invariant Notified(ns, done, added, removed, full)
      decreases rest
    {
      var l :| l in rest;
      NotifyOne(ns, done, l, added, removed, full);
      ns := ns + [Notification(l, added, removed, full)];
      rest := rest - {l};
      done := done + {l};
    }
    assert done == listeners;
  }

  // ---------------------------------------------------------------------
  // The controller object

  class FolderSyncController {
    var listeners: set<nat>
    var subscribed: bool
    var cache: map<string, Entry>
    var calls: seq<FolderCall>
    var notes: seq<Notification>

    function State(): Folder
      reads this
    {
      Folder(listeners, subscribed, cache, calls, notes)
    }

    ghost predicate Inv()
      reads this
    {
      Valid(State())
    }

    /** A new controller has no listeners, is not subscribed and has an
        empty cache. Registering itself with the connection for its location
        is not part of this model. */
    constructor ()
      ensures Inv()
      ensures State() == Folder({}, false, map[], [], [])
    {
      listeners, subscribed, cache, calls, notes := {}, false, map[], [], [];
    }

    method Subscribe(fails: bool)
      requires Inv() && listeners != {}
      modifies this
      ensures Inv()
      ensures State() == SubscribeStep(old(State()), fails)
    {
      subscribed := true;
      calls := calls + [SubscribeFolder];
      if fails {
        HandleError();
      }
    }

    method Unsubscribe(fails: bool)
      modifies this
      ensures Inv()
      ensures State() == UnsubscribeStep(old(State()), fails)
    {
      subscribed := false;
      calls := calls + [UnsubscribeFolder];
      if fails {
        HandleError();
      }
    }

    /** `handleError`: the subscription is taken as lost. */
    method HandleError()
      modifies this
      ensures Inv()
      ensures State() == old(State()).(subscribed := false)
    {
      subscribed := false;
    }

    method SyncWith(force: bool, fails: bool)
      modifies this
      ensures Inv()
      ensures State() == SyncStep(old(State()), force, fails)
    {
      var needSubscription := listeners != {};
      if needSubscription != subscribed || force {
        if needSubscription {
          Subscribe(fails);
        } else {
          Unsubscribe(fails);
        }
      }
    }

    method Sync(fails: bool)
      modifies this
      ensures Inv()
      ensures State() == SyncStep(old(State()), false, fails)
    {
      SyncWith(false, fails);
    }

    method Resync(fails: bool)
      modifies this
      ensures Inv()
      ensures State() == SyncStep(old(State()), true, fails)
    {
      SyncWith(true, fails);
    }

    method TransmitCache(listener: nat)
      modifies this
      ensures State() == old(State()).(notes := old(notes) + [CacheUpdate(old(State()), listener)])
    {
      notes := notes + [CacheUpdate(State(), listener)];
    }

    method AddListener(listener: nat, fails: bool)
      requires Inv()
      modifies this
      ensures Inv()
      ensures State() == AddListenerStep(old(State()), listener, fails)
    {
      if listener !in listeners {
        listeners := listeners + {listener};
        Sync(fails);
      }
      TransmitCache(listener);
    }

    method RemoveListener(listener: nat, fails: bool)
      requires Inv()
      modifies this
      ensures Inv()
      ensures State() == RemoveListenerStep(old(State()), listener, fails)
    {
      if listener in listeners {
        listeners := listeners - {listener};
        Sync(fails);
      }
    }

    /** `folderChanged`: the folder watcher's cache update yields `updated`;
        then every current listener gets the same change. */
    method FolderChanged(updated: map<string, Entry>, added: set<Entry>, removed: set<string>, full: bool)
      requires Inv()
      modifies this
      ensures Inv()
      ensures listeners == old(listeners) && subscribed == old(subscribed) && calls == old(calls)
      ensures cache == updated
      ensures |notes| == |old(notes)| + |listeners| && notes[..|old(notes)|] == old(notes)
      ensures forall i :: |old(notes)| <= i < |notes| ==>
        notes[i] == Notification(notes[i].listener, added, removed, full) && notes[i].listener in listeners
      ensures forall l :: l in listeners ==> exists i :: |old(notes)| <= i < |notes| && notes[i].listener == l
    {
      cache := updated;
      var ns := NotifyAll(listeners, added, removed, full);
      notes := notes + ns;
      assert forall i :: 0 <= i < |ns| ==> notes[|old(notes)| + i] == ns[i];
    }

    /** `disconnected`: the cache is emptied and the flag cleared, then every
        listener gets an empty full update. */
    method Disconnected()
      requires Inv()
      modifies this
      ensures Inv()
      ensures listeners == old(listeners) && calls == old(calls)
      ensures cache == map[] && !subscribed
      ensures |notes| == |old(notes)| + |listeners| && notes[..|old(notes)|] == old(notes)
      ensures forall i :: |old(notes)| <= i < |notes| ==>
        notes[i] == Notification(notes[i].listener, {}, {}, true) && notes[i].listener in listeners
      ensures forall l :: l in listeners ==> exists i :: |old(notes)| <= i < |notes| && notes[i].listener == l
    {
      subscribed := false;
      cache := map[];
      var ns := NotifyAll(listeners, {}, {}, true);
      notes := notes + ns;
      assert forall i :: 0 <= i < |ns| ==> notes[|old(notes)| + i] == ns[i];
    }
  }
}
