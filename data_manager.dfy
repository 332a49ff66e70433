/** The data manager of the simple field protocol client: it maps the
    server's register numbers to item ids and back, caches the last value of
    every register, knows which items the client has subscribed (the active
    set) and which listener watches each item, and decides which
    notifications a listener gets. Notifications run on the connection's
    executor; here each becomes a `Task` appended to the `tasks` log. */
module SfpDataManager {
  import opened Common

  /** One call on an item update listener. `DataChange` carries the changed
      value (null when unchanged), the attribute changes (null when there are
      none) and whether the value comes from the cache. */
  datatype ListenerCall =
    | SubscriptionChange(state: SubscriptionState)
    | DataChange(value: Option<Variant>, attributes: Option<Attributes>, fromCache: bool)

  /** One runnable handed to the executor: the calls it makes on one
      listener, in order. */
  datatype Task = Task(listener: nat, calls: seq<ListenerCall>)

  /** A snapshot of the manager. */
  datatype Manager = Manager(
    itemListeners: map<string, nat>,
    cache: map<int, DataItemValue>,
    registerMap: map<int, string>,
    itemIdMap: map<string, int>,
    activeSet: set<string>,
    tasks: seq<Task>)

  /** `findRegister`: the register an item id is mapped to, or null. */
  function FindRegister(d: Manager, itemId: string): (r: Option<int>)
    ensures r.Some? <==> itemId in d.itemIdMap
    ensures r.Some? ==> r.value == d.itemIdMap[itemId]
  {
    if itemId in d.itemIdMap then Some(d.itemIdMap[itemId]) else None
  }

  /** The listener of an item that is also in the active set, if any. */
  function ActiveListener(d: Manager, itemId: string): (r: Option<nat>)
    ensures r.Some? <==> itemId in d.itemListeners && itemId in d.activeSet
    ensures r.Some? ==> r.value == d.itemListeners[itemId]
  {
    if itemId in d.itemListeners && itemId in d.activeSet then Some(d.itemListeners[itemId]) else None
  }

  /** What `updateData` tells an interested listener. Without a previous
      value: CONNECTED, then the full value and attributes. With one: the
      value only if it changed, the attribute difference only if it is not
      empty, preceded by CONNECTED only if the previous state was not
      CONNECTED. */
  function UpdateCalls(oldValue: Option<DataItemValue>, value: DataItemValue,
                       diff: (Attributes, Attributes) -> Attributes): (r: seq<ListenerCall>)
    ensures 1 <= |r| <= 2
    ensures r[|r| - 1].DataChange? && !r[|r| - 1].fromCache
    ensures |r| == 2 <==> oldValue.None? || oldValue.value.state != Connected
    ensures |r| == 2 ==> r[0] == SubscriptionChange(Connected)
    ensures oldValue.None? ==> r[|r| - 1] == DataChange(Some(value.value), Some(value.attributes), false)
    ensures oldValue.Some? ==>
      && (r[|r| - 1].value.None? <==> oldValue.value.value == value.value)
      && (r[|r| - 1].value.Some? ==> r[|r| - 1].value.value == value.value)
      && (r[|r| - 1].attributes.None? <==> diff(oldValue.value.attributes, value.attributes) == map[])
      && (r[|r| - 1].attributes.Some? ==> r[|r| - 1].attributes.value == diff(oldValue.value.attributes, value.attributes))
  {
    match oldValue
    case None => [SubscriptionChange(Connected), DataChange(Some(value.value), Some(value.attributes), false)]
    case Some(o) =>
      var valueChange := if o.value != value.value then Some(value.value) else None;
      var attributesChange := diff(o.attributes, value.attributes);
      (if o.state != Connected then [SubscriptionChange(Connected)] else [])
        + [DataChange(valueChange, if attributesChange == map[] then None else Some(attributesChange), false)]
  }

  /** `updateData`: the value always goes into the cache; a task is queued
      only when the register's item has a listener and is active. */
  function UpdateDataStep(d: Manager, register: int, value: DataItemValue,
                          diff: (Attributes, Attributes) -> Attributes): (r: Manager)
    ensures r.cache == d.cache[register := value]
    ensures r == d.(cache := r.cache, tasks := r.tasks)
    ensures (register !in d.registerMap || ActiveListener(d, d.registerMap[register]).None?) ==> r.tasks == d.tasks
    ensures register in d.registerMap && ActiveListener(d, d.registerMap[register]).Some? ==>
      r.tasks == d.tasks + [Task(d.itemListeners[d.registerMap[register]],
                                 UpdateCalls(if register in d.cache then Some(d.cache[register]) else None, value, diff))]
  {
    var oldValue := if register in d.cache then Some(d.cache[register]) else None;
    var d1 := d.(cache := d.cache[register := value]);
    if register !in d.registerMap then d1
    else
      match ActiveListener(d, d.registerMap[register])
      case None => d1
      case Some(l) => d1.(tasks := d1.tasks + [Task(l, UpdateCalls(oldValue, value, diff))])
  }

  /** `removeRegister`: the register leaves the register map and the cache,
      and its item leaves the item id map. GRANTED is queued only when a
      value was cached and the item has a listener (active or not). */
  function RemoveRegisterStep(d: Manager, register: int): (r: Manager)
    ensures register !in r.registerMap && register !in r.cache
    ensures r.registerMap == d.registerMap - {register} && r.cache == d.cache - {register}
    ensures r.itemIdMap == if register in d.registerMap then d.itemIdMap - {d.registerMap[register]} else d.itemIdMap
    ensures r.itemListeners == d.itemListeners && r.activeSet == d.activeSet
    ensures (register in d.cache && register in d.registerMap && d.registerMap[register] in d.itemListeners) ==>
      r.tasks == d.tasks + [Task(d.itemListeners[d.registerMap[register]], [SubscriptionChange(Granted)])]
    ensures !(register in d.cache && register in d.registerMap && d.registerMap[register] in d.itemListeners) ==>
      r.tasks == d.tasks
  {
    var d1 := d.(registerMap := d.registerMap - {register},
                 itemIdMap := if register in d.registerMap then d.itemIdMap - {d.registerMap[register]} else d.itemIdMap,
                 cache := d.cache - {register});
    if register !in d.cache || register !in d.registerMap || d.registerMap[register] !in d.itemListeners then d1
    else d1.(tasks := d1.tasks + [Task(d.itemListeners[d.registerMap[register]], [SubscriptionChange(Granted)])])
  }

  /** `setItemUpateListener`: a listener is stored, null removes the item's
      listener. */
  function SetItemListenerStep(d: Manager, itemId: string, listener: Option<nat>): (r: Manager)
    ensures listener.Some? ==> itemId in r.itemListeners && r.itemListeners[itemId] == listener.value
    ensures listener.None? ==> itemId !in r.itemListeners
    ensures forall k :: k != itemId ==> (k in r.itemListeners <==> k in d.itemListeners)
    ensures forall k :: k != itemId && k in d.itemListeners ==> r.itemListeners[k] == d.itemListeners[k]
    ensures r == d.(itemListeners := r.itemListeners)
  {
    match listener
    case Some(l) => d.(itemListeners := d.itemListeners[itemId := l])
    case None => d.(itemListeners := d.itemListeners - {itemId})
  }

  /** The listener map after `setAllItemListeners`: every given item gets
      its listener, or loses it for a null one; other items keep theirs. */
  function MergeListeners(current: map<string, nat>, given: map<string, Option<nat>>): (r: map<string, nat>)
    ensures forall k :: k in given && given[k].Some? ==> k in r && r[k] == given[k].value
    ensures forall k :: k in given && given[k].None? ==> k !in r
    ensures forall k :: k !in given ==> (k in r <==> k in current) && (k in current ==> r[k] == current[k])
  {
    map k | k in current.Keys + given.Keys && (k in given ==> given[k].Some?)
      :: if k in given then given[k].value else current[k]
  }

  /** Setting one more item's listener extends the merge by that item. */
  lemma MergeOneMore(current: map<string, nat>, done: map<string, Option<nat>>, k: string, l: Option<nat>)
    requires k !in done
    ensures SetItemListenerStep(Manager(MergeListeners(current, done), map[], map[], map[], {}, []), k, l).itemListeners
         == MergeListeners(current, done[k := l])
  {
  }

  /** `addMapping`: both directions of the mapping are recorded; the last
      known value goes to the item's listener when the item is active. */
  function AddMappingStep(d: Manager, register: int, itemId: string): (r: Manager)
    ensures r.registerMap == d.registerMap[register := itemId] && r.itemIdMap == d.itemIdMap[itemId := register]
    ensures FindRegister(r, itemId) == Some(register)
    ensures r.cache == d.cache && r.itemListeners == d.itemListeners && r.activeSet == d.activeSet
    ensures (register in d.cache && ActiveListener(d, itemId).Some?) ==>
      r.tasks == d.tasks + [Task(d.itemListeners[itemId],
                                 [SubscriptionChange(Connected), DataChange(Some(d.cache[register].value), Some(d.cache[register].attributes), true)])]
    ensures !(register in d.cache && ActiveListener(d, itemId).Some?) ==> r.tasks == d.tasks
  {
    var d1 := d.(registerMap := d.registerMap[register := itemId], itemIdMap := d.itemIdMap[itemId := register]);
    if register in d.cache && ActiveListener(d, itemId).Some? then
      var v := d.cache[register];
      d1.(tasks := d1.tasks + [Task(d.itemListeners[itemId], [SubscriptionChange(Connected), DataChange(Some(v.value), Some(v.attributes), true)])])
    else d1
  }

  /** `fireSubscriptionChange`: queued only for an item with a listener
      that is active. */
  function FireSubscriptionChangeStep(d: Manager, itemId: string, state: SubscriptionState): (r: Manager)
    ensures ActiveListener(d, itemId).None? ==> r == d
    ensures ActiveListener(d, itemId).Some? ==>
      r == d.(tasks := d.tasks + [Task(d.itemListeners[itemId], [SubscriptionChange(state)])])
  {
    match ActiveListener(d, itemId)
    case None => d
    case Some(l) => d.(tasks := d.tasks + [Task(l, [SubscriptionChange(state)])])
  }

  /** `removeMapping`: the item leaves the item id map and its register the
      register map; an active listener is told GRANTED. */
  function RemoveMappingStep(d: Manager, itemId: string): (r: Manager)
    ensures itemId !in r.itemIdMap && FindRegister(r, itemId).None?
    ensures r.itemIdMap == d.itemIdMap - {itemId}
    ensures r.registerMap == if itemId in d.itemIdMap then d.registerMap - {d.itemIdMap[itemId]} else d.registerMap
    ensures r.cache == d.cache && r.itemListeners == d.itemListeners && r.activeSet == d.activeSet
    ensures r.tasks == FireSubscriptionChangeStep(d, itemId, Granted).tasks
  {
    var d1 := d.(itemIdMap := d.itemIdMap - {itemId},
                 registerMap := if itemId in d.itemIdMap then d.registerMap - {d.itemIdMap[itemId]} else d.registerMap);
    FireSubscriptionChangeStep(d1, itemId, Granted)
  }

  /** What `subscribeItem` tells the item's listener: DISCONNECTED when the
      connection is not bound; otherwise CONNECTED and the cached value when
      there is one, GRANTED when there is none. */
  function SubscribeCalls(bound: bool, value: Option<DataItemValue>): (r: seq<ListenerCall>)
    ensures !bound ==> r == [SubscriptionChange(Disconnected)]
    ensures bound && value.None? ==> r == [SubscriptionChange(Granted)]
    ensures bound && value.Some? ==>
      r == [SubscriptionChange(Connected), DataChange(Some(value.value.value), Some(value.value.attributes), true)]
  {
    if !bound then [SubscriptionChange(Disconnected)]
    else match value
      case Some(v) => [SubscriptionChange(Connected), DataChange(Some(v.value), Some(v.attributes), true)]
      case None => [SubscriptionChange(Granted)]
  }

  /** The cached value of an item, through its register. */
  function CachedValue(d: Manager, itemId: string): (r: Option<DataItemValue>)
    ensures r.Some? <==> itemId in d.itemIdMap && d.itemIdMap[itemId] in d.cache
    ensures r.Some? ==> r.value == d.cache[d.itemIdMap[itemId]]
  {
    if itemId in d.itemIdMap && d.itemIdMap[itemId] in d.cache then Some(d.cache[d.itemIdMap[itemId]]) else None
  }

  /** `subscribeItem`: the item becomes active; its listener, if any, gets
      one task saying how the subscription stands. `bound` is whether the
      connection is in the BOUND state. */
  function SubscribeItemStep(d: Manager, itemId: string, bound: bool): (r: Manager)
    ensures r.activeSet == d.activeSet + {itemId}
    ensures r == d.(activeSet := r.activeSet, tasks := r.tasks)
    ensures itemId !in d.itemListeners ==> r.tasks == d.tasks
    ensures itemId in d.itemListeners ==>
      r.tasks == d.tasks + [Task(d.itemListeners[itemId], SubscribeCalls(bound, CachedValue(d, itemId)))]
  {
    var d1 := d.(activeSet := d.activeSet + {itemId});
    if itemId !in d.itemListeners then d1
    else d1.(tasks := d1.tasks + [Task(d.itemListeners[itemId], SubscribeCalls(bound, CachedValue(d, itemId)))])
  }

  /** `unsubscribeItem`: DISCONNECTED is fired while the item is still
      active, then the item leaves the active set. */
  function UnsubscribeItemStep(d: Manager, itemId: string): (r: Manager)
    ensures r.activeSet == d.activeSet - {itemId}
    ensures r.tasks == FireSubscriptionChangeStep(d, itemId, Disconnected).tasks
    ensures r == d.(activeSet := r.activeSet, tasks := r.tasks)
  {
    var d1 := FireSubscriptionChangeStep(d, itemId, Disconnected);
    d1.(activeSet := d1.activeSet - {itemId})
  }

  /** After an item is unsubscribed its register's updates are cached but
      reach no listener. */
  lemma {:induction false} UnsubscribedIsSilent(d: Manager, itemId: string, register: int, value: DataItemValue,
                                                diff: (Attributes, Attributes) -> Attributes)
    requires register in d.registerMap && d.registerMap[register] == itemId
    ensures var d1 := UnsubscribeItemStep(d, itemId);
      var d2 := UpdateDataStep(d1, register, value, diff);
      d2.tasks == d1.tasks && d2.cache[register] == value
  {
    var d1 := UnsubscribeItemStep(d, itemId);
    assert itemId !in d1.activeSet;
    assert ActiveListener(d1, itemId).None?;
  }

  /** Subscribing an item with a listener on a bound connection after a
      value arrived for its register replays that value from the cache. */
  lemma {:induction false} SubscribeReplaysCache(d: Manager, itemId: string, register: int, value: DataItemValue,
                                                 diff: (Attributes, Attributes) -> Attributes)
    requires FindRegister(d, itemId) == Some(register) && itemId in d.itemListeners
    ensures var d1 := UpdateDataStep(d, register, value, diff);
      var d2 := SubscribeItemStep(d1, itemId, true);
      d2.tasks[|d2.tasks| - 1] ==
        Task(d.itemListeners[itemId], [SubscriptionChange(Connected), DataChange(Some(value.value), Some(value.attributes), true)])
  {
    var d1 := UpdateDataStep(d, register, value, diff);
    assert CachedValue(d1, itemId) == Some(value);
  }

  /** `items` is an order in which the listener map can yield its
      entries: every item with a listener, none twice. */
  predicate ItemOrder(itemListeners: map<string, nat>, items: seq<string>) {
    && Distinct(items)
    && |items| == |itemListeners|
    && forall i :: 0 <= i < |items| ==> items[i] in itemListeners
  }

  /** An item order lists exactly the items with a listener. */
  lemma ItemOrderCovers(itemListeners: map<string, nat>, items: seq<string>)
    requires ItemOrder(itemListeners, items)
    ensures Elements(items) == itemListeners.Keys
  {
    DistinctCard(items);
    var keys, e := itemListeners.Keys, Elements(items);
    assert |keys| == |itemListeners|;
    var missing := keys - e;
    assert keys == e + missing && e !! missing;
    assert |keys| == |e| + |missing|;
    assert missing == {};
  }

  /** The DISCONNECTED task of each item of `items`, in that order. */
  function DisconnectTasks(itemListeners: map<string, nat>, items: seq<string>): (ts: seq<Task>)
    requires forall i :: 0 <= i < |items| ==> items[i] in itemListeners
    ensures |ts| == |items|
  {
    seq(|items|, i requires 0 <= i < |items| => Task(itemListeners[items[i]], [SubscriptionChange(Disconnected)]))
  }

  /** `dispose`, with the listener map yielding its entries in the order
      `items`: one DISCONNECTED task per item with a listener, then the
      listener map is emptied; the maps, the cache and the active set
      stay. */
  function DisposeStep(d: Manager, items: seq<string>): (r: Manager)
    requires ItemOrder(d.itemListeners, items)
    ensures r.itemListeners == map[]
    ensures r.cache == d.cache && r.registerMap == d.registerMap && r.itemIdMap == d.itemIdMap && r.activeSet == d.activeSet
    ensures |r.tasks| == |d.tasks| + |d.itemListeners| && r.tasks[..|d.tasks|] == d.tasks
  {
    d.(itemListeners := map[], tasks := d.tasks + DisconnectTasks(d.itemListeners, items))
  }

  /** `dispose` tells the listener of an item DISCONNECTED exactly when
      the item has a listener; `items` being free of repeats, no item is
      told twice. */
  lemma DisposeTellsEachOnce(d: Manager, items: seq<string>, itemId: string)
    requires ItemOrder(d.itemListeners, items)
    ensures var r := DisposeStep(d, items);
      itemId in d.itemListeners <==>
        exists i :: |d.tasks| <= i < |r.tasks| && items[i - |d.tasks|] == itemId
                    && r.tasks[i] == Task(d.itemListeners[itemId], [SubscriptionChange(Disconnected)])
  {
    var r := DisposeStep(d, items);
    var n := |d.tasks|;
    ItemOrderCovers(d.itemListeners, items);
    if itemId in d.itemListeners {
      var k :| 0 <= k < |items| && items[k] == itemId;
      assert r.tasks[n + k] == DisconnectTasks(d.itemListeners, items)[k];
      assert items[(n + k) - n] == itemId;
    }
  }

  /** The loop of `dispose` over the listener map: one DISCONNECTED task
      per item with a listener. `items` is the order the map yields. */
  method DisconnectAll(itemListeners: map<string, nat>) returns (ts: seq<Task>, items: seq<string>)
    ensures ItemOrder(itemListeners, items)
    ensures ts == DisconnectTasks(itemListeners, items)
  {
    ts, items := [], [];
    var rest := itemListeners.Keys;
    while rest != {}
      invariant rest <= itemListeners.Keys
      invariant |ts| == |items| && |items| + |rest| == |itemListeners|
      invariant Distinct(items)
      invariant forall i :: 0 <= i < |items| ==> items[i] in itemListeners && items[i] !in rest
      invariant ts == DisconnectTasks(itemListeners, items)
      decreases rest
    {
      var k :| k in rest;
      ts := ts + [Task(itemListeners[k], [SubscriptionChange(Disconnected)])];
      items := items + [k];
      rest := rest - {k};
    }
  }

  // ---------------------------------------------------------------------
  // The manager object

  class DataManager {
    var itemListeners: map<string, nat>
    var cache: map<int, DataItemValue>
    var registerMap: map<int, string>
    var itemIdMap: map<string, int>
    var activeSet: set<string>
    var tasks: seq<Task>

    function State(): Manager
      reads this
    {
      Manager(itemListeners, cache, registerMap, itemIdMap, activeSet, tasks)
    }

    constructor ()
      ensures State() == Manager(map[], map[], map[], map[], {}, [])
    {
      itemListeners, cache, registerMap, itemIdMap, activeSet, tasks := map[], map[], map[], map[], {}, [];
    }

    method FindRegisterOf(itemId: string) returns (r: Option<int>)
      ensures r == FindRegister(State(), itemId)
    {
      if itemId in itemIdMap {
        r := Some(itemIdMap[itemId]);
      } else {
        r := None;
      }
    }

    method UpdateData(register: int, value: DataItemValue, diff: (Attributes, Attributes) -> Attributes)
      modifies this
      ensures State() == UpdateDataStep(old(State()), register, value, diff)
    {
      var oldValue := if register in cache then Some(cache[register]) else None;
      cache := cache[register := value];
      if register !in registerMap {
        return;
      }
      var itemId := registerMap[register];
      if itemId !in itemListeners || itemId !in activeSet {
        return;
      }
      tasks := tasks + [Task(itemListeners[itemId], UpdateCalls(oldValue, value, diff))];
    }

    method RemoveRegister(register: int)
      modifies this
      ensures State() == RemoveRegisterStep(old(State()), register)
    {
      var oldItemId := if register in registerMap then Some(registerMap[register]) else None;
      registerMap := registerMap - {register};
      if oldItemId.Some? {
        itemIdMap := itemIdMap - {oldItemId.value};
      }
      var oldValue := if register in cache then Some(cache[register]) else None;
      cache := cache - {register};
      if oldValue.None? || oldItemId.None? || oldItemId.value !in itemListeners {
        return;
      }
      tasks := tasks + [Task(itemListeners[oldItemId.value], [SubscriptionChange(Granted)])];
    }

    /** `dispose`: every item's listener is told DISCONNECTED and the
        listener map is cleared; `items` is the order in which the listener
        map yields its entries. */
    method Dispose() returns (ghost items: seq<string>)
      modifies this
      ensures ItemOrder(old(itemListeners), items)
      ensures State() == DisposeStep(old(State()), items)
    {
      var ts;
      ts, items := DisconnectAll(itemListeners);
      tasks := tasks + ts;
      itemListeners := map[];
    }

    method SetItemUpdateListener(itemId: string, listener: Option<nat>)
      modifies this
      ensures State() == SetItemListenerStep(old(State()), itemId, listener)
    {
      if listener.Some? {
        itemListeners := itemListeners[itemId := listener.value];
      } else {
        itemListeners := itemListeners - {itemId};
      }
    }

    /** `setAllItemListeners`: `setItemUpateListener` for every entry of the
        given map, in its iteration order. */
    method SetAllItemListeners(given: map<string, Option<nat>>)
      modifies this
      ensures State() == old(State()).(itemListeners := MergeListeners(old(itemListeners), given))
    {
      var rest := given.Keys;
      ghost var done: map<string, Option<nat>> := map[];
      while rest != {}
        invariant rest <= given.Keys
        invariant done.Keys == given.Keys - rest && forall k :: k in done ==> done[k] == given[k]
        invariant State() == old(State()).(itemListeners := itemListeners)
        invariant itemListeners == MergeListeners(old(itemListeners), done)
        decreases rest
      {
        var k :| k in rest;
        MergeOneMore(old(itemListeners), done, k, given[k]);
        SetItemUpdateListener(k, given[k]);
        done := done[k := given[k]];
        rest := rest - {k};
      }
      assert done == given;
    }

    method AddMapping(register: int, itemId: string)
      modifies this
      ensures State() == AddMappingStep(old(State()), register, itemId)
    {
      registerMap := registerMap[register := itemId];
      itemIdMap := itemIdMap[itemId := register];
      if register in cache && itemId in itemListeners && itemId in activeSet {
        var value := cache[register];
        tasks := tasks + [Task(itemListeners[itemId], [SubscriptionChange(Connected), DataChange(Some(value.value), Some(value.attributes), true)])];
      }
    }

    method RemoveMapping(itemId: string)
      modifies this
      ensures State() == RemoveMappingStep(old(State()), itemId)
    {
      if itemId in itemIdMap {
        var registerNumber := itemIdMap[itemId];
        itemIdMap := itemIdMap - {itemId};
        registerMap := registerMap - {registerNumber};
      }
      FireSubscriptionChange(itemId, Granted);
    }

    method FireSubscriptionChange(itemId: string, state: SubscriptionState)
      modifies this
      ensures State() == FireSubscriptionChangeStep(old(State()), itemId, state)
    {
      if itemId !in itemListeners || itemId !in activeSet {
        return;
      }
      tasks := tasks + [Task(itemListeners[itemId], [SubscriptionChange(state)])];
    }

    method SubscribeItem(itemId: string, bound: bool)
      modifies this
      ensures State() == SubscribeItemStep(old(State()), itemId, bound)
    {
      activeSet := activeSet + {itemId};
      var value := if itemId in itemIdMap && itemIdMap[itemId] in cache then Some(cache[itemIdMap[itemId]]) else None;
      if itemId !in itemListeners {
        return;
      }
      tasks := tasks + [Task(itemListeners[itemId], SubscribeCalls(bound, value))];
    }

    method UnsubscribeItem(itemId: string)
      modifies this
      ensures State() == UnsubscribeItemStep(old(State()), itemId)
    {
      FireSubscriptionChange(itemId, Disconnected);
      activeSet := activeSet - {itemId};
    }
  }
}
