/** An output of the process viewer that delivers the value of one data
    item. It stays registered with the data item (as its observer and on
    the connection) exactly while at least one output listener is
    registered; every value change of the item is passed on to the output
    listeners as a VARIANT event. The listener set itself belongs to the
    base output class, which is not part of this model: it is taken to be a
    set of listener ids. */
module DataItemOutputModel {
  import opened Common

  /** The value types an output can deliver. */
  datatype OutputType = VariantType | OtherType(name: string)

  /** Calls on the data item. */
  datatype ItemCall = AddObserver | Register | DeleteObserver | Unregister

  /** An event fired to the output listeners. */
  datatype OutputEvent = OutputEvent(kind: OutputType, value: Variant)

  /** A snapshot of the output. */
  datatype Output = Output(listeners: set<nat>, subscribed: bool, itemCalls: seq<ItemCall>, events: seq<OutputEvent>)

  /** `getSupportedTypes`: the VARIANT type and no other. */
  function SupportedTypes(): (r: set<OutputType>)
    ensures VariantType in r
    ensures forall t :: t in r ==> t == VariantType
  {
    {VariantType}
  }

  /** The call the `k`-th call on the data item must be, counted from 0:
      observe and register, then stop observing and unregister, over and
      over. */
  function CallAt(k: nat): ItemCall {
    match k % 4
    case 0 => AddObserver
    case 1 => Register
    case 2 => DeleteObserver
    case _ => Unregister
  }

  /** The calls on the data item follow the cycle of `CallAt`, stop only
      after a register or an unregister, and the output is subscribed
      exactly when the last of them was a register. */
  ghost predicate Alternates(o: Output) {
    && (forall k :: 0 <= k < |o.itemCalls| ==> o.itemCalls[k] == CallAt(k))
    && (|o.itemCalls| % 4 == 0 || |o.itemCalls| % 4 == 2)
    && (o.subscribed <==> |o.itemCalls| % 4 == 2)
  }

  /** Besides the alternation, the output is subscribed exactly while it
      has listeners. */
  ghost predicate Valid(o: Output) {
    Alternates(o) && (o.subscribed <==> o.listeners != {})
  }

  /** `subscribe`: nothing while subscribed; otherwise observe the item,
      register it and set the flag. */
  function SubscribeStep(o: Output): (r: Output)
    ensures r.subscribed
    ensures o.subscribed ==> r == o
    ensures !o.subscribed ==> r == o.(subscribed := true, itemCalls := o.itemCalls + [AddObserver, Register])
  {
    if o.subscribed then o else o.(subscribed := true, itemCalls := o.itemCalls + [AddObserver, Register])
  }

  /** `unsubscribe`: nothing while not subscribed; otherwise stop observing
      the item, unregister it and clear the flag. */
  function UnsubscribeStep(o: Output): (r: Output)
    ensures !r.subscribed
    ensures !o.subscribed ==> r == o
    ensures o.subscribed ==> r == o.(subscribed := false, itemCalls := o.itemCalls + [DeleteObserver, Unregister])
  {
    if !o.subscribed then o else o.(subscribed := false, itemCalls := o.itemCalls + [DeleteObserver, Unregister])
  }

  /** `addListener`: the listener joins the set, and the output subscribes
      since it now has listeners. */
  function AddListenerStep(o: Output, listener: nat): (r: Output)
    ensures r.listeners == o.listeners + {listener} && r.subscribed
    ensures r == SubscribeStep(o.(listeners := o.listeners + {listener}))
  {
    SubscribeStep(o.(listeners := o.listeners + {listener}))
  }

  /** `removeListener`: the listener leaves the set; the output unsubscribes
      when no listener is left and stays as it is otherwise. */
  function RemoveListenerStep(o: Output, listener: nat): (r: Output)
    ensures r.listeners == o.listeners - {listener}
    ensures r.listeners == {} ==> r == UnsubscribeStep(o.(listeners := {}))
    ensures r.listeners != {} ==> r == o.(listeners := r.listeners)
  {
    var o1 := o.(listeners := o.listeners - {listener});
    if o1.listeners == {} then UnsubscribeStep(o1) else o1
  }

  /** `update`: the item's current value goes to the listeners as a VARIANT
      event. */
  function UpdateStep(o: Output, value: Variant): (r: Output)
    ensures r.events == o.events + [OutputEvent(VariantType, value)]
    ensures r == o.(events := r.events)
  {
    o.(events := o.events + [OutputEvent(VariantType, value)])
  }

  /** Appending the next two calls of the cycle keeps the calls on the
      cycle. */
  lemma {:induction false} CycleSnoc2(calls: seq<ItemCall>, a: ItemCall, b: ItemCall)
    requires forall k :: 0 <= k < |calls| ==> calls[k] == CallAt(k)
    requires a == CallAt(|calls|) && b == CallAt(|calls| + 1)
    ensures forall k :: 0 <= k < |calls + [a, b]| ==> (calls + [a, b])[k] == CallAt(k)
  {
    forall k | 0 <= k < |calls + [a, b]|
      ensures (calls + [a, b])[k] == CallAt(k)
    {
      if k < |calls| {
        assert (calls + [a, b])[k] == calls[k];
      } else if k == |calls| {
        assert (calls + [a, b])[k] == a;
      } else {
        assert (calls + [a, b])[k] == b;
      }
    }
  }

  /** Subscribing keeps register and unregister alternating. */
  lemma SubscribeAlternates(o: Output)
    requires Alternates(o)
    ensures Alternates(SubscribeStep(o))
  {
    if !o.subscribed {
      var n := |o.itemCalls|;
      assert n % 4 == 0;
      assert CallAt(n) == AddObserver && CallAt(n + 1) == Register;
      CycleSnoc2(o.itemCalls, AddObserver, Register);
    }
  }

  /** Unsubscribing keeps register and unregister alternating. */
  lemma UnsubscribeAlternates(o: Output)
    requires Alternates(o)
    ensures Alternates(UnsubscribeStep(o))
  {
    if o.subscribed {
      var n := |o.itemCalls|;
      assert n % 4 == 2;
      assert CallAt(n) == DeleteObserver && CallAt(n + 1) == Unregister;
      CycleSnoc2(o.itemCalls, DeleteObserver, Unregister);
    }
  }

  /** Adding and removing listeners keep the output subscribed exactly
      while it has listeners, with register and unregister alternating. */
  lemma ListenerStepsValid(o: Output, listener: nat)
    requires Valid(o)
    ensures Valid(AddListenerStep(o, listener))
    ensures Valid(RemoveListenerStep(o, listener))
  {
    SubscribeAlternates(o.(listeners := o.listeners + {listener}));
    UnsubscribeAlternates(o.(listeners := o.listeners - {listener}));
  }

  /** A listener that is added and removed again on an output without
      listeners leaves it unsubscribed with one full round of calls on the
      data item: observe, register, stop observing, unregister. */
  lemma AddRemoveRound(o: Output, listener: nat)
    requires Valid(o) && o.listeners == {}
    ensures var r := RemoveListenerStep(AddListenerStep(o, listener), listener);
      && r.listeners == {} && !r.subscribed
      && r.itemCalls == o.itemCalls + [AddObserver, Register, DeleteObserver, Unregister]
  {
  }

  class DataItemOutput {
    var listeners: set<nat>
    var subscribed: bool
    var itemCalls: seq<ItemCall>
    var events: seq<OutputEvent>
    /** The item id the data item was created for. */
    const item: string

    function State(): Output
      reads this
    {
      Output(listeners, subscribed, itemCalls, events)
    }

    ghost predicate Inv()
      reads this
    {
      Valid(State())
    }

    constructor (item: string)
      ensures Inv()
      ensures State() == Output({}, false, [], [])
      ensures this.item == item
    {
      this.item := item;
      listeners, subscribed, itemCalls, events := {}, false, [], [];
    }

    method Subscribe()
      requires Alternates(State())
      modifies this
      ensures Alternates(State())
      ensures State() == SubscribeStep(old(State()))
    {
      SubscribeAlternates(State());
      if subscribed {
        return;
      }
      itemCalls := itemCalls + [AddObserver];
      itemCalls := itemCalls + [Register];
      subscribed := true;
    }

    method Unsubscribe()
      requires Alternates(State())
      modifies this
      ensures Alternates(State())
      ensures State() == UnsubscribeStep(old(State()))
    {
      UnsubscribeAlternates(State());
      if !subscribed {
        return;
      }
      itemCalls := itemCalls + [DeleteObserver];
      itemCalls := itemCalls + [Unregister];
      subscribed := false;
    }

    method GetSupportedTypes() returns (types: set<OutputType>)
      ensures types == SupportedTypes()
    {
      types := {VariantType};
    }

    /** The data item reported a change; `value` is its current value. */
    method Update(value: Variant)
      requires Inv()
      modifies this
      ensures Inv()
      ensures State() == UpdateStep(old(State()), value)
    {
      events := events + [OutputEvent(VariantType, value)];
    }

    method AddListener(listener: nat)
      requires Inv()
      modifies this
      ensures Inv()
      ensures State() == AddListenerStep(old(State()), listener)
    {
      ListenerStepsValid(State(), listener);
      listeners := listeners + {listener};
      if listeners != {} {
        Subscribe();
      }
    }

    method RemoveListener(listener: nat)
      requires Inv()
      modifies this
      ensures Inv()
      ensures State() == RemoveListenerStep(old(State()), listener)
    {
      ListenerStepsValid(State(), listener);
      listeners := listeners - {listener};
      if listeners == {} {
        Unsubscribe();
      }
    }
  }
}
