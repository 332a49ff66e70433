/** The read-all strategy of the simple field protocol client. The server
    announces its registers in browse updates (register number and dotted
    item name) and sends the values of all registers in data updates; the
    strategy polls with ReadAll messages, feeds the data manager, places the
    items in the folder hierarchy by splitting their names at the dots, and
    runs write operations identified by a random operation id. The folder
    manager is a collaborator: what is asked of it is recorded in
    `folderCalls`. */
module ReadAllStrategyModel {
  import opened Common
  import opened Ledger
  import opened SfpDataManager

  /** The states a data update entry may carry. */
  datatype EntryState = Error | Alarm | Warning | ErrorAck | AlarmAck | WarningAck | ManualOverride | Blocked

  /** One entry of a data update. */
  datatype DataEntry = DataEntry(register: int, value: Variant, timestamp: int, states: set<EntryState>)

  /** One entry of a browse update. */
  datatype BrowseEntry = BrowseEntry(register: int, name: string, unit: string, description: string)

  /** Messages the strategy sends to the server. */
  datatype SfpMessage = SubscribeBrowse | ReadAll | WriteCommand(register: int, value: Variant, operationId: int)

  /** Calls on the folder manager. */
  datatype FolderCall = AddEntry(location: seq<string>, name: string, itemId: string, description: string) | DisposeFolders

  /** Runnables handed to the executor. */
  datatype ExecTask = CompleteWrite(handler: nat, operationId: int) | CancelHandlers(handlers: set<nat>)

  // ---------------------------------------------------------------------
  // Converting data update entries

  /** The boolean attributes `convert` sets, with the state each stands
      for. */
  const FlagTable: seq<(string, EntryState)> := [
    ("error", Error), ("alarm", Alarm), ("warning", Warning),
    ("error.ackRequired", ErrorAck), ("alarm.ackRequired", AlarmAck), ("warning.ackRequired", WarningAck),
    ("manual", ManualOverride), ("blocked", Blocked)]

  /** The flags of the table set on top of `base`, each true exactly when
      the entry carries its state. */
  function SetFlags(base: Attributes, table: seq<(string, EntryState)>, states: set<EntryState>): (r: Attributes)
    ensures r.Keys == base.Keys + set i | 0 <= i < |table| :: table[i].0
    ensures forall k :: k in base && (forall i :: 0 <= i < |table| ==> table[i].0 != k) ==> r[k] == base[k]
  {
    if table == [] then base
    else
      var last := table[|table| - 1];
      SetFlags(base, table[..|table| - 1], states)[last.0 := Bool(last.1 in states)]
  }

  lemma {:induction false} SetFlagsLookup(base: Attributes, table: seq<(string, EntryState)>, states: set<EntryState>, i: nat)
    requires i < |table|
    requires forall j, k :: 0 <= j < k < |table| ==> table[j].0 != table[k].0
    ensures SetFlags(base, table, states)[table[i].0] == Bool(table[i].1 in states)
  {
    if i < |table| - 1 {
      SetFlagsLookup(base, table[..|table| - 1], states, i);
    }
  }

  /** The attribute names `convert` uses are all different. */
  lemma FlagNamesDistinct()
    ensures forall j, k :: 0 <= j < k < |FlagTable| ==> FlagTable[j].0 != FlagTable[k].0
    ensures forall i :: 0 <= i < |FlagTable| ==> FlagTable[i].0 != "timestamp" && FlagTable[i].0 != "sfp.register"
  {
  }

  /** `convert`: the entry's value, CONNECTED, and the timestamp, the
      register number and the flags as attributes. */
  function Convert(e: DataEntry): (r: DataItemValue)
    ensures r.value == e.value && r.state == Connected
  {
    var base := map["timestamp" := Long(e.timestamp), "sfp.register" := Int(e.register)];
    DataItemValue(e.value, SetFlags(base, FlagTable, e.states), Connected)
  }

  /** A converted entry carries ten attributes: the timestamp, the register
      number and one flag per entry of the flag table, true exactly when the
      entry carries that state. */
  lemma ConvertAttributes(e: DataEntry)
    ensures Convert(e).attributes.Keys == {"timestamp", "sfp.register"} + set i | 0 <= i < |FlagTable| :: FlagTable[i].0
    ensures Convert(e).attributes["timestamp"] == Long(e.timestamp)
    ensures Convert(e).attributes["sfp.register"] == Int(e.register)
    ensures forall i :: 0 <= i < |FlagTable| ==> Convert(e).attributes[FlagTable[i].0] == Bool(FlagTable[i].1 in e.states)
  {
    FlagNamesDistinct();
    var base := map["timestamp" := Long(e.timestamp), "sfp.register" := Int(e.register)];
    forall i | 0 <= i < |FlagTable|
      ensures Convert(e).attributes[FlagTable[i].0] == Bool(FlagTable[i].1 in e.states)
    {
      SetFlagsLookup(base, FlagTable, e.states, i);
    }
  }

  // ---------------------------------------------------------------------
  // Splitting item names at the dots

  /** The position of the first dot. */
  function FirstDot(s: string): (k: nat)
    requires '.' in s
    ensures k < |s| && s[k] == '.' && '.' !in s[..k]
  {
    if s[0] == '.' then 0 else 1 + FirstDot(s[1..])
  }

  /** All pieces between the dots, empty ones included. */
  function SplitAll(s: string): (r: seq<string>)
    ensures |r| >= 1
    ensures forall i :: 0 <= i < |r| ==> '.' !in r[i]
    decreases |s|
  {
    if '.' !in s then [s]
    else
      var k := FirstDot(s);
      [s[..k]] + SplitAll(s[k + 1..])
  }

  /** Pieces joined with dots. */
  function Join(xs: seq<string>): string {
    if |xs| == 0 then "" else if |xs| == 1 then xs[0] else xs[0] + "." + Join(xs[1..])
  }

  /** Trailing empty pieces removed. */
  function DropTrailingEmpty(xs: seq<string>): (r: seq<string>)
    ensures |r| <= |xs| && r == xs[..|r|]
    ensures r != [] ==> r[|r| - 1] != ""
    ensures forall i :: |r| <= i < |xs| ==> xs[i] == ""
  {
    if |xs| > 0 && xs[|xs| - 1] == "" then DropTrailingEmpty(xs[..|xs| - 1]) else xs
  }

  /** `name.split("\\.")` as Java computes it: without a dot the whole
      name; otherwise the pieces between the dots with trailing empty pieces
      removed. */
  function JavaSplitDot(s: string): seq<string> {
    if '.' !in s then [s] else DropTrailingEmpty(SplitAll(s))
  }

  /** Splitting at every dot and joining with dots gives the name back. */
  lemma {:induction false} JoinSplitAll(s: string)
    ensures Join(SplitAll(s)) == s
    decreases |s|
  {
    if '.' in s {
      var k := FirstDot(s);
      JoinSplitAll(s[k + 1..]);
      assert SplitAll(s)[1..] == SplitAll(s[k + 1..]);
      assert s == s[..k] + "." + s[k + 1..];
    }
  }

  /** A non-empty name that does not end in a dot has a non-empty last
      piece. */
  lemma {:induction false} SplitAllLastNonEmpty(s: string)
    requires |s| > 0 && s[|s| - 1] != '.'
    ensures SplitAll(s)[|SplitAll(s)| - 1] != ""
    decreases |s|
  {
    var r := SplitAll(s);
    if '.' !in s {
      assert r == [s];
    } else {
      var k := FirstDot(s);
      var t := s[k + 1..];
      assert t[|t| - 1] == s[|s| - 1];
      SplitAllLastNonEmpty(t);
      var rest := SplitAll(t);
      assert r == [s[..k]] + rest;
      assert r[|r| - 1] == rest[|rest| - 1];
    }
  }

  /** A name made of dots only splits into nothing. */
  lemma {:induction false} SplitAllDots(s: string)
    requires forall i :: 0 <= i < |s| ==> s[i] == '.'
    ensures forall i :: 0 <= i < |SplitAll(s)| ==> SplitAll(s)[i] == ""
    decreases |s|
  {
    if |s| > 0 {
      assert s[0] == '.';
      var k := FirstDot(s);
      assert k == 0;
      SplitAllDots(s[1..]);
      assert s[..0] == "" && s[1..] == s[k + 1..];
      assert SplitAll(s) == [""] + SplitAll(s[1..]);
      assert forall i :: 1 <= i < |SplitAll(s)| ==> SplitAll(s)[i] == SplitAll(s[1..])[i - 1];
    } else {
      assert SplitAll(s) == [""];
    }
  }

  /** Where an item goes in the folder hierarchy. */
  datatype Placement = Placement(location: seq<string>, entryName: string)

  /** `makeItemHiearchy` and its use in `processBrowseUpdate`: a name that
      splits into one piece goes to the root folder under its full name;
      otherwise the last piece is the entry name and the earlier pieces the
      folder location. A name that splits into nothing (only dots) makes
      taking the last piece fail. */
  function PlaceItem(name: string): (r: Result<Placement>)
    ensures '.' !in name ==> r == Success(Placement([], name))
  {
    var toks := JavaSplitDot(name);
    if |toks| == 1 then Success(Placement([], name))
    else if |toks| == 0 then Failure("NoSuchElementException")
    else Success(Placement(toks[..|toks| - 1], toks[|toks| - 1]))
  }

  lemma InitLast<T>(s: seq<T>)
    requires |s| > 0
    ensures s[..|s| - 1] + [s[|s| - 1]] == s
  {
  }

  lemma TakeDrop<T>(s: seq<T>, n: nat)
    requires n <= |s|
    ensures s[..n] + s[n..] == s
  {
  }

  /** A dotted name that does not end in a dot is placed at the folder
      named by its leading pieces, under its last piece, and the pieces
      joined again give the name. */
  lemma PlaceItemRoundTrip(name: string)
    requires '.' in name && name[|name| - 1] != '.'
    ensures PlaceItem(name).Success?
    ensures var p := PlaceItem(name).value;
      && |p.location| >= 1
      && Join(p.location + [p.entryName]) == name
      && '.' !in p.entryName
      && forall i :: 0 <= i < |p.location| ==> '.' !in p.location[i]
  {
    var r := SplitAll(name);
    var k := FirstDot(name);
    assert r == [name[..k]] + SplitAll(name[k + 1..]);
    assert |r| >= 2;
    SplitAllLastNonEmpty(name);
    assert DropTrailingEmpty(r) == r;
    assert JavaSplitDot(name) == r;
    var p := Placement(r[..|r| - 1], r[|r| - 1]);
    assert PlaceItem(name) == Success(p);
    JoinSplitAll(name);
    InitLast(r);
    assert Join(p.location + [p.entryName]) == name;
    assert '.' !in p.entryName;
    assert forall i :: 0 <= i < |p.location| ==> p.location[i] == r[i];
  }

  /** A name of dots only cannot be placed: processing stops there. */
  lemma PlaceItemAllDots(name: string)
    requires |name| > 0 && forall i :: 0 <= i < |name| ==> name[i] == '.'
    ensures PlaceItem(name).Failure?
  {
    SplitAllDots(name);
    assert name[0] == '.';
    var r := SplitAll(name);
    assert DropTrailingEmpty(r) == [];
  }

  /** A name with a single trailing dot splits into one piece, so the item
      goes to the root folder under its full name, dot included. */
  lemma PlaceItemTrailingDot(name: string)
    requires |name| > 1 && '.' !in name[..|name| - 1] && name[|name| - 1] == '.'
    ensures PlaceItem(name) == Success(Placement([], name))
  {
    var k := FirstDot(name);
    assert k == |name| - 1;
    assert SplitAll(name[k + 1..]) == [""];
    assert SplitAll(name) == [name[..k], ""];
    assert name[..k] != "";
    assert DropTrailingEmpty(SplitAll(name)) == [name[..k]];
  }

  // ---------------------------------------------------------------------
  // The effect of data and browse updates on the data manager

  /** The registers of a data update. */
  function Registers(entries: seq<DataEntry>): (r: set<int>)
    ensures forall i :: 0 <= i < |entries| ==> entries[i].register in r
    ensures forall x :: x in r ==> exists i :: 0 <= i < |entries| && entries[i].register == x
  {
    set i | 0 <= i < |entries| :: entries[i].register
  }

  /** `updateData` for every entry, in order. */
  function UpdateAll(d: Manager, entries: seq<DataEntry>, diff: (Attributes, Attributes) -> Attributes): Manager {
    if entries == [] then d
    else
      var last := entries[|entries| - 1];
      UpdateDataStep(UpdateAll(d, entries[..|entries| - 1], diff), last.register, Convert(last), diff)
  }

  /** `removeRegister` for every register, in order. */
  function RemoveAll(d: Manager, registers: seq<int>): Manager {
    if registers == [] then d
    else RemoveRegisterStep(RemoveAll(d, registers[..|registers| - 1]), registers[|registers| - 1])
  }

  /** A data update leaves the register mapping alone. */
  lemma {:induction false} UpdateAllKeepsMapping(d: Manager, entries: seq<DataEntry>, diff: (Attributes, Attributes) -> Attributes)
    ensures UpdateAll(d, entries, diff).registerMap == d.registerMap
    ensures UpdateAll(d, entries, diff).itemListeners == d.itemListeners
  {
    if entries != [] {
      UpdateAllKeepsMapping(d, entries[..|entries| - 1], diff);
    }
  }

  /** After a data update the cache holds exactly the registers it held
      before and those of the entries. */
  lemma {:induction false} UpdateAllCaches(d: Manager, entries: seq<DataEntry>, diff: (Attributes, Attributes) -> Attributes)
    ensures UpdateAll(d, entries, diff).cache.Keys == d.cache.Keys + Registers(entries)
  {
    if entries != [] {
      var n := |entries| - 1;
      UpdateAllCaches(d, entries[..n], diff);
      UpdateAllLast(d, entries, diff);
      PrefixSnoc(entries, n);
      assert entries[..n + 1] == entries;
    }
  }

  /** After a data update the last entry's converted value is cached under
      its register; the earlier entries' cache entries are what the update
      without the last entry left. */
  lemma UpdateAllLast(d: Manager, entries: seq<DataEntry>, diff: (Attributes, Attributes) -> Attributes)
    requires entries != []
    ensures var last := entries[|entries| - 1];
      UpdateAll(d, entries, diff).cache == UpdateAll(d, entries[..|entries| - 1], diff).cache[last.register := Convert(last)]
  {
  }

  /** Removing registers leaves the cache without them and keeps every
      other register's cached value. */
  lemma {:induction false} RemoveAllCache(d: Manager, registers: seq<int>)
    ensures RemoveAll(d, registers).cache == d.cache - Elements(registers)
  {
    if registers != [] {
      var init := registers[..|registers| - 1];
      RemoveAllCache(d, init);
      assert Elements(registers) == Elements(init) + {registers[|registers| - 1]};
    }
  }

  /** The state a browse update works through. `error` is set when an
      entry could not be placed; later entries are then not processed. */
  datatype BrowseState = BrowseState(manager: Manager, folderCalls: seq<FolderCall>, error: Option<string>)

  /** One browse entry: the mapping is added first, then the item is
      placed. */
  function BrowseOne(s: BrowseState, e: BrowseEntry): (r: BrowseState)
    ensures r.manager == AddMappingStep(s.manager, e.register, e.name)
    ensures FindRegister(r.manager, e.name) == Some(e.register)
    ensures PlaceItem(e.name).Failure? ==> r.error.Some? && r.folderCalls == s.folderCalls
    ensures PlaceItem(e.name).Success? ==>
      var p := PlaceItem(e.name).value;
      r.error == s.error && r.folderCalls == s.folderCalls + [AddEntry(p.location, p.entryName, e.name, e.description)]
  {
    var m := AddMappingStep(s.manager, e.register, e.name);
    match PlaceItem(e.name)
    case Failure(err) => BrowseState(m, s.folderCalls, Some(err))
    case Success(p) => BrowseState(m, s.folderCalls + [AddEntry(p.location, p.entryName, e.name, e.description)], s.error)
  }

  /** The entries of a browse update, in order, up to the first failure. */
  function BrowseAll(s: BrowseState, entries: seq<BrowseEntry>): BrowseState {
    if entries == [] then s
    else
      var p := BrowseAll(s, entries[..|entries| - 1]);
      if p.error.Some? then p else BrowseOne(p, entries[|entries| - 1])
  }

  /** The folder call that places entry `e`: at the placement of its name,
      with its full name as the item id and its description. */
  function EntryCall(e: BrowseEntry): (r: FolderCall)
    requires PlaceItem(e.name).Success?
    ensures r.AddEntry? && r.itemId == e.name && r.description == e.description
    ensures r.location == PlaceItem(e.name).value.location && r.name == PlaceItem(e.name).value.entryName
  {
    var p := PlaceItem(e.name).value;
    AddEntry(p.location, p.entryName, e.name, e.description)
  }

  /** When every name can be placed, a browse update maps every name and
      places every entry, one folder call each, in order. */
  lemma {:induction false} BrowseAllPlacesEvery(s: BrowseState, entries: seq<BrowseEntry>)
    requires s.error.None?
    requires forall i :: 0 <= i < |entries| ==> PlaceItem(entries[i].name).Success?
    ensures var r := BrowseAll(s, entries);
      && r.error.None?
      && |r.folderCalls| == |s.folderCalls| + |entries|
      && r.folderCalls[..|s.folderCalls|] == s.folderCalls
      && (forall i :: 0 <= i < |entries| ==> r.folderCalls[|s.folderCalls| + i] == EntryCall(entries[i]))
      && (|entries| > 0 ==> FindRegister(r.manager, entries[|entries| - 1].name) == Some(entries[|entries| - 1].register))
  {
    if entries != [] {
      var init := entries[..|entries| - 1];
      var last := entries[|entries| - 1];
      assert forall i :: 0 <= i < |init| ==> init[i] == entries[i];
      BrowseAllPlacesEvery(s, init);
      var p := BrowseAll(s, init);
      assert p.error.None? && |p.folderCalls| == |s.folderCalls| + |init|;
      var r := BrowseOne(p, last);
      assert BrowseAll(s, entries) == r;
      assert r.folderCalls == p.folderCalls + [EntryCall(last)];
      forall i | 0 <= i < |entries|
        ensures r.folderCalls[|s.folderCalls| + i] == EntryCall(entries[i])
      {
        if i < |init| {
          assert r.folderCalls[|s.folderCalls| + i] == p.folderCalls[|s.folderCalls| + i];
          assert init[i] == entries[i];
        } else {
          assert i == |init|;
        }
      }
    }
  }

  // ---------------------------------------------------------------------
  // The loops over the data manager

  /** The first loop of `processDataUpdate`. */
  method ApplyUpdates(dm: DataManager, entries: seq<DataEntry>, diff: (Attributes, Attributes) -> Attributes)
    returns (registers: set<int>)
    modifies dm
    ensures registers == Registers(entries)
    ensures dm.State() == UpdateAll(old(dm.State()), entries, diff)
  {
    registers := {};
    for i := 0 to |entries|
      invariant registers == Registers(entries[..i])
      invariant dm.State() == UpdateAll(old(dm.State()), entries[..i], diff)
    {
      PrefixSnoc(entries, i);
      dm.UpdateData(entries[i].register, Convert(entries[i]), diff);
      registers := registers + {entries[i].register};
    }
    assert entries[..|entries|] == entries;
  }

  lemma PrefixSnoc(entries: seq<DataEntry>, i: nat)
    requires i < |entries|
    ensures entries[..i + 1][..i] == entries[..i] && entries[..i + 1][i] == entries[i]
    ensures Registers(entries[..i + 1]) == Registers(entries[..i]) + {entries[i].register}
  {
    assert entries[..i + 1] == entries[..i] + [entries[i]];
  }

  /** The second loop of `processDataUpdate`: every register of `removed`
      once, in the set's iteration order. */
  method ApplyRemovals(dm: DataManager, removed: set<int>) returns (ghost order: seq<int>)
    modifies dm
    ensures Distinct(order) && Elements(order) == removed
    ensures dm.State() == RemoveAll(old(dm.State()), order)
  {
    order := [];
    var rest := removed;
    ghost var start := dm.State();
    while rest != {}
      invariant rest <= removed && Elements(order) == removed - rest
      invariant Distinct(order)
      invariant dm.State() == RemoveAll(start, order)
      decreases rest
    {
      assert exists x :: x in rest by {
        if forall x :: x !in rest {
          assert false;
        }
      }
      var r :| r in rest;
      dm.RemoveRegister(r);
      assert (order + [r])[..|order|] == order;
      ElementsSnoc(order, r);
      order := order + [r];
      rest := rest - {r};
    }
  }

  /** The entry loop of `processBrowseUpdate`: each entry is mapped, then
      placed; the first entry that cannot be placed ends the loop. */
  method ApplyBrowse(dm: DataManager, entries: seq<BrowseEntry>, calls: seq<FolderCall>)
    returns (folderCalls: seq<FolderCall>, error: Option<string>)
    modifies dm
    ensures BrowseState(dm.State(), folderCalls, error) == BrowseAll(BrowseState(old(dm.State()), calls, None), entries)
  {
    ghost var start := BrowseState(dm.State(), calls, None);
    folderCalls, error := calls, None;
    var i := 0;
    while i < |entries|
      invariant 0 <= i <= |entries|
      invariant BrowseState(dm.State(), folderCalls, None) == BrowseAll(start, entries[..i])
    {
      var e := entries[i];
      BrowseAllSnoc(start, entries, i);
      dm.AddMapping(e.register, e.name);
      var placed := PlaceItem(e.name);
      if placed.Failure? {
        error := Some(placed.error);
        BrowseAllStops(start, entries[..i + 1], entries[i + 1..]);
        TakeDrop(entries, i + 1);
        return;
      }
      folderCalls := folderCalls + [AddEntry(placed.value.location, placed.value.entryName, e.name, e.description)];
      i := i + 1;
    }
    assert entries[..i] == entries;
  }

  lemma BrowseAllSnoc(s: BrowseState, entries: seq<BrowseEntry>, i: nat)
    requires i < |entries|
    ensures var p := BrowseAll(s, entries[..i]);
      BrowseAll(s, entries[..i + 1]) == if p.error.Some? then p else BrowseOne(p, entries[i])
  {
    assert entries[..i + 1][..i] == entries[..i];
  }

  // ---------------------------------------------------------------------
  // The strategy object

  class ReadAllStrategy {
    const dataManager: DataManager
    const pollDelay: int
    var previousRegisters: set<int>
    /** Whether a poll job is scheduled. */
    var pollJob: bool
    /** Scheduling (`Add`) and cancelling (`Drop`) of the poll job. */
    var pollCalls: seq<Reg<()>>
    /** Pending write operations: operation id to write handler. */
    var writeHandlerMap: map<int, nat>
    var nextHandler: nat
    var sent: seq<SfpMessage>
    var folderCalls: seq<FolderCall>
    var executed: seq<ExecTask>

    /** At most one poll job is live at any time, and it is live exactly
        when `pollJob` is set; handlers have serials below `nextHandler`. */
    ghost predicate Inv()
      reads this
    {
      && Holds(pollCalls, if pollJob then {()} else {})
      && forall op :: op in writeHandlerMap ==> writeHandlerMap[op] < nextHandler
    }

    /** A new strategy subscribes to the browse data at once. */
    constructor (pollDelay: int)
      ensures Inv() && fresh(dataManager)
      ensures dataManager.State() == Manager(map[], map[], map[], map[], {}, [])
      ensures sent == [SubscribeBrowse] && !pollJob && previousRegisters == {} && writeHandlerMap == map[]
      ensures this.pollDelay == pollDelay
    {
      this.pollDelay := pollDelay;
      dataManager := new DataManager();
      previousRegisters, pollJob, pollCalls, writeHandlerMap, nextHandler := {}, false, [], map[], 0;
      sent, folderCalls, executed := [SubscribeBrowse], [], [];
    }

    /** The poll job's body. */
    method TriggerReadAll()
      modifies this
      ensures sent == old(sent) + [ReadAll]
      ensures unchanged(this`pollJob, this`pollCalls, this`writeHandlerMap, this`nextHandler, this`previousRegisters)
      ensures folderCalls == old(folderCalls) && executed == old(executed)
    {
      sent := sent + [ReadAll];
    }

    /** `processDataUpdate`: every entry goes to `updateData`; registers of
        the previous update that are missing from this one go to
        `removeRegister`; the registers of this update become the previous
        ones. */
    method ProcessDataUpdate(entries: seq<DataEntry>, diff: (Attributes, Attributes) -> Attributes)
      returns (ghost removedOrder: seq<int>)
      requires Inv()
      modifies this, dataManager
      ensures Inv()
      ensures previousRegisters == Registers(entries)
      ensures Distinct(removedOrder) && Elements(removedOrder) == old(previousRegisters) - Registers(entries)
      ensures Elements(removedOrder) !! Registers(entries)
      ensures dataManager.State() == RemoveAll(UpdateAll(old(dataManager.State()), entries, diff), removedOrder)
      ensures unchanged(this`pollJob, this`pollCalls, this`writeHandlerMap, this`nextHandler, this`sent, this`folderCalls, this`executed)
    {
      var registers := ApplyUpdates(dataManager, entries, diff);
      var removed := previousRegisters - registers;
      removedOrder := ApplyRemovals(dataManager, removed);
      previousRegisters := registers;
    }

    /** `processBrowseUpdate`: every entry is mapped and placed in order;
        a name that cannot be placed stops the update there, with the poll
        job not started. Otherwise the poll job is scheduled unless it
        already is. */
    method ProcessBrowseUpdate(entries: seq<BrowseEntry>) returns (error: Option<string>)
      requires Inv()
      modifies this, dataManager
      ensures Inv()
      ensures BrowseState(dataManager.State(), folderCalls, error)
           == BrowseAll(BrowseState(old(dataManager.State()), old(folderCalls), None), entries)
      ensures error.Some? ==> pollJob == old(pollJob) && pollCalls == old(pollCalls)
      ensures error.None? && old(pollJob) ==> pollJob && pollCalls == old(pollCalls)
      ensures error.None? && !old(pollJob) ==> pollJob && pollCalls == old(pollCalls) + [Add(())]
      ensures unchanged(this`writeHandlerMap, this`nextHandler, this`sent, this`executed, this`previousRegisters)
    {
      var calls;
      calls, error := ApplyBrowse(dataManager, entries, folderCalls);
      folderCalls := calls;
      if error.Some? {
        return;
      }
      if !pollJob {
        HoldsAdd(pollCalls, {}, ());
        pollJob := true;
        pollCalls := pollCalls + [Add(())];
      }
    }

    /** `processWriteResult`: the handler of the operation is removed and
        completed on the executor; an unknown operation id is ignored. */
    method ProcessWriteResult(operationId: int)
      requires Inv()
      modifies this
      ensures Inv()
      ensures writeHandlerMap == old(writeHandlerMap) - {operationId}
      ensures operationId !in old(writeHandlerMap) ==> executed == old(executed)
      ensures operationId in old(writeHandlerMap) ==>
        executed == old(executed) + [CompleteWrite(old(writeHandlerMap)[operationId], operationId)]
      ensures unchanged(this`pollJob, this`pollCalls, this`nextHandler, this`sent, this`folderCalls, this`previousRegisters)
    {
      if operationId !in writeHandlerMap {
        return;
      }
      var handler := writeHandlerMap[operationId];
      writeHandlerMap := writeHandlerMap - {operationId};
      executed := executed + [CompleteWrite(handler, operationId)];
    }

    /** `startWrite`: operation ids are drawn from `draws` (the random
        generator's successive values) until one is not in use. An item
        without a register gives an error and neither sends nor stores
        anything; otherwise one write command goes out and a new handler is
        stored under the chosen id. */
    method StartWrite(itemId: string, value: Variant, draws: seq<Int32>) returns (r: Result<nat>, operationId: int)
      requires Inv()
      requires exists i :: 0 <= i < |draws| && draws[i] !in writeHandlerMap
      modifies this
      ensures Inv()
      ensures operationId !in old(writeHandlerMap)
      ensures exists n :: 0 <= n < |draws| && draws[n] == operationId && forall j :: 0 <= j < n ==> draws[j] in old(writeHandlerMap)
      ensures FindRegister(dataManager.State(), itemId).None? ==>
        && r == Failure("Item '" + itemId + "' is unknown")
        && sent == old(sent) && writeHandlerMap == old(writeHandlerMap)
      ensures FindRegister(dataManager.State(), itemId).Some? ==>
        && r == Success(old(nextHandler))
        && sent == old(sent) + [WriteCommand(FindRegister(dataManager.State(), itemId).value, value, operationId)]
        && writeHandlerMap == old(writeHandlerMap)[operationId := old(nextHandler)]
      ensures unchanged(this`pollJob, this`pollCalls, this`folderCalls, this`executed, this`previousRegisters)
    {
      var n := 0;
      while true
        invariant 0 <= n < |draws|
        invariant forall j :: 0 <= j < n ==> draws[j] in writeHandlerMap
        invariant exists i :: n <= i < |draws| && draws[i] !in writeHandlerMap
        decreases |draws| - n
      {
        operationId := draws[n];
        if operationId !in writeHandlerMap {
          break;
        }
        n := n + 1;
      }
      var handler := nextHandler;
      nextHandler := nextHandler + 1;
      var registerNumber := dataManager.FindRegisterOf(itemId);
      if registerNumber.None? {
        r := Failure("Item '" + itemId + "' is unknown");
        return;
      }
      sent := sent + [WriteCommand(registerNumber.value, value, operationId)];
      writeHandlerMap := writeHandlerMap[operationId := handler];
      r := Success(handler);
    }

    /** `dispose`: the poll job is cancelled, all pending write handlers are
        cancelled together on the executor and forgotten, then the folder
        manager and the data manager are disposed; `items` is the order in
        which the data manager's listener map yields its entries. */
    method Dispose() returns (ghost items: seq<string>)
      requires Inv()
      modifies this, dataManager
      ensures Inv()
      ensures !pollJob && writeHandlerMap == map[]
      ensures pollCalls == if old(pollJob) then old(pollCalls) + [Drop(())] else old(pollCalls)
      ensures executed == if old(writeHandlerMap) == map[] then old(executed)
                          else old(executed) + [CancelHandlers(old(writeHandlerMap).Values)]
      ensures folderCalls == old(folderCalls) + [DisposeFolders]
      ensures ItemOrder(old(dataManager.itemListeners), items)
      ensures dataManager.State() == DisposeStep(old(dataManager.State()), items)
      ensures unchanged(this`sent, this`nextHandler, this`previousRegisters)
    {
      if pollJob {
        HoldsDrop(pollCalls, {()}, ());
        pollCalls := pollCalls + [Drop(())];
        pollJob := false;
      }
      if writeHandlerMap != map[] {
        executed := executed + [CancelHandlers(writeHandlerMap.Values)];
        writeHandlerMap := map[];
      }
      folderCalls := folderCalls + [DisposeFolders];
      items := dataManager.Dispose();
    }

    method SubscribeItem(itemId: string, bound: bool)
      modifies dataManager
      ensures dataManager.State() == SubscribeItemStep(old(dataManager.State()), itemId, bound)
    {
      dataManager.SubscribeItem(itemId, bound);
    }

    method UnsubscribeItem(itemId: string)
      modifies dataManager
      ensures dataManager.State() == UnsubscribeItemStep(old(dataManager.State()), itemId)
    {
      dataManager.UnsubscribeItem(itemId);
    }
  }

  /** Once a browse update has failed, later entries change nothing. */
  lemma {:induction false} BrowseAllStops(s: BrowseState, done: seq<BrowseEntry>, later: seq<BrowseEntry>)
    requires BrowseAll(s, done).error.Some?
    ensures BrowseAll(s, done + later) == BrowseAll(s, done)
    decreases |later|
  {
    if later != [] {
      var init := later[..|later| - 1];
      BrowseAllStops(s, done, init);
      assert (done + later)[..|done + later| - 1] == done + init;
    } else {
      assert done + later == done;
    }
  }
}
