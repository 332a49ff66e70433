/** A data source whose value lives in a data store node. It listens on one
    node of the data node tracker, publishes the node's content as its
    value, and writes values back into the node. Until the first node
    content arrives, and whenever content cannot be read, it publishes an
    error value. The tracker is a collaborator: its listener calls are
    recorded as a ledger keyed by node id, its write calls in `writes`, and
    its answers come in as parameters. */
module DataStoreDataSourceModel {
  import opened Common
  import opened Ledger

  /** A data store node: its id and its content. */
  datatype DataNode = DataNode(nodeId: string, data: Variant)

  /** What reading a node's content gives: the value, or an exception with
      its (possibly missing) message. */
  datatype NodeContent = Content(value: Variant) | Unreadable(message: Option<string>)

  /** A snapshot of the data source. `published` holds every value handed
      to the data source's listeners, in order. */
  datatype Source = Source(
    disposed: bool,
    nodeId: Option<string>,
    listenerCalls: seq<Reg<string>>,
    published: seq<DataItemValue>,
    writes: seq<DataNode>)

  /** The data source listens on exactly its current node, and on none
      once disposed. */
  ghost predicate Valid(s: Source) {
    && Holds(s.listenerCalls, Live(s.nodeId))
    && (s.disposed ==> s.nodeId.None?)
  }

  /** `setError`: a CONNECTED value that is NULL, with `node.error` set and,
      when there was an exception, its message as `node.error.message`. */
  function ErrorValue(cause: Option<Option<string>>): (r: DataItemValue)
    ensures r.state == Connected && r.value == Null
    ensures "node.error" in r.attributes && r.attributes["node.error"] == Bool(true)
    ensures cause.None? ==> r.attributes.Keys == {"node.error"}
    ensures cause.Some? ==>
      && r.attributes.Keys == {"node.error", "node.error.message"}
      && r.attributes["node.error.message"] == (if cause.value.Some? then Str(cause.value.value) else Null)
  {
    var attributes := map["node.error" := Bool(true)];
    match cause
    case None => DataItemValue(Null, attributes, Connected)
    case Some(message) =>
      DataItemValue(Null, attributes["node.error.message" := if message.Some? then Str(message.value) else Null], Connected)
  }

  /** `getNodeId`: the configured node id, or a default made from the data
      source's own id. */
  function NodeIdOf(s: Source, id: string): (r: string)
    ensures s.nodeId.Some? ==> r == s.nodeId.value
    ensures s.nodeId.None? ==> r == "org.openscada.da.datasource.ds/" + id
  {
    if s.nodeId.Some? then s.nodeId.value else "org.openscada.da.datasource.ds/" + id
  }

  /** The node id `update` configures: the `node.id` parameter, or a
      default made from the data source's own id. */
  function ConfiguredNodeId(parameters: map<string, string>, id: string): (r: string)
    ensures "node.id" in parameters ==> r == parameters["node.id"]
    ensures "node.id" !in parameters ==> r == "DataSource/" + id
  {
    if "node.id" in parameters then parameters["node.id"] else "DataSource/" + id
  }

  /** `update`: nothing once disposed; otherwise the listener leaves the
      old node, if any, and joins the configured one. */
  function UpdateStep(s: Source, id: string, parameters: map<string, string>): (r: Source)
    ensures s.disposed ==> r == s
    ensures !s.disposed ==>
      var n := ConfiguredNodeId(parameters, id);
      r == s.(nodeId := Some(n),
               listenerCalls := s.listenerCalls + (if s.nodeId.Some? then [Drop(s.nodeId.value)] else []) + [Add(n)])
  {
    if s.disposed then s
    else
      var calls := s.listenerCalls + (if s.nodeId.Some? then [Drop(s.nodeId.value)] else []);
      var n := ConfiguredNodeId(parameters, id);
      s.(nodeId := Some(n), listenerCalls := calls + [Add(n)])
  }

  /** `dispose`: the flag is set and the listener leaves its node, if any. */
  function DisposeStep(s: Source): (r: Source)
    ensures r.disposed && r.nodeId.None?
    ensures r == s.(disposed := true, nodeId := None,
                    listenerCalls := s.listenerCalls + (if s.nodeId.Some? then [Drop(s.nodeId.value)] else []))
  {
    var calls := s.listenerCalls + (if s.nodeId.Some? then [Drop(s.nodeId.value)] else []);
    s.(disposed := true, nodeId := None, listenerCalls := calls)
  }

  /** `nodeChanged`: readable content is published as a CONNECTED value,
      unreadable content as the error value with the exception's message. */
  function NodeChangedStep(s: Source, content: NodeContent): (r: Source)
    ensures r == s.(published := r.published)
    ensures |r.published| == |s.published| + 1 && r.published[..|s.published|] == s.published
    ensures var v := r.published[|s.published|];
      match content
      case Content(x) => v.value == x && v.state == Connected && v.attributes == map[]
      case Unreadable(m) => v == ErrorValue(Some(m))
  {
    match content
    case Content(x) => s.(published := s.published + [DataItemValue(x, map[], Connected)])
    case Unreadable(m) => s.(published := s.published + [ErrorValue(Some(m))])
  }

  /** `startWriteValue`: the value is written to the node `getNodeId`
      names; the write succeeds exactly when the tracker accepts it. */
  function WriteValueStep(s: Source, id: string, value: Variant, accepted: bool): (r: (Source, Result<()>))
    ensures r.0 == s.(writes := s.writes + [DataNode(NodeIdOf(s, id), value)])
    ensures r.1.Success? <==> accepted
  {
    var s1 := s.(writes := s.writes + [DataNode(NodeIdOf(s, id), value)]);
    (s1, if accepted then Success(()) else Failure("Unable to write to data store! Data store missing!"))
  }

  /** `update` and `dispose` keep the listener on exactly the current node. */
  lemma StepsValid(s: Source, id: string, parameters: map<string, string>)
    requires Valid(s)
    ensures Valid(UpdateStep(s, id, parameters))
    ensures Valid(DisposeStep(s))
  {
    var log := s.listenerCalls;
    if s.nodeId.Some? {
      HoldsDrop(log, Live(s.nodeId), s.nodeId.value);
      log := log + [Drop(s.nodeId.value)];
      assert Live(s.nodeId) - {s.nodeId.value} == {};
    }
    assert Holds(log, {});
    assert DisposeStep(s).listenerCalls == log;
    if !s.disposed {
      var n := ConfiguredNodeId(parameters, id);
      HoldsAdd(log, {}, n);
      assert {} + {n} == Live(Some(n));
      assert UpdateStep(s, id, parameters).listenerCalls == log + [Add(n)];
    }
  }

  /** Without a configured node id, writes go to a different node than the
      one `update` listens on by default: the two defaults differ. */
  lemma DefaultNodeIdsDiffer(s: Source, id: string)
    requires s.nodeId.None?
    ensures NodeIdOf(s, id) != ConfiguredNodeId(map[], id)
  {
    assert NodeIdOf(s, id)[0] == 'o';
    assert ConfiguredNodeId(map[], id)[0] == 'D';
  }

  class DataStoreDataSource {
    var disposed: bool
    var nodeId: Option<string>
    var listenerCalls: seq<Reg<string>>
    var published: seq<DataItemValue>
    var writes: seq<DataNode>
    /** The data source's own id. */
    const id: string

    function State(): Source
      reads this
    {
      Source(disposed, nodeId, listenerCalls, published, writes)
    }

    ghost predicate Inv()
      reads this
    {
      Valid(State())
    }

    /** A new data source publishes the error value without a message. */
    constructor (id: string)
      ensures Inv()
      ensures State() == Source(false, None, [], [ErrorValue(None)], [])
      ensures this.id == id
    {
      this.id := id;
      disposed, nodeId, listenerCalls, writes := false, None, [], [];
      published := [];
      new;
      SetError(None);
    }

    method SetError(cause: Option<Option<string>>)
      modifies this
      ensures State() == old(State()).(published := old(published) + [ErrorValue(cause)])
    {
      var attributes := map["node.error" := Bool(true)];
      if cause.Some? {
        attributes := attributes["node.error.message" := if cause.value.Some? then Str(cause.value.value) else Null];
      }
      published := published + [DataItemValue(Null, attributes, Connected)];
    }

    method GetNodeId() returns (r: string)
      ensures r == NodeIdOf(State(), id)
    {
      if nodeId.Some? {
        return nodeId.value;
      }
      return "org.openscada.da.datasource.ds/" + id;
    }

    /** `startWriteAttributes`: always fails. */
    method StartWriteAttributes(attributes: map<string, Variant>) returns (result: Result<()>)
      ensures result.Failure?
    {
      result := Failure("invalid operation");
    }

    /** `startWriteValue`; `accepted` is the tracker's answer to the write. */
    method StartWriteValue(value: Variant, accepted: bool) returns (result: Result<()>)
      requires Inv()
      modifies this
      ensures Inv()
      ensures (State(), result) == WriteValueStep(old(State()), id, value, accepted)
    {
      var n := GetNodeId();
      writes := writes + [DataNode(n, value)];
      if accepted {
        result := Success(());
      } else {
        result := Failure("Unable to write to data store! Data store missing!");
      }
    }

    method Update(parameters: map<string, string>)
      requires Inv()
      modifies this
      ensures Inv()
      ensures State() == UpdateStep(old(State()), id, parameters)
    {
      StepsValid(State(), id, parameters);
      if disposed {
        return;
      }
      if nodeId.Some? {
        listenerCalls := listenerCalls + [Drop(nodeId.value)];
      }
      var n := if "node.id" in parameters then parameters["node.id"] else "DataSource/" + id;
      nodeId := Some(n);
      listenerCalls := listenerCalls + [Add(n)];
    }

    method Dispose()
      requires Inv()
      modifies this
      ensures Inv()
      ensures State() == DisposeStep(old(State()))
    {
      StepsValid(State(), id, map[]);
      disposed := true;
      if nodeId.Some? {
        listenerCalls := listenerCalls + [Drop(nodeId.value)];
        nodeId := None;
      }
    }

    /** `nodeChanged`; `content` is what reading the node's data gives. */
    method NodeChanged(content: NodeContent)
      requires Inv()
      modifies this
      ensures Inv()
      ensures State() == NodeChangedStep(old(State()), content)
    {
      match content {
        case Content(x) =>
          published := published + [DataItemValue(x, map[], Connected)];
        case Unreadable(m) =>
          SetError(Some(m));
      }
    }
  }
}
