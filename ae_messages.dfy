/** The subscribe and unsubscribe requests of the alarms and events network
    protocol. Each request is a plain object with a query id and a listener
    id (the subscribe request also with a batch size and an archive set)
    that is written to, and read back from, a protocol message: a command
    code and a map from keys to typed values. Reading a message that lacks a
    required key, or holds a value of the wrong type, throws; here it is a
    `Failure`. */
module AeMessagesModel {
  import opened Common

  /** The command codes of protocol messages. */
  datatype CommandCode = CcSubscribe | CcUnsubscribe | OtherCode(code: int)

  /** The typed values of a protocol message. A string value may hold null;
      every other kind of value is summed up by its printed text. */
  datatype Value =
    | StringValue(s: Option<string>)
    | LongValue(l: Int64)
    | IntegerValue(i: Int32)
    | OtherValue(text: string)

  datatype Message = Message(commandCode: CommandCode, values: map<string, Value>)

  /** `toString` of a value: a string value prints its contents (null for
      null), a number its decimal digits. */
  function Printed(v: Value): (r: Option<string>)
    ensures v.StringValue? ==> r == v.s
    ensures !v.StringValue? ==> r.Some?
  {
    match v
    case StringValue(s) => s
    case LongValue(l) => Some(DecimalString(l))
    case IntegerValue(i) => Some(DecimalString(i))
    case OtherValue(text) => Some(text)
  }

  /** The fields of a subscribe request. */
  datatype SubscribeFields = SubscribeFields(queryId: Option<string>, listenerId: Int64, maxBatchSize: Int32, archiveSet: Int32)

  /** The fields of an unsubscribe request. */
  datatype UnsubscribeFields = UnsubscribeFields(queryId: Option<string>, listenerId: Int64)

  /** `SubscribeMessage.toMessage`. */
  function EncodeSubscribe(f: SubscribeFields): (r: Message)
    ensures r.commandCode == CcSubscribe
    ensures r.values.Keys == {"query-id", "listener-id", "max-batch-size", "archive-set"}
    ensures r.values["query-id"] == StringValue(f.queryId)
    ensures r.values["listener-id"] == LongValue(f.listenerId)
    ensures r.values["max-batch-size"] == IntegerValue(f.maxBatchSize)
    ensures r.values["archive-set"] == IntegerValue(f.archiveSet)
  {
    Message(CcSubscribe, map[
      "query-id" := StringValue(f.queryId),
      "listener-id" := LongValue(f.listenerId),
      "max-batch-size" := IntegerValue(f.maxBatchSize),
      "archive-set" := IntegerValue(f.archiveSet)])
  }

  /** An optional integer value: 0 when the key is missing, a failure when
      the value is not an integer value. */
  function OptionalInteger(values: map<string, Value>, key: string): (r: Result<Int32>)
    ensures key !in values ==> r == Success(0)
    ensures key in values ==> (r.Success? <==> values[key].IntegerValue?)
    ensures key in values && values[key].IntegerValue? ==> r.value == values[key].i
  {
    if key !in values then Success(0)
    else match values[key]
      case IntegerValue(i) => Success(i)
      case _ => Failure("ClassCastException: " + key)
  }

  /** The query id and listener id every request carries: the query id is
      whatever the `query-id` value prints; both keys must be present and
      the listener id must be a long value. */
  function DecodeIds(values: map<string, Value>): (r: Result<(Option<string>, Int64)>)
    ensures r.Success? <==> "query-id" in values && "listener-id" in values && values["listener-id"].LongValue?
    ensures r.Success? ==> r.value == (Printed(values["query-id"]), values["listener-id"].l)
  {
    if "query-id" !in values then Failure("NullPointerException: query-id")
    else if "listener-id" !in values then Failure("NullPointerException: listener-id")
    else match values["listener-id"]
      case LongValue(l) => Success((Printed(values["query-id"]), l))
      case _ => Failure("ClassCastException: listener-id")
  }

  /** `SubscribeMessage.fromMessage`. The command code is not looked at. */
  function DecodeSubscribe(m: Message): (r: Result<SubscribeFields>)
    ensures r.Success? <==>
      && DecodeIds(m.values).Success?
      && OptionalInteger(m.values, "max-batch-size").Success?
      && OptionalInteger(m.values, "archive-set").Success?
    ensures r.Success? ==> r.value == SubscribeFields(
      DecodeIds(m.values).value.0, DecodeIds(m.values).value.1,
      OptionalInteger(m.values, "max-batch-size").value, OptionalInteger(m.values, "archive-set").value)
  {
    var ids := DecodeIds(m.values);
    if ids.Failure? then Failure(ids.error)
    else
      var size := OptionalInteger(m.values, "max-batch-size");
      if size.Failure? then Failure(size.error)
      else
        var archive := OptionalInteger(m.values, "archive-set");
        if archive.Failure? then Failure(archive.error)
        else Success(SubscribeFields(ids.value.0, ids.value.1, size.value, archive.value))
  }

  /** `UnsubscribeMessage.toMessage`. */
  function EncodeUnsubscribe(f: UnsubscribeFields): (r: Message)
    ensures r.commandCode == CcUnsubscribe
    ensures r.values.Keys == {"query-id", "listener-id"}
    ensures r.values["query-id"] == StringValue(f.queryId)
    ensures r.values["listener-id"] == LongValue(f.listenerId)
  {
    Message(CcUnsubscribe, map["query-id" := StringValue(f.queryId), "listener-id" := LongValue(f.listenerId)])
  }

  /** `UnsubscribeMessage.fromMessage`. The command code is not looked at. */
  function DecodeUnsubscribe(m: Message): (r: Result<UnsubscribeFields>)
    ensures r.Success? <==> DecodeIds(m.values).Success?
    ensures r.Success? ==> r.value == UnsubscribeFields(DecodeIds(m.values).value.0, DecodeIds(m.values).value.1)
  {
    var ids := DecodeIds(m.values);
    if ids.Failure? then Failure(ids.error) else Success(UnsubscribeFields(ids.value.0, ids.value.1))
  }

  /** Reading back a written subscribe request gives the same fields. */
  lemma SubscribeRoundTrip(f: SubscribeFields)
    ensures DecodeSubscribe(EncodeSubscribe(f)) == Success(f)
  {
    var m := EncodeSubscribe(f);
    assert DecodeIds(m.values) == Success((f.queryId, f.listenerId));
  }

  /** Reading back a written unsubscribe request gives the same fields. */
  lemma UnsubscribeRoundTrip(f: UnsubscribeFields)
    ensures DecodeUnsubscribe(EncodeUnsubscribe(f)) == Success(f)
  {
    var m := EncodeUnsubscribe(f);
    assert DecodeIds(m.values) == Success((f.queryId, f.listenerId));
  }

  /** A subscribe message with exactly the four keys, each holding a value
      of its type, is written back as it was read. */
  lemma SubscribeReencode(m: Message)
    requires m.commandCode == CcSubscribe
    requires m.values.Keys == {"query-id", "listener-id", "max-batch-size", "archive-set"}
    requires m.values["query-id"].StringValue? && m.values["listener-id"].LongValue?
    requires m.values["max-batch-size"].IntegerValue? && m.values["archive-set"].IntegerValue?
    ensures DecodeSubscribe(m).Success? && EncodeSubscribe(DecodeSubscribe(m).value) == m
  {
    var e := EncodeSubscribe(DecodeSubscribe(m).value);
    assert e.values.Keys == m.values.Keys;
    forall k | k in m.values ensures e.values[k] == m.values[k] {
    }
  }

  /** An unsubscribe message with exactly the two keys, each holding a value
      of its type, is written back as it was read. */
  lemma UnsubscribeReencode(m: Message)
    requires m.commandCode == CcUnsubscribe
    requires m.values.Keys == {"query-id", "listener-id"}
    requires m.values["query-id"].StringValue? && m.values["listener-id"].LongValue?
    ensures DecodeUnsubscribe(m).Success? && EncodeUnsubscribe(DecodeUnsubscribe(m).value) == m
  {
    var e := EncodeUnsubscribe(DecodeUnsubscribe(m).value);
    assert e.values.Keys == m.values.Keys;
    forall k | k in m.values ensures e.values[k] == m.values[k] {
    }
  }

  /** A subscribe message that lacks the batch size or the archive set reads
      them as 0; one that lacks the query id or the listener id cannot be
      read. */
  lemma SubscribeDefaults(m: Message)
    ensures "query-id" !in m.values || "listener-id" !in m.values ==> DecodeSubscribe(m).Failure?
    ensures DecodeSubscribe(m).Success? && "max-batch-size" !in m.values ==> DecodeSubscribe(m).value.maxBatchSize == 0
    ensures DecodeSubscribe(m).Success? && "archive-set" !in m.values ==> DecodeSubscribe(m).value.archiveSet == 0
  {
  }

  /** An unsubscribe message read as a subscribe request gives the same ids
      with the defaults for the rest: the two readers agree on the keys they
      share. */
  lemma ReadersAgree(f: UnsubscribeFields)
    ensures DecodeSubscribe(EncodeUnsubscribe(f)) == Success(SubscribeFields(f.queryId, f.listenerId, 0, 0))
  {
    var m := EncodeUnsubscribe(f);
    assert DecodeIds(m.values) == Success((f.queryId, f.listenerId));
  }

  class SubscribeMessage {
    var queryId: Option<string>
    var listenerId: Int64
    var maxBatchSize: Int32
    var archiveSet: Int32

    function Fields(): SubscribeFields
      reads this
    {
      SubscribeFields(queryId, listenerId, maxBatchSize, archiveSet)
    }

    /** A fresh request has a null query id and zero numbers. */
    constructor ()
      ensures Fields() == SubscribeFields(None, 0, 0, 0)
    {
      queryId, listenerId, maxBatchSize, archiveSet := None, 0, 0, 0;
    }

    method SetQueryId(queryId: Option<string>)
      modifies this
      ensures Fields() == old(Fields()).(queryId := queryId)
    {
      this.queryId := queryId;
    }

    method SetListenerId(listenerId: Int64)
      modifies this
      ensures Fields() == old(Fields()).(listenerId := listenerId)
    {
      this.listenerId := listenerId;
    }

    method SetMaxBatchSize(maxBatchSize: Int32)
      modifies this
      ensures Fields() == old(Fields()).(maxBatchSize := maxBatchSize)
    {
      this.maxBatchSize := maxBatchSize;
    }

    method SetArchiveSet(archiveSet: Int32)
      modifies this
      ensures Fields() == old(Fields()).(archiveSet := archiveSet)
    {
      this.archiveSet := archiveSet;
    }

    method ToMessage() returns (m: Message)
      ensures m == EncodeSubscribe(Fields())
    {
      var values := map["query-id" := StringValue(queryId)];
      values := values["listener-id" := LongValue(listenerId)];
      values := values["max-batch-size" := IntegerValue(maxBatchSize)];
      values := values["archive-set" := IntegerValue(archiveSet)];
      m := Message(CcSubscribe, values);
    }

    /** `fromMessage`: a fresh request filled from the message. */
    static method FromMessage(message: Message) returns (r: Result<SubscribeMessage>)
      ensures r.Success? <==> DecodeSubscribe(message).Success?
      ensures r.Success? ==> fresh(r.value) && r.value.Fields() == DecodeSubscribe(message).value
    {
      var ids := DecodeIds(message.values);
      if ids.Failure? {
        return Failure(ids.error);
      }
      var s := new SubscribeMessage();
      s.SetQueryId(ids.value.0);
      s.SetListenerId(ids.value.1);
      if "max-batch-size" in message.values {
        var size := OptionalInteger(message.values, "max-batch-size");
        if size.Failure? {
          return Failure(size.error);
        }
        s.SetMaxBatchSize(size.value);
      }
      if "archive-set" in message.values {
        var archive := OptionalInteger(message.values, "archive-set");
        if archive.Failure? {
          return Failure(archive.error);
        }
        s.SetArchiveSet(archive.value);
      }
      return Success(s);
    }
  }

  class UnsubscribeMessage {
    var queryId: Option<string>
    var listenerId: Int64

    function Fields(): UnsubscribeFields
      reads this
    {
      UnsubscribeFields(queryId, listenerId)
    }

    /** A fresh request has a null query id and listener id 0. */
    constructor ()
      ensures Fields() == UnsubscribeFields(None, 0)
    {
      queryId, listenerId := None, 0;
    }

    method SetQueryId(queryId: Option<string>)
      modifies this
      ensures Fields() == old(Fields()).(queryId := queryId)
    {
      this.queryId := queryId;
    }

    method SetListenerId(listenerId: Int64)
      modifies this
      ensures Fields() == old(Fields()).(listenerId := listenerId)
    {
      this.listenerId := listenerId;
    }

    method ToMessage() returns (m: Message)
      ensures m == EncodeUnsubscribe(Fields())
    {
      var values := map["query-id" := StringValue(queryId)];
      values := values["listener-id" := LongValue(listenerId)];
      m := Message(CcUnsubscribe, values);
    }

    /** `fromMessage`: a fresh request filled from the message. */
    static method FromMessage(message: Message) returns (r: Result<UnsubscribeMessage>)
      ensures r.Success? <==> DecodeUnsubscribe(message).Success?
      ensures r.Success? ==> fresh(r.value) && r.value.Fields() == DecodeUnsubscribe(message).value
    {
      var ids := DecodeIds(message.values);
      if ids.Failure? {
        return Failure(ids.error);
      }
      var u := new UnsubscribeMessage();
      u.SetQueryId(ids.value.0);
      u.SetListenerId(ids.value.1);
      return Success(u);
    }
  }
}
