/** The server side of one alarm/event client connection: the map from the
    client's query ids to open queries, the browser listener that is live
    while the client browses, and the responses to acknowledge requests.
    The backend service, the session and the queries' own logic are
    collaborators; what the connection asks of them is recorded in the
    `calls` log, what it sends to the client in the `sent` log. */
module AeServerConnection {
  import opened Common

  /** The handle the backend service returns for a created query. */
  datatype QueryHandle = QueryHandle(ref: nat)

  /** One open query: its identity (`serial`), the client's id for it and
      the backend handle, which may be null. */
  datatype QueryRecord = QueryRecord(serial: nat, queryId: int, handle: Option<QueryHandle>)

  /** An event as the backend delivers it; its id is given in its printed
      form, its timestamps in milliseconds. */
  datatype Event = Event(id: string, sourceTimestamp: int, entryTimestamp: int, attributes: Attributes)

  /** An event as it goes over the wire. */
  datatype EventInformation = EventInformation(id: string, sourceTimestamp: int, entryTimestamp: int, attributes: Attributes)

  /** An exception: its message and its formatted text. */
  datatype Throwable = Throwable(message: Option<string>, formatted: Option<string>)

  /** A browser entry and a monitor status are forwarded without being
      looked into. */
  datatype BrowserEntry = BrowserEntry(id: string)
  datatype MonitorStatusInformation = MonitorStatusInformation(id: string)

  /** Messages sent to the client. */
  datatype AeMessage =
    | UpdateQueryData(queryId: int, events: seq<EventInformation>)
    | UpdateQueryState(queryId: int, state: string, error: ErrorInformation)
    | BrowseData(addedOrUpdated: seq<BrowserEntry>, removed: set<string>, full: bool)
    | AcknowledgeResponse(request: nat, ackError: Option<ErrorInformation>)
    | EventPoolDataUpdate(poolId: string, added: seq<EventInformation>)
    | MonitorPoolDataUpdate(poolId: string, monitors: seq<MonitorStatusInformation>, removedIds: set<string>, fullUpdate: bool)
    | EventPoolStatusUpdate(poolId: string, status: SubscriptionState)
    | MonitorPoolStatusUpdate(poolId: string, status: SubscriptionState)

  /** Calls this connection makes on the backend service, the session and
      its open queries (queries are named by their serial, browser listener
      managers by theirs). */
  datatype Call =
    | CreateBackendQuery(serial: nat, queryType: string, queryData: string)
    | LoadMoreCall(serial: nat, count: int)
    | CloseCall(serial: nat)
    | SetBrowserListener(manager: Option<nat>)
    | SubscribeConditionQuery(poolId: string)
    | UnsubscribeConditionQuery(poolId: string)
    | SubscribeEventQuery(poolId: string)
    | UnsubscribeEventQuery(poolId: string)
    | Acknowledge(request: nat, monitorId: string, timestamp: Option<int>)

  /** What the backend's `createQuery` does: return a handle (or null), or
      throw. */
  datatype CreateOutcome = Returned(handle: Option<QueryHandle>) | BackendThrew(message: string)

  /** What the backend's `acknowledge` does when it is called: hand back
      the future, or throw at once (an invalid session). */
  datatype AckCall = FutureReturned | AckThrew(message: string)

  /** How the acknowledge future completes. */
  datatype AckOutcome = AckSucceeded | AckFailed(formatted: string)

  /** Inbound messages this session handles itself. */
  datatype AeInbound =
    | StartBrowse
    | StopBrowse
    | SubscribeMonitorPool(monitorPoolId: string)
    | UnsubscribeMonitorPool(monitorPoolId: string)
    | SubscribeEventPool(eventPoolId: string)
    | UnsubscribeEventPool(eventPoolId: string)
    | CloseQuery(closeId: int)
    | CreateQuery(createId: int, queryType: string, queryData: string)
    | LoadMore(loadId: int, count: int)
    | AcknowledgeRequest(request: nat, monitorId: string, aknTimestamp: Option<int>)
    | OtherMessage

  // ---------------------------------------------------------------------
  // Event conversion

  function ConvertEvent(e: Event): EventInformation {
    EventInformation(e.id, e.sourceTimestamp, e.entryTimestamp, e.attributes)
  }

  /** The conversion loses nothing: different events stay different. */
  lemma ConvertEventInjective(a: Event, b: Event)
    requires ConvertEvent(a) == ConvertEvent(b)
    ensures a == b
  {
    assert a.id == ConvertEvent(a).id;
  }

  /** `convert`: the events converted one by one, in order. */
  method ConvertEvents(events: seq<Event>) returns (r: seq<EventInformation>)
    ensures |r| == |events|
    ensures forall i :: 0 <= i < |events| ==> r[i] == ConvertEvent(events[i])
  {
    r := [];
    for i := 0 to |events|
      invariant |r| == i
      invariant forall j :: 0 <= j < i ==> r[j] == ConvertEvent(events[j])
    {
      r := r + [ConvertEvent(events[i])];
    }
  }

  function ConvertAll(events: seq<Event>): (r: seq<EventInformation>)
    ensures |r| == |events|
    ensures forall i :: 0 <= i < |events| ==> r[i] == ConvertEvent(events[i])
  {
    seq(|events|, i requires 0 <= i < |events| => ConvertEvent(events[i]))
  }

  // ---------------------------------------------------------------------
  // Responses

  /** The response to an acknowledge request once its future completes: it
      always echoes the request; its error is null on success and code 0x01,
      "Permission denied" with the formatted exception on failure. */
  function AcknowledgeResponseFor(request: nat, outcome: AckOutcome): (r: AeMessage)
    ensures r.AcknowledgeResponse? && r.request == request
    ensures r.ackError.None? <==> outcome.AckSucceeded?
    ensures outcome.AckFailed? ==>
      r.ackError == Some(ErrorInformation(Some(0x01), Some("Permission denied"), Some(outcome.formatted)))
  {
    match outcome
    case AckSucceeded => AcknowledgeResponse(request, None)
    case AckFailed(f) => AcknowledgeResponse(request, Some(ErrorInformation(Some(0x01), Some("Permission denied"), Some(f))))
  }

  /** The error part of a query state update: no code, the exception's
      message and formatted text, or nothing without an exception. */
  function StateError(error: Option<Throwable>): (r: ErrorInformation)
    ensures r.code.None?
    ensures error.None? ==> r.message.None? && r.details.None?
    ensures error.Some? ==> r.message == error.value.message && r.details == error.value.formatted
  {
    match error
    case None => ErrorInformation(None, None, None)
    case Some(t) => ErrorInformation(None, t.message, t.formatted)
  }

  /** The text of the exception a duplicate query id raises. */
  function DuplicateMessage(queryId: int): (r: string)
    ensures |r| > 0
  {
    "Query Id " + DecimalString(queryId) + " already exists"
  }

  /** Different query ids give different duplicate-id messages. */
  lemma DuplicateMessageInjective(a: int, b: int)
    requires DuplicateMessage(a) == DuplicateMessage(b)
    ensures a == b
  {
    var da, db := DecimalString(a), DecimalString(b);
    var ma, mb := DuplicateMessage(a), DuplicateMessage(b);
    assert |da| == |db|;
    assert ma[9..9 + |da|] == da;
    assert mb[9..9 + |db|] == db;
    DecimalRoundTrip(a);
    DecimalRoundTrip(b);
  }

  // ---------------------------------------------------------------------
  // The session state and its transitions

  /** A snapshot of one connection's session state. */
  datatype Conn = Conn(
    queries: map<int, QueryRecord>,
    browser: Option<nat>,
    sent: seq<AeMessage>,
    calls: seq<Call>,
    nextSerial: nat)

  /** Every open query is filed under its own id; queries and browser
      listener managers have serials below `nextSerial`, and no two open
      queries share a serial. */
  ghost predicate Valid(c: Conn) {
    && (forall id :: id in c.queries ==> c.queries[id].queryId == id && c.queries[id].serial < c.nextSerial)
    && (forall a, b :: a in c.queries && b in c.queries && a != b ==> c.queries[a].serial != c.queries[b].serial)
    && (c.browser.Some? ==> c.browser.value < c.nextSerial)
  }

  /** `handleCreateQuery`. A duplicate id raises an exception and changes
      nothing. Otherwise the backend is asked for the query; if it throws,
      the exception propagates and the id is not filed; if it returns, the id
      is filed under a new query holding whatever came back, even null. The
      second component is the message of the exception raised, if any. */
  function CreateQueryStep(c: Conn, queryId: int, queryType: string, queryData: string, outcome: CreateOutcome): (r: (Conn, Option<string>))
    requires Valid(c)
    ensures Valid(r.0)
    ensures queryId in c.queries ==> r == (c, Some(DuplicateMessage(queryId)))
    ensures queryId !in c.queries ==>
      && r.0.calls == c.calls + [CreateBackendQuery(c.nextSerial, queryType, queryData)]
      && r.0.nextSerial == c.nextSerial + 1
      && r.0.sent == c.sent && r.0.browser == c.browser
      && match outcome
         case Returned(h) =>
           r.0.queries == c.queries[queryId := QueryRecord(c.nextSerial, queryId, h)] && r.1.None?
         case BackendThrew(e) =>
           r.0.queries == c.queries && r.1 == Some(e)
  {
    if queryId in c.queries then (c, Some(DuplicateMessage(queryId)))
    else
      var serial := c.nextSerial;
      var c1 := c.(nextSerial := serial + 1, calls := c.calls + [CreateBackendQuery(serial, queryType, queryData)]);
      match outcome
      case Returned(h) => (c1.(queries := c1.queries[queryId := QueryRecord(serial, queryId, h)]), None)
      case BackendThrew(e) => (c1, Some(e))
  }

  /** `handleLoadMore`: passed to the open query, ignored for an unknown id. */
  function LoadMoreStep(c: Conn, queryId: int, count: int): (r: Conn)
    requires Valid(c)
    ensures Valid(r)
    ensures queryId !in c.queries ==> r == c
    ensures queryId in c.queries ==> r == c.(calls := c.calls + [LoadMoreCall(c.queries[queryId].serial, count)])
  {
    if queryId in c.queries then c.(calls := c.calls + [LoadMoreCall(c.queries[queryId].serial, count)]) else c
  }

  /** `handleCloseQuery`: the open query is told to close, but its id stays
      in the map; an unknown id is ignored. */
  function CloseQueryStep(c: Conn, queryId: int): (r: Conn)
    requires Valid(c)
    ensures Valid(r)
    ensures r.queries == c.queries && r.sent == c.sent
    ensures queryId !in c.queries ==> r == c
    ensures queryId in c.queries ==> r.calls == c.calls + [CloseCall(c.queries[queryId].serial)]
  {
    if queryId in c.queries then c.(calls := c.calls + [CloseCall(c.queries[queryId].serial)]) else c
  }

  /** `sendQueryData`: one message with the converted events while the id is
      open, nothing otherwise. */
  function SendQueryData(c: Conn, queryId: int, events: seq<Event>): (r: Conn)
    ensures queryId !in c.queries ==> r == c
    ensures queryId in c.queries ==> r == c.(sent := c.sent + [UpdateQueryData(queryId, ConvertAll(events))])
  {
    if queryId in c.queries then c.(sent := c.sent + [UpdateQueryData(queryId, ConvertAll(events))]) else c
  }

  /** `sendQueryState`: one message while the id is open, nothing
      otherwise. */
  function SendQueryState(c: Conn, queryId: int, state: string, error: Option<Throwable>): (r: Conn)
    ensures queryId !in c.queries ==> r == c
    ensures queryId in c.queries ==> r == c.(sent := c.sent + [UpdateQueryState(queryId, state, StateError(error))])
  {
    if queryId in c.queries then c.(sent := c.sent + [UpdateQueryState(queryId, state, StateError(error))]) else c
  }

  /** `handleStartBrowse`: a no-op while browsing; otherwise a new browser
      listener manager is created and handed to the session. */
  function StartBrowseStep(c: Conn): (r: Conn)
    requires Valid(c)
    ensures Valid(r)
    ensures r.browser.Some? && r.queries == c.queries && r.sent == c.sent
    ensures c.browser.Some? ==> r == c
    ensures c.browser.None? ==>
      && r.browser == Some(c.nextSerial) && r.nextSerial == c.nextSerial + 1
      && r.calls == c.calls + [SetBrowserListener(Some(c.nextSerial))]
  {
    if c.browser.Some? then c
    else c.(browser := Some(c.nextSerial), nextSerial := c.nextSerial + 1,
            calls := c.calls + [SetBrowserListener(Some(c.nextSerial))])
  }

  /** `handleStopBrowse`: a no-op while not browsing; otherwise the session's
      browser listener is cleared and the manager forgotten. */
  function StopBrowseStep(c: Conn): (r: Conn)
    requires Valid(c)
    ensures Valid(r)
    ensures r.browser.None? && r.queries == c.queries && r.sent == c.sent && r.nextSerial == c.nextSerial
    ensures c.browser.None? ==> r == c
    ensures c.browser.Some? ==> r.calls == c.calls + [SetBrowserListener(None)]
  {
    if c.browser.None? then c
    else c.(browser := None, calls := c.calls + [SetBrowserListener(None)])
  }

  /** `handleBrowseDataChanged`: forwarded only when it comes from the
      current browser listener manager. */
  function BrowseDataChangedStep(c: Conn, manager: nat, addedOrUpdated: seq<BrowserEntry>, removed: set<string>, full: bool): (r: Conn)
    ensures c.browser != Some(manager) ==> r == c
    ensures c.browser == Some(manager) ==> r == c.(sent := c.sent + [BrowseData(addedOrUpdated, removed, full)])
  {
    if c.browser != Some(manager) then c else c.(sent := c.sent + [BrowseData(addedOrUpdated, removed, full)])
  }

  /** `handleAknRequest`: the acknowledgement is passed to the backend and
      nothing is sent yet. When the backend hands back its future, the
      response goes out once the future completes (`AckCompletedStep`); when
      the backend throws, the exception propagates and no response will
      follow. The second component is the exception's message. */
  function AckRequestStep(c: Conn, request: nat, monitorId: string, aknTimestamp: Option<int>, call: AckCall): (r: (Conn, Option<string>))
    requires Valid(c)
    ensures Valid(r.0)
    ensures r.0 == c.(calls := c.calls + [Acknowledge(request, monitorId, aknTimestamp)])
    ensures r.1.Some? <==> call.AckThrew?
    ensures call.AckThrew? ==> r.1 == Some(call.message)
  {
    var c1 := c.(calls := c.calls + [Acknowledge(request, monitorId, aknTimestamp)]);
    match call
    case FutureReturned => (c1, None)
    case AckThrew(m) => (c1, Some(m))
  }

  /** The completion listener of the acknowledge future: the response for
      the request goes out, and nothing else changes. */
  function AckCompletedStep(c: Conn, request: nat, outcome: AckOutcome): (r: Conn)
    requires Valid(c)
    ensures Valid(r)
    ensures r == c.(sent := c.sent + [AcknowledgeResponseFor(request, outcome)])
  {
    c.(sent := c.sent + [AcknowledgeResponseFor(request, outcome)])
  }

  /** An acknowledge request whose backend call hands back a future,
      once the future completes, leaves exactly
      one backend call and one response for the same request behind; the
      response carries an error exactly when the backend failed. */
  lemma AckAnswered(c: Conn, request: nat, monitorId: string, aknTimestamp: Option<int>, outcome: AckOutcome)
    requires Valid(c)
    ensures var r := AckCompletedStep(AckRequestStep(c, request, monitorId, aknTimestamp, FutureReturned).0, request, outcome);
      && r.queries == c.queries && r.browser == c.browser && r.nextSerial == c.nextSerial
      && r.calls == c.calls + [Acknowledge(request, monitorId, aknTimestamp)]
      && |r.sent| == |c.sent| + 1 && r.sent[..|c.sent|] == c.sent
      && r.sent[|c.sent|].AcknowledgeResponse? && r.sent[|c.sent|].request == request
      && (r.sent[|c.sent|].ackError.Some? <==> outcome.AckFailed?)
  {
  }

  /** The pool subscription requests are passed to the backend as they
      are. */
  function PoolCall(msg: AeInbound): (r: Option<Call>)
    ensures r.Some? <==> (msg.SubscribeMonitorPool? || msg.UnsubscribeMonitorPool? || msg.SubscribeEventPool? || msg.UnsubscribeEventPool?)
  {
    match msg
    case SubscribeMonitorPool(p) => Some(SubscribeConditionQuery(p))
    case UnsubscribeMonitorPool(p) => Some(UnsubscribeConditionQuery(p))
    case SubscribeEventPool(p) => Some(SubscribeEventQuery(p))
    case UnsubscribeEventPool(p) => Some(UnsubscribeEventQuery(p))
    case _ => None
  }

  /** `messageReceived`: the dispatch on the inbound message type; the
      second component is the message of an exception raised by the
      handler. `outcome` is what the backend's `createQuery` does and
      `ackCall` what its `acknowledge` does. Messages this session does not
      handle itself go to the generic connection and are not part of this
      model. */
  function ReceiveStep(c: Conn, msg: AeInbound, outcome: CreateOutcome, ackCall: AckCall): (r: (Conn, Option<string>))
    requires Valid(c)
    ensures Valid(r.0)
    ensures msg.OtherMessage? ==> r == (c, None)
    ensures !msg.CreateQuery? ==> r.0.queries == c.queries
    ensures msg.AcknowledgeRequest? ==> (r.1.Some? <==> ackCall.AckThrew?)
    ensures !msg.CreateQuery? && !msg.AcknowledgeRequest? ==> r.1.None?
  {
    match msg
    case StartBrowse => (StartBrowseStep(c), None)
    case StopBrowse => (StopBrowseStep(c), None)
    case CloseQuery(id) => (CloseQueryStep(c, id), None)
    case CreateQuery(id, t, d) => CreateQueryStep(c, id, t, d, outcome)
    case LoadMore(id, n) => (LoadMoreStep(c, id, n), None)
    case AcknowledgeRequest(req, m, ts) => AckRequestStep(c, req, m, ts, ackCall)
    case OtherMessage => (c, None)
    case _ => (c.(calls := c.calls + [PoolCall(msg).value]), None)
  }

  /** The close calls for the open queries filed under `ids`. */
  ghost function ClosesOf(queries: map<int, QueryRecord>, ids: set<int>): set<Call> {
    set id | id in ids && id in queries :: CloseCall(queries[id].serial)
  }


  /** Start then stop leaves no browser manager, and browse data from the
      manager that was stopped is dropped even after browsing starts again. */
  lemma {:induction false} StaleManagerDropped(c: Conn, addedOrUpdated: seq<BrowserEntry>, removed: set<string>, full: bool)
    requires Valid(c) && c.browser.None?
    ensures var c1 := StartBrowseStep(c);
      var c2 := StopBrowseStep(c1);
      var c3 := StartBrowseStep(c2);
      && c2.browser.None?
      && c3.browser.Some? && c3.browser != c1.browser
      && BrowseDataChangedStep(c2, c1.browser.value, addedOrUpdated, removed, full) == c2
      && BrowseDataChangedStep(c3, c1.browser.value, addedOrUpdated, removed, full) == c3
  {
    var c1 := StartBrowseStep(c);
    var c2 := StopBrowseStep(c1);
    assert c2.nextSerial == c1.nextSerial == c1.browser.value + 1;
  }

  /** `closes` holds one close call for each query filed under `done`, none
      twice. */
  ghost predicate ClosedSoFar(qs: map<int, QueryRecord>, done: set<int>, closes: seq<Call>) {
    && |closes| == |done|
    && Distinct(closes)
    && Elements(closes) == ClosesOf(qs, done)
  }

  /** Closing one more open query extends the closes by its call. */
  lemma CloseOne(qs: map<int, QueryRecord>, done: set<int>, closes: seq<Call>, qid: int)
    requires forall a, b :: a in qs && b in qs && a != b ==> qs[a].serial != qs[b].serial
    requires done <= qs.Keys && qid in qs && qid !in done
    requires ClosedSoFar(qs, done, closes)
    ensures ClosedSoFar(qs, done + {qid}, closes + [CloseCall(qs[qid].serial)])
  {
    var call := CloseCall(qs[qid].serial);
    ElementsSnoc(closes, call);
    assert ClosesOf(qs, done + {qid}) == ClosesOf(qs, done) + {call};
    assert call !in ClosesOf(qs, done);
    assert call !in Elements(closes);
    var closes' := closes + [call];
    forall i, j | 0 <= i < j < |closes'|
      ensures closes'[i] != closes'[j]
    {
      if j == |closes| {
        assert closes'[i] == closes[i];
      } else {
        assert closes'[i] == closes[i] && closes'[j] == closes[j];
      }
    }
  }

  /** The loop of `dispose` over the open queries: one close call per
      query, each exactly once, in the map's iteration order. */
  method CloseAll(qs: map<int, QueryRecord>) returns (closes: seq<Call>)
    requires forall a, b :: a in qs && b in qs && a != b ==> qs[a].serial != qs[b].serial
    ensures |closes| == |qs|
    ensures Distinct(closes)
    ensures Elements(closes) == ClosesOf(qs, qs.Keys)
  {
    var rest := qs.Keys;
    ghost var done: set<int> := {};
    closes := [];
    while rest != {}
      invariant rest !! done && rest + done == qs.Keys
      invariant ClosedSoFar(qs, done, closes)
      decreases rest
    {
      var qid :| qid in rest;
      CloseOne(qs, done, closes, qid);
      closes := closes + [CloseCall(qs[qid].serial)];
      rest := rest - {qid};
      done := done + {qid};
    }
    assert done == qs.Keys;
  }

  // ---------------------------------------------------------------------
  // The connection object

  class ServerConnection {
    var queries: map<int, QueryRecord>
    var browser: Option<nat>
    var sent: seq<AeMessage>
    var calls: seq<Call>
    var nextSerial: nat

    function State(): Conn
      reads this
    {
      Conn(queries, browser, sent, calls, nextSerial)
    }

    ghost predicate Inv()
      reads this
    {
      Valid(State())
    }

    constructor ()
      ensures Inv()
      ensures State() == Conn(map[], None, [], [], 0)
    {
      queries, browser, sent, calls, nextSerial := map[], None, [], [], 0;
    }

    method HandleCreateQuery(queryId: int, queryType: string, queryData: string, outcome: CreateOutcome)
      returns (error: Option<string>)
      requires Inv()
      modifies this
      ensures Inv()
      ensures (State(), error) == CreateQueryStep(old(State()), queryId, queryType, queryData, outcome)
    {
      if queryId in queries {
        return Some(DuplicateMessage(queryId));
      }
      var serial := nextSerial;
      nextSerial := nextSerial + 1;
      calls := calls + [CreateBackendQuery(serial, queryType, queryData)];
      match outcome {
        case BackendThrew(e) =>
          return Some(e);
        case Returned(h) =>
          queries := queries[queryId := QueryRecord(serial, queryId, h)];
          return None;
      }
    }

    method HandleLoadMore(queryId: int, count: int)
      requires Inv()
      modifies this
      ensures Inv()
      ensures State() == LoadMoreStep(old(State()), queryId, count)
    {
      if queryId !in queries {
        return;
      }
      calls := calls + [LoadMoreCall(queries[queryId].serial, count)];
    }

    method HandleCloseQuery(queryId: int)
      requires Inv()
      modifies this
      ensures Inv()
      ensures State() == CloseQueryStep(old(State()), queryId)
    {
      if queryId !in queries {
        return;
      }
      calls := calls + [CloseCall(queries[queryId].serial)];
    }

    method HandleStartBrowse()
      requires Inv()
      modifies this
      ensures Inv()
      ensures State() == StartBrowseStep(old(State()))
    {
      if browser.Some? {
        return;
      }
      browser := Some(nextSerial);
      nextSerial := nextSerial + 1;
      calls := calls + [SetBrowserListener(browser)];
    }

    method HandleStopBrowse()
      requires Inv()
      modifies this
      ensures Inv()
      ensures State() == StopBrowseStep(old(State()))
    {
      if browser.None? {
        return;
      }
      calls := calls + [SetBrowserListener(None)];
      browser := None;
    }

    method SendQueryDataMsg(queryId: int, events: seq<Event>)
      requires Inv()
      modifies this
      ensures Inv()
      ensures State() == SendQueryData(old(State()), queryId, events)
    {
      if queryId !in queries {
        return;
      }
      var converted := ConvertEvents(events);
      assert converted == ConvertAll(events);
      sent := sent + [UpdateQueryData(queryId, converted)];
    }

    method SendQueryStateMsg(queryId: int, state: string, error: Option<Throwable>)
      requires Inv()
      modifies this
      ensures Inv()
      ensures State() == SendQueryState(old(State()), queryId, state, error)
    {
      if queryId !in queries {
        return;
      }
      sent := sent + [UpdateQueryState(queryId, state, StateError(error))];
    }

    method HandleBrowseDataChanged(manager: nat, addedOrUpdated: seq<BrowserEntry>, removed: set<string>, full: bool)
      requires Inv()
      modifies this
      ensures Inv()
      ensures State() == BrowseDataChangedStep(old(State()), manager, addedOrUpdated, removed, full)
    {
      if browser != Some(manager) {
        return;
      }
      sent := sent + [BrowseData(addedOrUpdated, removed, full)];
    }

    method HandleAknRequest(request: nat, monitorId: string, aknTimestamp: Option<int>, call: AckCall) returns (error: Option<string>)
      requires Inv()
      modifies this
      ensures Inv()
      ensures (State(), error) == AckRequestStep(old(State()), request, monitorId, aknTimestamp, call)
    {
      calls := calls + [Acknowledge(request, monitorId, aknTimestamp)];
      error := None;
      if call.AckThrew? {
        error := Some(call.message);
      }
    }

    /** The completion listener of the acknowledge future. */
    method AckCompleted(request: nat, outcome: AckOutcome)
      requires Inv()
      modifies this
      ensures Inv()
      ensures State() == AckCompletedStep(old(State()), request, outcome)
    {
      sent := sent + [AcknowledgeResponseFor(request, outcome)];
    }

    /** `handleEventDataChange`: the pool's new events go out converted. */
    method HandleEventDataChange(poolId: string, events: seq<Event>)
      requires Inv()
      modifies this
      ensures Inv()
      ensures State() == old(State()).(sent := old(sent) + [EventPoolDataUpdate(poolId, ConvertAll(events))])
    {
      var converted := ConvertEvents(events);
      assert converted == ConvertAll(events);
      sent := sent + [EventPoolDataUpdate(poolId, converted)];
    }

    /** `handleMonitorDataChanged`: the monitor changes go out as they
        are. */
    method HandleMonitorDataChanged(poolId: string, addedOrUpdated: seq<MonitorStatusInformation>, removed: set<string>, full: bool)
      requires Inv()
      modifies this
      ensures Inv()
      ensures State() == old(State()).(sent := old(sent) + [MonitorPoolDataUpdate(poolId, addedOrUpdated, removed, full)])
    {
      sent := sent + [MonitorPoolDataUpdate(poolId, addedOrUpdated, removed, full)];
    }

    /** `handleEventStatusChange`: the event pool's subscription state goes
        out. */
    method HandleEventStatusChange(poolId: string, state: SubscriptionState)
      requires Inv()
      modifies this
      ensures Inv()
      ensures State() == old(State()).(sent := old(sent) + [EventPoolStatusUpdate(poolId, state)])
    {
      sent := sent + [EventPoolStatusUpdate(poolId, state)];
    }

    /** `handleMonitorStatusChange`: the monitor pool's subscription state
        goes out. */
    method HandleMonitorStatusChange(poolId: string, state: SubscriptionState)
      requires Inv()
      modifies this
      ensures Inv()
      ensures State() == old(State()).(sent := old(sent) + [MonitorPoolStatusUpdate(poolId, state)])
    {
      sent := sent + [MonitorPoolStatusUpdate(poolId, state)];
    }

    method MessageReceived(msg: AeInbound, outcome: CreateOutcome, ackCall: AckCall) returns (error: Option<string>)
      requires Inv()
      modifies this
      ensures Inv()
      ensures (State(), error) == ReceiveStep(old(State()), msg, outcome, ackCall)
    {
      error := None;
      match msg {
        case StartBrowse => HandleStartBrowse();
        case StopBrowse => HandleStopBrowse();
        case CloseQuery(id) => HandleCloseQuery(id);
        case CreateQuery(id, t, d) => error := HandleCreateQuery(id, t, d, outcome);
        case LoadMore(id, n) => HandleLoadMore(id, n);
        case AcknowledgeRequest(req, m, ts) => error := HandleAknRequest(req, m, ts, ackCall);
        case OtherMessage =>
        case _ => calls := calls + [PoolCall(msg).value];
      }
    }

    /** `dispose`: every open query is closed exactly once, in the map's
        iteration order, and the map is left empty. */
    method Dispose()
      requires Inv()
      modifies this
      ensures Inv()
      ensures queries == map[]
      ensures browser == old(browser) && sent == old(sent) && nextSerial == old(nextSerial)
      ensures |calls| == |old(calls)| + |old(queries)|
      ensures calls[..|old(calls)|] == old(calls)
      ensures Distinct(calls[|old(calls)|..])
      ensures Elements(calls[|old(calls)|..]) == ClosesOf(old(queries), old(queries).Keys)
    {
      var closes := CloseAll(queries);
      calls := calls + closes;
      assert calls[|old(calls)|..] == closes;
      queries := map[];
    }
  }
}
