/** The historical-data (HD) server session of one client connection.

    The connection keeps a map from client-chosen query ids to query
    handlers. Creating a query registers a handler before the backend is
    asked for the query; closing one tells the client DISCONNECTED, forgets
    the id at once and leaves the slow backend `close()` to a disposer,
    modelled here as a FIFO of pending handlers. Outbound messages are an
    append-only log; a message for an id that is no longer live is dropped.
    Large result sets are split into packets of at most `maxDataSize`
    entries. */
module HdServerConnection {
  import opened Common

  /** Payloads the session only passes through. Floating point samples are
      carried as opaque bit patterns. */
  datatype Double = Double(bits: int)
  datatype ValueInformation = ValueInformation(payload: int)
  datatype QueryParameters = QueryParameters(payload: int)
  datatype ItemInformation = ItemInformation(id: string)
  /** The backend's query object, as returned by `Service.createQuery`. */
  datatype BackendQuery = BackendQuery(ref: nat)

  /** The state a query reports to its client; only its name goes on the
      wire. */
  datatype QueryState = Disconnected | OtherState(name: string)

  function StateName(s: QueryState): string {
    match s
    case Disconnected => "DISCONNECTED"
    case OtherState(n) => n
  }

  /** A handler created for one query id. `serial` gives each handler its own
      identity, as each `new QueryHandler` has in the source; `query` is set
      once the backend has returned the query. */
  datatype QueryHandler = QueryHandler(serial: nat, queryId: int, query: Option<BackendQuery>)

  /** A request to create a query, as it arrives from the client. */
  datatype CreateQueryRequest = CreateQueryRequest(request: nat, queryId: int, itemId: string, parameters: QueryParameters, updateData: bool)

  /** What the backend's `createQuery` did. */
  datatype CreateOutcome = Created(query: BackendQuery) | ReturnedNull | Threw

  /** One packet of query data. */
  datatype Packet = Packet(index: int, values: map<string, seq<Double>>, valueInformation: seq<ValueInformation>)

  datatype HdMessage =
    | CreateQueryFailure(request: nat, error: ErrorInformation)
    | UpdateQueryState(queryId: int, state: string)
    | UpdateQueryData(queryId: int, packet: Packet)
    | UpdateQueryParameters(queryId: int, parameters: QueryParameters, valueTypes: set<string>)
    | ListUpdate(addedOrModified: set<ItemInformation>, removed: set<string>, full: bool)

  /** Calls the session makes on its collaborators: the backend service, the
      query handlers and the server session object. */
  datatype BackendCall =
    | CreateBackendQuery(handler: nat, itemId: string, parameters: QueryParameters, updateData: bool)
    | ChangeParameters(handler: nat, parameters: QueryParameters)
    | SetItemListListener(active: bool)

  /** Inbound messages this session handles itself. */
  datatype HdInbound =
    | StartBrowse
    | StopBrowse
    | CloseQuery(queryId: int)
    | CreateQuery(create: CreateQueryRequest)
    | ChangeQueryParameters(queryId: int, parameters: QueryParameters)
    | OtherMessage

  const DefaultMaxDataSize: nat := 1024

  function Min(a: int, b: int): int { if a < b then a else b }

  // ---------------------------------------------------------------------
  // Splitting result sets into packets

  /** Every value series holds at least `n` samples. */
  predicate SeriesCover(values: map<string, seq<Double>>, n: int) {
    forall key :: key in values ==> |values[key]| >= n
  }

  /** Samples `lo` to `hi` of every series. */
  function Slice(values: map<string, seq<Double>>, lo: nat, hi: nat): map<string, seq<Double>>
    requires lo <= hi && SeriesCover(values, hi)
  {
    map key | key in values :: values[key][lo..hi]
  }

  /** The offsets the split loop visits from `count` on: `count`, then one
      `max` further on each time while below `n`. */
  function Offsets(count: nat, n: nat, max: nat): (rs: seq<nat>)
    requires 0 < max && count < n
    ensures |rs| > 0 && rs[0] == count
    ensures forall k :: 0 <= k < |rs| ==> count <= rs[k] < n
    decreases n - count
  {
    [count] + (if count + max < n then Offsets(count + max, n, max) else [])
  }

  /** The packet the split loop builds at offset `lo`: that offset as its
      index and at most `max` entries from there on. */
  function PacketAt(lo: nat, values: map<string, seq<Double>>, vi: seq<ValueInformation>, max: nat): Packet
    requires 0 < max && lo < |vi| && SeriesCover(values, |vi|)
  {
    var size := Min(|vi| - lo, max);
    Packet(lo, Slice(values, lo, lo + size), vi[lo..lo + size])
  }

  /** The packets the split loop sends from offset `count` on. */
  function SplitFrom(count: nat, values: map<string, seq<Double>>, vi: seq<ValueInformation>, max: nat): seq<Packet>
    requires 0 < max && count < |vi| && SeriesCover(values, |vi|)
  {
    var rs := Offsets(count, |vi|, max);
    seq(|rs|, k requires 0 <= k < |rs| => PacketAt(rs[k], values, vi, max))
  }

  /** The packets `sendQueryData` sends for one call: a single packet with the
      caller's index below `max` entries, the split packets otherwise. */
  function Packets(index: int, values: map<string, seq<Double>>, vi: seq<ValueInformation>, max: nat): seq<Packet>
    requires 0 < max
    requires |vi| >= max ==> SeriesCover(values, |vi|)
  {
    if |vi| < max then [Packet(index, values, vi)] else SplitFrom(0, values, vi, max)
  }

  /** The value information of a packet sequence, in packet order. */
  function ConcatInfo(ps: seq<Packet>): seq<ValueInformation> {
    if ps == [] then [] else ps[0].valueInformation + ConcatInfo(ps[1..])
  }

  /** One value series of a packet sequence, in packet order. */
  function ConcatSeries(ps: seq<Packet>, key: string): seq<Double> {
    if ps == [] then []
    else (if key in ps[0].values then ps[0].values[key] else []) + ConcatSeries(ps[1..], key)
  }

  /** The split loop of `sendQueryData`: a do-while loop that advances
      `count` by `max` and copies the slices of the value information and of
      every value series. */
  method SplitQueryData(index: int, values: map<string, seq<Double>>, vi: seq<ValueInformation>, max: nat)
    returns (packets: seq<Packet>)
    requires 0 < max
    requires |vi| >= max ==> SeriesCover(values, |vi|)
    ensures packets == Packets(index, values, vi, max)
  {
    var len := |vi|;
    if len < max {
      packets := [Packet(index, values, vi)];
      return;
    }
    packets := [];
    var count := 0;
    while true
      invariant 0 <= count < len
      invariant packets + SplitFrom(count, values, vi, max) == SplitFrom(0, values, vi, max)
      decreases len - count
    {
      var size := Min(len - count, max);
      var part := vi[count..count + size];
      var v := CopySlice(values, count, count + size);
      assert Packet(count, v, part) == PacketAt(count, values, vi, max);
      if count + max < len {
        SplitStep(packets, count, values, vi, max);
      } else {
        SplitLastStep(packets, count, values, vi, max);
      }
      packets := packets + [Packet(count, v, part)];
      count := count + max;
      if count >= len {
        break;
      }
    }
  }

  /** A round of the split loop that leaves entries to send keeps the
      packets sent so far, followed by the packets still to come, equal to
      the whole split. */
  lemma SplitStep(acc: seq<Packet>, count: nat, values: map<string, seq<Double>>, vi: seq<ValueInformation>, max: nat)
    requires 0 < max && count + max < |vi| && SeriesCover(values, |vi|)
    requires acc + SplitFrom(count, values, vi, max) == SplitFrom(0, values, vi, max)
    ensures (acc + [PacketAt(count, values, vi, max)]) + SplitFrom(count + max, values, vi, max) == SplitFrom(0, values, vi, max)
  {
    SplitFromCons(count, values, vi, max);
    var p := PacketAt(count, values, vi, max);
    var tail := SplitFrom(count + max, values, vi, max);
    assert SplitFrom(count, values, vi, max) == [p] + tail;
    assert acc + ([p] + tail) == (acc + [p]) + tail;
  }

  /** The last round of the split loop completes the split. */
  lemma SplitLastStep(acc: seq<Packet>, count: nat, values: map<string, seq<Double>>, vi: seq<ValueInformation>, max: nat)
    requires 0 < max && count < |vi| <= count + max && SeriesCover(values, |vi|)
    requires acc + SplitFrom(count, values, vi, max) == SplitFrom(0, values, vi, max)
    ensures acc + [PacketAt(count, values, vi, max)] == SplitFrom(0, values, vi, max)
  {
    SplitFromCons(count, values, vi, max);
    assert SplitFrom(count, values, vi, max) == [PacketAt(count, values, vi, max)];
  }

  /** The copy loop of one packet's value series. */
  method CopySlice(values: map<string, seq<Double>>, lo: nat, hi: nat) returns (v: map<string, seq<Double>>)
    requires lo <= hi && SeriesCover(values, hi)
    ensures v == Slice(values, lo, hi)
  {
    v := map[];
    var rest := values.Keys;
    while rest != {}
      invariant rest <= values.Keys
      invariant v.Keys == values.Keys - rest
      invariant forall key :: key in v ==> v[key] == values[key][lo..hi]
      decreases rest
    {
      var key :| key in rest;
      v := v[key := values[key][lo..hi]];
      rest := rest - {key};
    }
  }

  /** The split packets from `count` on are the packet at `count` followed
      by the split packets from one `max` further on. */
  lemma SplitFromCons(count: nat, values: map<string, seq<Double>>, vi: seq<ValueInformation>, max: nat)
    requires 0 < max && count < |vi| && SeriesCover(values, |vi|)
    ensures SplitFrom(count, values, vi, max)
        == [PacketAt(count, values, vi, max)] + (if count + max < |vi| then SplitFrom(count + max, values, vi, max) else [])
  {
    var ps := SplitFrom(count, values, vi, max);
    var rhs := [PacketAt(count, values, vi, max)] + (if count + max < |vi| then SplitFrom(count + max, values, vi, max) else []);
    var rs := Offsets(count, |vi|, max);
    if count + max < |vi| {
      var rs' := Offsets(count + max, |vi|, max);
      assert rs == [count] + rs';
      forall k | 1 <= k < |ps|
        ensures ps[k] == rhs[k]
      {
        assert rs[k] == rs'[k - 1];
      }
    } else {
      assert rs == [count];
    }
  }

  lemma SliceJoin<T>(s: seq<T>, a: nat, b: nat, c: nat)
    requires a <= b <= c <= |s|
    ensures s[a..b] + s[b..c] == s[a..c]
    ensures c == |s| ==> s[a..b] + s[b..] == s[a..]
  {
  }

  /** Read in packet order, the split packets give back the value information
      from `count` on: no gap, no overlap. */
  lemma SplitFromConcat(count: nat, values: map<string, seq<Double>>, vi: seq<ValueInformation>, max: nat)
    requires 0 < max && count < |vi| && SeriesCover(values, |vi|)
    ensures ConcatInfo(SplitFrom(count, values, vi, max)) == vi[count..]
  {
    var ps := SplitFrom(count, values, vi, max);
    SplitFromShape(count, values, vi, max);
    SplitFromContents(count, values, vi, max);
    forall j, k | 0 <= j < |ps| - 1 && k == j + 1
      ensures ps[j].index + |ps[j].valueInformation| == ps[k].index
    {
      assert j * max + max == k * max;
    }
    CarriedInfo(ps, values, vi, count);
  }

  /** Packets that each carry their slice and follow one another without gap
      up to the end give back the value information from the first index on. */
  lemma {:induction false} CarriedInfo(ps: seq<Packet>, values: map<string, seq<Double>>, vi: seq<ValueInformation>, lo: nat)
    requires |ps| > 0 && ps[0].index == lo
    requires forall k :: 0 <= k < |ps| ==> Carries(ps[k], values, vi)
    requires forall j, k :: 0 <= j < |ps| - 1 && k == j + 1 ==> ps[j].index + |ps[j].valueInformation| == ps[k].index
    requires ps[|ps| - 1].index + |ps[|ps| - 1].valueInformation| == |vi|
    ensures lo <= |vi| && ConcatInfo(ps) == vi[lo..]
    decreases |ps|
  {
    var p := ps[0];
    assert Carries(p, values, vi);
    var hi := p.index + |p.valueInformation|;
    if |ps| == 1 {
      assert ConcatInfo(ps) == p.valueInformation + ConcatInfo(ps[1..]);
      assert ps[1..] == [];
    } else {
      var tail := ps[1..];
      assert tail[0] == ps[1];
      forall j, k | 0 <= j < |tail| - 1 && k == j + 1
        ensures tail[j].index + |tail[j].valueInformation| == tail[k].index
      {
        assert tail[j] == ps[j + 1] && tail[k] == ps[k + 1];
      }
      assert forall k :: 0 <= k < |tail| ==> tail[k] == ps[k + 1];
      CarriedInfo(tail, values, vi, hi);
      assert ConcatInfo(ps) == p.valueInformation + ConcatInfo(tail);
      SliceJoin(vi, lo, hi, |vi|);
    }
  }

  /** Read in packet order, the split packets give back every series from
      `count` up to the length of the value information. */
  lemma {:induction false} SplitFromConcatSeries(count: nat, values: map<string, seq<Double>>, vi: seq<ValueInformation>, max: nat, key: string)
    requires 0 < max && count < |vi| && SeriesCover(values, |vi|) && key in values
    ensures ConcatSeries(SplitFrom(count, values, vi, max), key) == values[key][count..|vi|]
  {
    var ps := SplitFrom(count, values, vi, max);
    SplitFromShape(count, values, vi, max);
    SplitFromContents(count, values, vi, max);
    forall j, k | 0 <= j < |ps| - 1 && k == j + 1
      ensures ps[j].index + |ps[j].valueInformation| == ps[k].index
    {
      assert j * max + max == k * max;
    }
    CarriedSeries(ps, values, vi, key, count);
  }

  /** Packets that each carry their slice and follow one another without gap
      up to the end give back the series from the first index on. */
  lemma {:induction false} CarriedSeries(ps: seq<Packet>, values: map<string, seq<Double>>, vi: seq<ValueInformation>, key: string, lo: nat)
    requires SeriesCover(values, |vi|) && key in values
    requires |ps| > 0 && ps[0].index == lo
    requires forall k :: 0 <= k < |ps| ==> Carries(ps[k], values, vi)
    requires forall j, k :: 0 <= j < |ps| - 1 && k == j + 1 ==> ps[j].index + |ps[j].valueInformation| == ps[k].index
    requires ps[|ps| - 1].index + |ps[|ps| - 1].valueInformation| == |vi|
    ensures lo <= |vi| && ConcatSeries(ps, key) == values[key][lo..|vi|]
    decreases |ps|
  {
    var p := ps[0];
    assert Carries(p, values, vi);
    var hi := p.index + |p.valueInformation|;
    assert p.values[key] == values[key][lo..hi];
    if |ps| == 1 {
      assert ConcatSeries(ps, key) == p.values[key];
    } else {
      var tail := ps[1..];
      assert tail[0] == ps[1];
      forall j, k | 0 <= j < |tail| - 1 && k == j + 1
        ensures tail[j].index + |tail[j].valueInformation| == tail[k].index
      {
        assert tail[j] == ps[j + 1] && tail[k] == ps[k + 1];
      }
      assert forall k :: 0 <= k < |tail| ==> tail[k] == ps[k + 1];
      CarriedSeries(tail, values, vi, key, hi);
      assert ConcatSeries(ps, key) == p.values[key] + ConcatSeries(tail, key);
      SliceJoin(values[key], lo, hi, |vi|);
    }
  }

  /** The shape of the split packets: the first sits at offset `count`, each
      next one `max` further on; all but the last are full, and the last ends
      exactly at the end of the value information. */
  lemma SplitFromShape(count: nat, values: map<string, seq<Double>>, vi: seq<ValueInformation>, max: nat)
    requires 0 < max && count < |vi| && SeriesCover(values, |vi|)
    ensures var ps := SplitFrom(count, values, vi, max);
      && |ps| > 0
      && (forall k :: 0 <= k < |ps| ==> ps[k].index == count + k * max)
      && (forall k :: 0 <= k < |ps| - 1 ==> |ps[k].valueInformation| == max)
      && 0 < |ps[|ps| - 1].valueInformation| <= max
      && ps[|ps| - 1].index + |ps[|ps| - 1].valueInformation| == |vi|
  {
    OffsetsShape(count, |vi|, max);
  }

  /** The offsets are `max` apart from `count` on; all but the last leave
      room for a full packet, and the last does not. */
  lemma {:induction false} OffsetsShape(count: nat, n: nat, max: nat)
    requires 0 < max && count < n
    ensures var rs := Offsets(count, n, max);
      && (forall k :: 0 <= k < |rs| ==> rs[k] == count + k * max)
      && (forall k :: 0 <= k < |rs| - 1 ==> rs[k] + max < n)
      && n <= rs[|rs| - 1] + max
    decreases n - count
  {
    var rs := Offsets(count, n, max);
    if count + max < n {
      OffsetsShape(count + max, n, max);
      var tail := Offsets(count + max, n, max);
      assert rs == [count] + tail;
      forall k | 1 <= k < |rs|
        ensures rs[k] == count + k * max
        ensures k < |rs| - 1 ==> rs[k] + max < n
      {
        assert rs[k] == tail[k - 1];
        assert (k - 1) * max + max == k * max;
      }
    }
  }

  /** Packet `p` carries the slice of the value information that starts at
      its index, and the matching slice of every series. */
  predicate Carries(p: Packet, values: map<string, seq<Double>>, vi: seq<ValueInformation>) {
    && 0 <= p.index && p.index + |p.valueInformation| <= |vi|
    && SeriesCover(values, |vi|)
    && p.valueInformation == vi[p.index..p.index + |p.valueInformation|]
    && p.values == Slice(values, p.index, p.index + |p.valueInformation|)
  }

  /** Every split packet lies at or after `count` and carries its slice. */
  lemma SplitFromContents(count: nat, values: map<string, seq<Double>>, vi: seq<ValueInformation>, max: nat)
    requires 0 < max && count < |vi| && SeriesCover(values, |vi|)
    ensures var ps := SplitFrom(count, values, vi, max);
      forall k :: 0 <= k < |ps| ==> count <= ps[k].index && Carries(ps[k], values, vi)
  {
  }

  /** Below `max` entries exactly one packet goes out, carrying the caller's
      index and all the data; from `max` entries on the caller's index is
      ignored and the first packet has index 0. In both cases the packets
      reassemble to the input. */
  lemma PacketsReassemble(index: int, values: map<string, seq<Double>>, vi: seq<ValueInformation>, max: nat)
    requires 0 < max
    requires |vi| >= max ==> SeriesCover(values, |vi|)
    ensures var ps := Packets(index, values, vi, max);
      && (|vi| < max ==> ps == [Packet(index, values, vi)])
      && (|vi| >= max ==> ps[0].index == 0 && |ps| >= 1)
      && ConcatInfo(ps) == vi
      && (|vi| >= max ==> forall key :: key in values ==> ConcatSeries(ps, key) == values[key][..|vi|])
  {
    var ps := Packets(index, values, vi, max);
    if |vi| < max {
      assert ConcatInfo(ps[1..]) == [];
      assert ConcatInfo(ps) == vi + [];
    } else {
      SplitFromConcat(0, values, vi, max);
      SplitFromShape(0, values, vi, max);
      forall key | key in values
        ensures ConcatSeries(ps, key) == values[key][..|vi|]
      {
        SplitFromConcatSeries(0, values, vi, max, key);
      }
      assert vi[0..] == vi;
    }
  }

  /** 2500 entries split at 1024 go out as three packets at indices 0, 1024
      and 2048 with 1024, 1024 and 452 entries. */
  lemma SplitExample(values: map<string, seq<Double>>, vi: seq<ValueInformation>)
    requires |vi| == 2500 && SeriesCover(values, 2500)
    ensures var ps := Packets(7, values, vi, 1024);
      && |ps| == 3
      && ps[0].index == 0 && ps[1].index == 1024 && ps[2].index == 2048
      && |ps[0].valueInformation| == 1024 && |ps[1].valueInformation| == 1024 && |ps[2].valueInformation| == 452
  {
    SplitFromCons(2048, values, vi, 1024);
    SplitFromCons(1024, values, vi, 1024);
    SplitFromCons(0, values, vi, 1024);
  }

  // ---------------------------------------------------------------------
  // The session state and its transitions

  /** A snapshot of one connection's session state. */
  datatype Conn = Conn(
    queries: map<int, QueryHandler>,
    sent: seq<HdMessage>,
    disposer: seq<QueryHandler>,
    closed: seq<QueryHandler>,
    calls: seq<BackendCall>,
    shutdown: bool,
    nextSerial: nat)

  /** Every live handler is filed under its own id and has a serial below
      `nextSerial`; live handlers and handlers awaiting disposal all have
      distinct serials. */
  ghost predicate Valid(c: Conn) {
    && (forall id :: id in c.queries ==> c.queries[id].queryId == id && c.queries[id].serial < c.nextSerial)
    && (forall i :: 0 <= i < |c.disposer| ==> c.disposer[i].serial < c.nextSerial)
    && (forall a, b :: a in c.queries && b in c.queries && a != b ==> c.queries[a].serial != c.queries[b].serial)
    && (forall id, i :: id in c.queries && 0 <= i < |c.disposer| ==> c.queries[id].serial != c.disposer[i].serial)
  }

  /** `sendQueryState`: one state message while the id is live, nothing
      otherwise. */
  function SendQueryState(c: Conn, queryId: int, state: QueryState): (r: Conn)
    ensures queryId in c.queries ==> r == c.(sent := c.sent + [UpdateQueryState(queryId, StateName(state))])
    ensures queryId !in c.queries ==> r == c
  {
    if queryId in c.queries then c.(sent := c.sent + [UpdateQueryState(queryId, StateName(state))]) else c
  }

  /** `sendQueryParameters`: one parameters message while the id is live,
      nothing otherwise. */
  function SendQueryParameters(c: Conn, queryId: int, parameters: QueryParameters, valueTypes: set<string>): (r: Conn)
    ensures queryId in c.queries ==> r == c.(sent := c.sent + [UpdateQueryParameters(queryId, parameters, valueTypes)])
    ensures queryId !in c.queries ==> r == c
  {
    if queryId in c.queries then c.(sent := c.sent + [UpdateQueryParameters(queryId, parameters, valueTypes)]) else c
  }

  function DataMessages(queryId: int, ps: seq<Packet>): (r: seq<HdMessage>)
    ensures |r| == |ps|
    ensures forall k :: 0 <= k < |ps| ==> r[k] == UpdateQueryData(queryId, ps[k])
  {
    if ps == [] then [] else [UpdateQueryData(queryId, ps[0])] + DataMessages(queryId, ps[1..])
  }

  /** `sendQueryData`: the packets of the data, in order, while the id is
      live; nothing otherwise. Nothing but the outbound log changes. */
  function SendQueryData(c: Conn, queryId: int, index: int, values: map<string, seq<Double>>, vi: seq<ValueInformation>, max: nat): (r: Conn)
    requires 0 < max
    requires queryId in c.queries && |vi| >= max ==> SeriesCover(values, |vi|)
    ensures queryId !in c.queries ==> r == c
    ensures queryId in c.queries ==>
      && r == c.(sent := r.sent)
      && |r.sent| == |c.sent| + |Packets(index, values, vi, max)|
      && r.sent[..|c.sent|] == c.sent
      && forall k :: 0 <= k < |Packets(index, values, vi, max)| ==>
           r.sent[|c.sent| + k] == UpdateQueryData(queryId, Packets(index, values, vi, max)[k])
  {
    if queryId in c.queries then c.(sent := c.sent + DataMessages(queryId, Packets(index, values, vi, max))) else c
  }

  /** `handleChangeQueryParameters`: forwarded to the live handler, ignored
      for an unknown id. */
  function ChangeQueryParametersStep(c: Conn, queryId: int, parameters: QueryParameters): (r: Conn)
    ensures queryId !in c.queries ==> r == c
    ensures queryId in c.queries ==>
      r == c.(calls := c.calls + [ChangeParameters(c.queries[queryId].serial, parameters)])
  {
    if queryId in c.queries then c.(calls := c.calls + [ChangeParameters(c.queries[queryId].serial, parameters)]) else c
  }

  /** `handleCloseQuery`: DISCONNECTED goes out while the id is still live,
      then the id is forgotten and its handler queued for disposal (the queue
      refuses new work once the connection is disposed). An unknown id sends
      nothing and queues nothing. */
  function CloseQueryStep(c: Conn, queryId: int): (r: Conn)
    requires Valid(c)
    ensures Valid(r)
    ensures queryId !in r.queries
    ensures queryId !in c.queries ==> r == c
    ensures queryId in c.queries ==>
      && r.sent == c.sent + [UpdateQueryState(queryId, "DISCONNECTED")]
      && r.queries == c.queries - {queryId}
      && r.disposer == (if c.shutdown then c.disposer else c.disposer + [c.queries[queryId]])
      && r.closed == c.closed && r.calls == c.calls && r.nextSerial == c.nextSerial && r.shutdown == c.shutdown
  {
    var c1 := SendQueryState(c, queryId, QueryState.Disconnected);
    if queryId in c1.queries then
      var handler := c1.queries[queryId];
      var c2 := c1.(queries := c1.queries - {queryId});
      if c2.shutdown then c2 else c2.(disposer := c2.disposer + [handler])
    else c1
  }

  /** `handleCreateQuery` with `makeQuery`. A duplicate id gets exactly one
      CreateQueryFailure and changes nothing else. A fresh id is filed under a
      new handler before the backend is asked; a null query sends
      DISCONNECTED and forgets the id again; a query sets the handler's query;
      a backend exception sends DISCONNECTED while the id is still filed, and
      the id stays filed. */
  function CreateQueryStep(c: Conn, m: CreateQueryRequest, outcome: CreateOutcome): (r: Conn)
    requires Valid(c)
    ensures Valid(r)
    ensures m.queryId in c.queries ==>
      r == c.(sent := c.sent + [CreateQueryFailure(m.request, ErrorInformation(None, Some("Duplicate query id: " + DecimalString(m.queryId)), None))])
    ensures m.queryId !in c.queries ==>
      && r.calls == c.calls + [CreateBackendQuery(c.nextSerial, m.itemId, m.parameters, m.updateData)]
      && r.nextSerial == c.nextSerial + 1
      && r.disposer == c.disposer && r.closed == c.closed && r.shutdown == c.shutdown
      && match outcome
         case Created(q) =>
           r.queries == c.queries[m.queryId := QueryHandler(c.nextSerial, m.queryId, Some(q))] && r.sent == c.sent
         case ReturnedNull =>
           r.queries == c.queries && r.sent == c.sent + [UpdateQueryState(m.queryId, "DISCONNECTED")]
         case Threw =>
           r.queries == c.queries[m.queryId := QueryHandler(c.nextSerial, m.queryId, None)]
           && r.sent == c.sent + [UpdateQueryState(m.queryId, "DISCONNECTED")]
  {
    if m.queryId in c.queries then
      c.(sent := c.sent + [CreateQueryFailure(m.request, ErrorInformation(None, Some("Duplicate query id: " + DecimalString(m.queryId)), None))])
    else
      var handler := QueryHandler(c.nextSerial, m.queryId, None);
      var calls := c.calls + [CreateBackendQuery(handler.serial, m.itemId, m.parameters, m.updateData)];
      // the handler is filed before the backend is asked, so the state
      // message of a failed creation goes out while the id is live
      var disconnected := c.sent + [UpdateQueryState(m.queryId, StateName(QueryState.Disconnected))];
      match outcome
      case Created(q) =>
        ValidFileQuery(c, handler.(query := Some(q)), c.sent, calls);
        c.(queries := c.queries[m.queryId := handler.(query := Some(q))], nextSerial := c.nextSerial + 1, calls := calls)
      case ReturnedNull =>
        ValidFileQuery(c, handler, disconnected, calls);
        c.(nextSerial := c.nextSerial + 1, calls := calls, sent := disconnected)
      case Threw =>
        ValidFileQuery(c, handler, disconnected, calls);
        c.(queries := c.queries[m.queryId := handler], nextSerial := c.nextSerial + 1, calls := calls, sent := disconnected)
  }

  /** Filing a handler under a fresh id with the next serial keeps the
      connection valid, and so does only taking the serial. */
  lemma ValidFileQuery(c: Conn, h: QueryHandler, sent: seq<HdMessage>, calls: seq<BackendCall>)
    requires Valid(c) && h.queryId !in c.queries && h.serial == c.nextSerial
    ensures Valid(c.(queries := c.queries[h.queryId := h], nextSerial := c.nextSerial + 1, sent := sent, calls := calls))
    ensures Valid(c.(nextSerial := c.nextSerial + 1, sent := sent, calls := calls))
  {
    var c1 := c.(queries := c.queries[h.queryId := h], nextSerial := c.nextSerial + 1, sent := sent, calls := calls);
    forall a, b | a in c1.queries && b in c1.queries && a != b
      ensures c1.queries[a].serial != c1.queries[b].serial
    {
      if a != h.queryId && b != h.queryId {
        assert c1.queries[a] == c.queries[a] && c1.queries[b] == c.queries[b];
      }
    }
  }

  /** The disposer runs the oldest pending `close()`; the live queries and
      the outbound log are untouched. */
  function RunDisposalStep(c: Conn): (r: Conn)
    requires Valid(c)
    ensures Valid(r)
    ensures r.queries == c.queries && r.sent == c.sent
    ensures c.disposer == [] ==> r == c
    ensures c.disposer != [] ==> r.disposer == c.disposer[1..] && r.closed == c.closed + [c.disposer[0]]
  {
    if c.disposer == [] then c else c.(disposer := c.disposer[1..], closed := c.closed + [c.disposer[0]])
  }

  /** `dispose` shuts the disposer down and, unlike the alarm/event session,
      leaves every live query in place. */
  function DisposeStep(c: Conn): (r: Conn)
    requires Valid(c)
    ensures Valid(r)
    ensures r.queries == c.queries && r.shutdown
    ensures r == c.(shutdown := true)
  {
    c.(shutdown := true)
  }

  /** `messageReceived`: the dispatch on the inbound message type. Messages
      this session does not handle itself go to the generic connection and
      are not part of this model. */
  function ReceiveStep(c: Conn, msg: HdInbound, outcome: CreateOutcome): (r: Conn)
    requires Valid(c)
    ensures Valid(r)
    ensures msg.OtherMessage? ==> r == c
  {
    match msg
    case StartBrowse => c.(calls := c.calls + [SetItemListListener(true)])
    case StopBrowse => c.(calls := c.calls + [SetItemListListener(false)])
    case CloseQuery(id) => CloseQueryStep(c, id)
    case CreateQuery(m) => CreateQueryStep(c, m, outcome)
    case ChangeQueryParameters(id, p) => ChangeQueryParametersStep(c, id, p)
    case OtherMessage => c
  }

  /** Closing a live id and creating it again at once gives a new handler,
      distinct from the one awaiting disposal; running that disposal leaves
      the new query in place. */
  lemma CloseThenRecreate(c: Conn, m: CreateQueryRequest, q: BackendQuery)
    requires Valid(c) && m.queryId in c.queries && !c.shutdown
    ensures var c1 := CloseQueryStep(c, m.queryId);
      var c2 := CreateQueryStep(c1, m, Created(q));
      && m.queryId in c2.queries
      && c2.queries[m.queryId].query == Some(q)
      && c2.disposer[|c2.disposer| - 1] == c.queries[m.queryId]
      && c2.queries[m.queryId] != c.queries[m.queryId]
      && forall d :: d in c2.disposer ==> d.serial != c2.queries[m.queryId].serial
  {
    var c1 := CloseQueryStep(c, m.queryId);
    var c2 := CreateQueryStep(c1, m, Created(q));
    assert c.queries[m.queryId].serial < c.nextSerial;
    forall d | d in c2.disposer
      ensures d.serial != c2.queries[m.queryId].serial
    {
      var i :| 0 <= i < |c2.disposer| && c2.disposer[i] == d;
      assert d.serial < c1.nextSerial;
    }
  }

  // ---------------------------------------------------------------------
  // The connection object

  class ServerConnection {
    var queries: map<int, QueryHandler>
    var sent: seq<HdMessage>
    var disposer: seq<QueryHandler>
    var closed: seq<QueryHandler>
    var calls: seq<BackendCall>
    var shutdown: bool
    var nextSerial: nat
    /** The packet size, read from a system property with default 1024. */
    const maxDataSize: nat

    function State(): Conn
      reads this
    {
      Conn(queries, sent, disposer, closed, calls, shutdown, nextSerial)
    }

    ghost predicate Inv()
      reads this
    {
      Valid(State()) && maxDataSize > 0
    }

    constructor (maxDataSize: nat)
      requires maxDataSize > 0
      ensures Inv()
      ensures State() == Conn(map[], [], [], [], [], false, 0)
      ensures this.maxDataSize == maxDataSize
    {
      this.maxDataSize := maxDataSize;
      queries, sent, disposer, closed, calls, shutdown, nextSerial := map[], [], [], [], [], false, 0;
    }

    method SendQueryStateMsg(queryId: int, state: QueryState)
      requires Inv()
      modifies this
      ensures Inv()
      ensures State() == SendQueryState(old(State()), queryId, state)
    {
      if queryId !in queries {
        return;
      }
      sent := sent + [UpdateQueryState(queryId, StateName(state))];
    }

    method SendQueryParametersMsg(queryId: int, parameters: QueryParameters, valueTypes: set<string>)
      requires Inv()
      modifies this
      ensures Inv()
      ensures State() == SendQueryParameters(old(State()), queryId, parameters, valueTypes)
    {
      if queryId !in queries {
        return;
      }
      sent := sent + [UpdateQueryParameters(queryId, parameters, valueTypes)];
    }

    method SendQueryDataMsg(queryId: int, index: int, values: map<string, seq<Double>>, vi: seq<ValueInformation>)
      requires Inv()
      requires queryId in queries && |vi| >= maxDataSize ==> SeriesCover(values, |vi|)
      modifies this
      ensures Inv()
      ensures State() == SendQueryData(old(State()), queryId, index, values, vi, maxDataSize)
    {
      if queryId !in queries {
        return;
      }
      var packets := SplitQueryData(index, values, vi, maxDataSize);
      var msgs := DataMessagesOf(queryId, packets);
      sent := sent + msgs;
      SendQueryDataLive(old(State()), queryId, index, values, vi, maxDataSize, packets);
      ValidSent(old(State()), sent);
    }

    method HandleChangeQueryParameters(queryId: int, parameters: QueryParameters)
      requires Inv()
      modifies this
      ensures Inv()
      ensures State() == ChangeQueryParametersStep(old(State()), queryId, parameters)
    {
      if queryId in queries {
        calls := calls + [ChangeParameters(queries[queryId].serial, parameters)];
      }
    }

    method HandleCloseQuery(queryId: int)
      requires Inv()
      modifies this
      ensures Inv()
      ensures State() == CloseQueryStep(old(State()), queryId)
    {
      SendQueryStateMsg(queryId, QueryState.Disconnected);
      if queryId in queries {
        var handler := queries[queryId];
        queries := queries - {queryId};
        if !shutdown {
          disposer := disposer + [handler];
        }
      }
    }

    method HandleCreateQuery(m: CreateQueryRequest, outcome: CreateOutcome)
      requires Inv()
      modifies this
      ensures Inv()
      ensures State() == CreateQueryStep(old(State()), m, outcome)
    {
      if m.queryId in queries {
        sent := sent + [CreateQueryFailure(m.request, ErrorInformation(None, Some("Duplicate query id: " + DecimalString(m.queryId)), None))];
        return;
      }
      CreateFreshQuery(m, outcome);
    }

    /** The part of `createQuery` after the duplicate check. */
    method CreateFreshQuery(m: CreateQueryRequest, outcome: CreateOutcome)
      requires Inv() && m.queryId !in queries
      modifies this
      ensures Inv()
      ensures State() == CreateQueryStep(old(State()), m, outcome)
    {
      ghost var c := State();
      ghost var target := CreateQueryStep(c, m, outcome);
      var handler := QueryHandler(nextSerial, m.queryId, None);
      queries := queries[m.queryId := handler];
      nextSerial := nextSerial + 1;
      calls := calls + [CreateBackendQuery(handler.serial, m.itemId, m.parameters, m.updateData)];
      // `sendQueryState` finds the id filed, so the state message goes out
      match outcome {
        case Created(q) =>
          queries := queries[m.queryId := handler.(query := Some(q))];
          assert queries == c.queries[m.queryId := handler.(query := Some(q))];
          assert State() == c.(queries := queries, nextSerial := nextSerial, calls := calls);
          assert State() == target;
        case ReturnedNull =>
          sent := sent + [UpdateQueryState(m.queryId, StateName(QueryState.Disconnected))];
          queries := queries - {m.queryId};
          assert queries == c.queries;
          assert State() == c.(nextSerial := nextSerial, calls := calls, sent := sent);
          assert State() == target;
        case Threw =>
          sent := sent + [UpdateQueryState(m.queryId, StateName(QueryState.Disconnected))];
          assert State() == c.(queries := queries, nextSerial := nextSerial, calls := calls, sent := sent);
          assert State() == target;
      }
    }

    method RunNextDisposal()
      requires Inv()
      modifies this
      ensures Inv()
      ensures State() == RunDisposalStep(old(State()))
    {
      if disposer != [] {
        closed := closed + [disposer[0]];
        disposer := disposer[1..];
      }
    }

    method Dispose()
      requires Inv()
      modifies this
      ensures Inv()
      ensures State() == DisposeStep(old(State()))
    {
      shutdown := true;
    }

    method MessageReceived(msg: HdInbound, outcome: CreateOutcome)
      requires Inv()
      modifies this
      ensures Inv()
      ensures State() == ReceiveStep(old(State()), msg, outcome)
    {
      match msg {
        case StartBrowse => calls := calls + [SetItemListListener(true)];
        case StopBrowse => calls := calls + [SetItemListListener(false)];
        case CloseQuery(id) => HandleCloseQuery(id);
        case CreateQuery(m) => HandleCreateQuery(m, outcome);
        case ChangeQueryParameters(id, p) => HandleChangeQueryParameters(id, p);
        case OtherMessage =>
      }
    }

    /** `handleListChanged`: the item list update is forwarded as is. */
    method HandleListChanged(addedOrModified: set<ItemInformation>, removed: set<string>, full: bool)
      requires Inv()
      modifies this
      ensures Inv()
      ensures State() == old(State()).(sent := old(sent) + [ListUpdate(addedOrModified, removed, full)])
    {
      sent := sent + [ListUpdate(addedOrModified, removed, full)];
    }
  }

  /** For a live id, the data step appends exactly the messages of the
      given packets. */
  lemma SendQueryDataLive(c: Conn, queryId: int, index: int, values: map<string, seq<Double>>, vi: seq<ValueInformation>, max: nat,
                          packets: seq<Packet>)
    requires 0 < max
    requires |vi| >= max ==> SeriesCover(values, |vi|)
    requires queryId in c.queries && packets == Packets(index, values, vi, max)
    ensures SendQueryData(c, queryId, index, values, vi, max) == c.(sent := c.sent + DataMessages(queryId, packets))
  {
  }

  /** The outbound log plays no part in validity. */
  lemma ValidSent(c: Conn, sent: seq<HdMessage>)
    requires Valid(c)
    ensures Valid(c.(sent := sent))
  {
  }

  /** The write loop of `sendQueryData`: one data message per packet, in
      packet order. */
  method DataMessagesOf(queryId: int, packets: seq<Packet>) returns (msgs: seq<HdMessage>)
    ensures msgs == DataMessages(queryId, packets)
  {
    msgs := [];
    var i := 0;
    while i < |packets|
      invariant 0 <= i <= |packets|
      invariant msgs == DataMessages(queryId, packets[..i])
    {
      assert packets[..i + 1] == packets[..i] + [packets[i]];
      DataMessagesAppend(queryId, packets[..i], packets[i]);
      msgs := msgs + [UpdateQueryData(queryId, packets[i])];
      i := i + 1;
    }
    assert packets[..i] == packets;
  }

  lemma DataMessagesAppend(queryId: int, ps: seq<Packet>, p: Packet)
    ensures DataMessages(queryId, ps + [p]) == DataMessages(queryId, ps) + [UpdateQueryData(queryId, p)]
  {
  }
}
