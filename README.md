# openSCADA session and client core, modelled in Dafny

openSCADA is a supervisory control and data acquisition toolkit. Its
servers publish data items (DA), alarms and events (AE) and historical data
(HD). Clients and viewers connect to them through sessions over the NGP
network protocol, and through the simple field protocol (SFP).

This project models the parts of that system that keep session state:

- **AE server session** (`AeServerConnection`). It keeps a map from client
  query ids to open queries and at most one browser listener. It forwards
  acknowledgements and pool subscriptions, and closes every open query on
  dispose.
- **HD server session** (`HdServerConnection`). It keeps a map from query
  ids to query handlers and a disposer queue. It splits query data into
  packets of at most `maxDataSize` entries.
- **SFP client** (`ReadAllStrategyModel`, `SfpDataManager`):
  - the data manager caches register values, maps registers to item ids
    and queues listener notifications;
  - the read-all strategy converts protocol updates, builds the folder
    hierarchy, polls, and tracks pending writes.
- **DA client folder controller** (`FolderSync`). It subscribes to a
  browsed folder exactly while someone listens.
- **Viewer data item output** (`DataItemOutputModel`). It is registered
  with its item exactly while it has listeners.
- **Query browser group folder** (`GroupFolderModel`). It remembers which
  sub-folder holds each item descriptor.
- **Data source handler base** (`DataSourceHandlerModel`). It follows one
  data source through a tracker.
- **Data store data source** (`DataStoreDataSourceModel`). It publishes the
  content of one data store node.
- **Summarize chain item** (`SummarizeChainItemModel`). It counts the
  attributes that meet a condition.
- **Event monitor** (`EventMonitorModel`). It raises a failure state for
  events that match a filter.
- **AE subscribe and unsubscribe messages** (`AeMessagesModel`). Their
  encoding into protocol messages and back.

## How the model is shaped

Each Java class whose fields change in place becomes a Dafny `class` with
the same fields. Its methods have `modifies` clauses. Each method is
specified by a pure step function over a snapshot datatype:
`ensures State() == XStep(old(State()), …)`. The properties are proved:

- in the `ensures` clauses of the step functions;
- as lemmas about those step functions;
- as a validity predicate (`Valid`) that every step preserves.

Work that the code hands to collaborators is recorded in logs inside the
snapshot: messages sent, calls on a backend, listener calls, executor
tasks. Where the code registers and unregisters a listener, the log is a
`Ledger` of `Add`/`Drop` entries. `Holds(log, live)` states that exactly the
keys in `live` are registered, and each of them exactly once. Answers that
collaborators give are parameters of the step: an exception thrown, a
filter match, the iteration order of a hash map.

Loops in the source (conversion of events, closing all queries, the packet
split of HD query data, notifying every listener, the entry loops of the
SFP updates, the attribute loop of the summarize item) are `while` loops
with invariants in module-level methods. They are proved against a
recursive specification function.

## Model

| member | source | states |
|---|---|---|
| AeServerConnection.ConvertEventInjective | org.openscada.ae.server.ngp/src/org/openscada/ae/server/ngp/ServerConnectionImpl.java:357-360 | converting an event to its wire form loses nothing: different events give different event information |
| AeServerConnection.ConvertEvents | org.openscada.ae.server.ngp/src/org/openscada/ae/server/ngp/ServerConnectionImpl.java:345-355 | the loop of `convert` yields one converted event per input event, in the same order |
| AeServerConnection.ConvertAll | org.openscada.ae.server.ngp/src/org/openscada/ae/server/ngp/ServerConnectionImpl.java:345-355 | the converted list has the input's length and holds the conversion of the event at each position |
| AeServerConnection.AcknowledgeResponseFor | org.openscada.ae.server.ngp/src/org/openscada/ae/server/ngp/ServerConnectionImpl.java:206-230 | the response echoes the request id; it carries no error exactly when the acknowledgement succeeded; a permission failure gives code 0x01 with "Permission denied" |
| AeServerConnection.StateError | org.openscada.ae.server.ngp/src/org/openscada/ae/server/ngp/ServerConnectionImpl.java:334-343 | a query state's error information has no code, and carries the exception's message and formatted text when there is one |
| AeServerConnection.DuplicateMessage | org.openscada.ae.server.ngp/src/org/openscada/ae/server/ngp/ServerConnectionImpl.java:232-245 | a duplicate query id is reported with a non-empty message naming the id |
| AeServerConnection.DuplicateMessageInjective | org.openscada.ae.server.ngp/src/org/openscada/ae/server/ngp/ServerConnectionImpl.java:236-238 | different query ids give different duplicate-id messages |
| AeServerConnection.CreateQueryStep | org.openscada.ae.server.ngp/src/org/openscada/ae/server/ngp/ServerConnectionImpl.java:232-245 | a duplicate id changes nothing and raises; otherwise the backend is asked under a new serial; when it returns, the id is filed with whatever came back, even null; when it throws, nothing is filed and the exception propagates; validity is kept |
| AeServerConnection.LoadMoreStep | org.openscada.ae.server.ngp/src/org/openscada/ae/server/ngp/ServerConnectionImpl.java:247-255 | `loadMore` goes to the open query of that id and only to it; an unknown id changes nothing |
| AeServerConnection.CloseQueryStep | org.openscada.ae.server.ngp/src/org/openscada/ae/server/ngp/ServerConnectionImpl.java:257-265 | the open query is told to close, but its id stays in the query map and nothing is sent |
| AeServerConnection.SendQueryData | org.openscada.ae.server.ngp/src/org/openscada/ae/server/ngp/ServerConnectionImpl.java:323-332 | one data message with the converted events goes out while the id is open; nothing otherwise |
| AeServerConnection.SendQueryState | org.openscada.ae.server.ngp/src/org/openscada/ae/server/ngp/ServerConnectionImpl.java:334-343 | one state message with the state and its error information goes out while the id is open; nothing otherwise |
| AeServerConnection.StartBrowseStep | org.openscada.ae.server.ngp/src/org/openscada/ae/server/ngp/ServerConnectionImpl.java:312-321 | a second start is a no-op; otherwise a new browser manager is created and registered as the session's browser listener |
| AeServerConnection.StopBrowseStep | org.openscada.ae.server.ngp/src/org/openscada/ae/server/ngp/ServerConnectionImpl.java:301-310 | a stop without a browser is a no-op; otherwise the browser listener is removed and the session has no browser |
| AeServerConnection.BrowseDataChangedStep | org.openscada.ae.server.ngp/src/org/openscada/ae/server/ngp/ServerConnectionImpl.java:362-370 | browse data is forwarded exactly when it comes from the current browser manager |
| AeServerConnection.AckRequestStep | org.openscada.ae.server.ngp/src/org/openscada/ae/server/ngp/ServerConnectionImpl.java:206-230 | an acknowledge request is passed to the backend with its monitor id and timestamp; nothing is sent yet; the request raises exactly when the backend's call throws, with that exception's message, and then no response follows |
| AeServerConnection.AckCompletedStep | org.openscada.ae.server.ngp/src/org/openscada/ae/server/ngp/ServerConnectionImpl.java:206-230 | completing the acknowledgement appends exactly the response `AcknowledgeResponseFor` gives (the request echoed; no error on success, code 0x01 "Permission denied" on failure) and changes nothing else |
| AeServerConnection.AckAnswered | org.openscada.ae.server.ngp/src/org/openscada/ae/server/ngp/ServerConnectionImpl.java:206-230 | an acknowledge request followed by its completion leaves one backend call and one response for that request, which carries an error exactly when the backend failed; queries, browser and serials stay |
| AeServerConnection.PoolCall | org.openscada.ae.server.ngp/src/org/openscada/ae/server/ngp/ServerConnectionImpl.java:267-299 | exactly the four pool subscription messages become a backend call |
| AeServerConnection.ReceiveStep | org.openscada.ae.server.ngp/src/org/openscada/ae/server/ngp/ServerConnectionImpl.java:156-204 | dispatch on the message type; unknown messages change nothing; only a create request can change the query map; besides a create request, only an acknowledge request raises, and exactly when the backend's call throws |
| AeServerConnection.StaleManagerDropped | org.openscada.ae.server.ngp/src/org/openscada/ae/server/ngp/ServerConnectionImpl.java:362-370 | after start then stop, browse data from the stopped manager is dropped |
| AeServerConnection.CloseOne | org.openscada.ae.server.ngp/src/org/openscada/ae/server/ngp/ServerConnectionImpl.java:88-96 | closing one more open query adds exactly its close call, which was not made before |
| AeServerConnection.CloseAll | org.openscada.ae.server.ngp/src/org/openscada/ae/server/ngp/ServerConnectionImpl.java:88-96 | the dispose loop makes one close call per open query, none twice, for exactly the open queries |
| AeServerConnection.ServerConnection.constructor | org.openscada.ae.server.ngp/src/org/openscada/ae/server/ngp/ServerConnectionImpl.java:82-85 | a new session has no queries, no browser and empty logs |
| AeServerConnection.ServerConnection.HandleCreateQuery | org.openscada.ae.server.ngp/src/org/openscada/ae/server/ngp/ServerConnectionImpl.java:232-245 | behaves as `CreateQueryStep` and keeps the session valid |
| AeServerConnection.ServerConnection.HandleLoadMore | org.openscada.ae.server.ngp/src/org/openscada/ae/server/ngp/ServerConnectionImpl.java:247-255 | behaves as `LoadMoreStep` |
| AeServerConnection.ServerConnection.HandleCloseQuery | org.openscada.ae.server.ngp/src/org/openscada/ae/server/ngp/ServerConnectionImpl.java:257-265 | behaves as `CloseQueryStep` |
| AeServerConnection.ServerConnection.HandleStartBrowse | org.openscada.ae.server.ngp/src/org/openscada/ae/server/ngp/ServerConnectionImpl.java:312-321 | behaves as `StartBrowseStep` |
| AeServerConnection.ServerConnection.HandleStopBrowse | org.openscada.ae.server.ngp/src/org/openscada/ae/server/ngp/ServerConnectionImpl.java:301-310 | behaves as `StopBrowseStep` |
| AeServerConnection.ServerConnection.SendQueryDataMsg | org.openscada.ae.server.ngp/src/org/openscada/ae/server/ngp/ServerConnectionImpl.java:323-332 | behaves as `SendQueryData` |
| AeServerConnection.ServerConnection.SendQueryStateMsg | org.openscada.ae.server.ngp/src/org/openscada/ae/server/ngp/ServerConnectionImpl.java:334-343 | behaves as `SendQueryState` |
| AeServerConnection.ServerConnection.HandleBrowseDataChanged | org.openscada.ae.server.ngp/src/org/openscada/ae/server/ngp/ServerConnectionImpl.java:362-370 | behaves as `BrowseDataChangedStep` |
| AeServerConnection.ServerConnection.HandleAknRequest | org.openscada.ae.server.ngp/src/org/openscada/ae/server/ngp/ServerConnectionImpl.java:206-230 | behaves as `AckRequestStep`, returning the backend's exception message when its call throws |
| AeServerConnection.ServerConnection.AckCompleted | org.openscada.ae.server.ngp/src/org/openscada/ae/server/ngp/ServerConnectionImpl.java:206-230 | behaves as `AckCompletedStep` |
| AeServerConnection.ServerConnection.HandleEventDataChange | org.openscada.ae.server.ngp/src/org/openscada/ae/server/ngp/ServerConnectionImpl.java:135-138 | new pool events go out converted in one message |
| AeServerConnection.ServerConnection.HandleMonitorDataChanged | org.openscada.ae.server.ngp/src/org/openscada/ae/server/ngp/ServerConnectionImpl.java:140-143 | the monitor changes go out unchanged in one message, and nothing else changes |
| AeServerConnection.ServerConnection.HandleEventStatusChange | org.openscada.ae.server.ngp/src/org/openscada/ae/server/ngp/ServerConnectionImpl.java:145-148 | the event pool's subscription state goes out in one message, and nothing else changes |
| AeServerConnection.ServerConnection.HandleMonitorStatusChange | org.openscada.ae.server.ngp/src/org/openscada/ae/server/ngp/ServerConnectionImpl.java:150-153 | the monitor pool's subscription state goes out in one message, and nothing else changes |
| AeServerConnection.ServerConnection.MessageReceived | org.openscada.ae.server.ngp/src/org/openscada/ae/server/ngp/ServerConnectionImpl.java:156-204 | behaves as `ReceiveStep`, including the exception an acknowledge request raises when the backend throws |
| AeServerConnection.ServerConnection.Dispose | org.openscada.ae.server.ngp/src/org/openscada/ae/server/ngp/ServerConnectionImpl.java:88-96 | every open query is closed exactly once and the map is emptied; browser, sent messages and serials are unchanged |
| HdServerConnection.Offsets | org.openscada.hd.server.ngp/src/org/openscada/hd/server/ngp/ServerConnectionImpl.java:269-313 | the split loop's offsets start at the current count and stay below the number of entries |
| HdServerConnection.SplitQueryData | org.openscada.hd.server.ngp/src/org/openscada/hd/server/ngp/ServerConnectionImpl.java:269-313 | the do-while split loop produces exactly the packets `Packets` specifies |
| HdServerConnection.SplitStep | org.openscada.hd.server.ngp/src/org/openscada/hd/server/ngp/ServerConnectionImpl.java:269-313 | a round that leaves entries to send extends the packets sent so far by the packet at the current offset, and the rest of the split follows |
| HdServerConnection.SplitLastStep | org.openscada.hd.server.ngp/src/org/openscada/hd/server/ngp/ServerConnectionImpl.java:269-313 | the last round of the split loop completes the split |
| HdServerConnection.CopySlice | org.openscada.hd.server.ngp/src/org/openscada/hd/server/ngp/ServerConnectionImpl.java:300-305 | the copy loop gives every value series cut to the packet's range |
| HdServerConnection.SplitFromCons | org.openscada.hd.server.ngp/src/org/openscada/hd/server/ngp/ServerConnectionImpl.java:269-313 | the packets from an offset are the packet there followed by the packets from the next offset |
| HdServerConnection.SplitFromConcat | org.openscada.hd.server.ngp/src/org/openscada/hd/server/ngp/ServerConnectionImpl.java:269-313 | read in order, the split packets give back the value information from the offset on |
| HdServerConnection.CarriedInfo | org.openscada.hd.server.ngp/src/org/openscada/hd/server/ngp/ServerConnectionImpl.java:269-313 | gap-free packets that each carry their slice concatenate to the value information |
| HdServerConnection.SplitFromConcatSeries | org.openscada.hd.server.ngp/src/org/openscada/hd/server/ngp/ServerConnectionImpl.java:269-313 | read in order, the split packets give back every value series from the offset on |
| HdServerConnection.CarriedSeries | org.openscada.hd.server.ngp/src/org/openscada/hd/server/ngp/ServerConnectionImpl.java:269-313 | gap-free packets that each carry their slice concatenate to every value series |
| HdServerConnection.SplitFromShape | org.openscada.hd.server.ngp/src/org/openscada/hd/server/ngp/ServerConnectionImpl.java:269-313 | the first packet sits at the offset, each packet holds at most `maxDataSize` entries, and each one starts where the previous one ended |
| HdServerConnection.OffsetsShape | org.openscada.hd.server.ngp/src/org/openscada/hd/server/ngp/ServerConnectionImpl.java:269-313 | the offsets are `maxDataSize` apart, and all but the last leave more entries to send |
| HdServerConnection.SplitFromContents | org.openscada.hd.server.ngp/src/org/openscada/hd/server/ngp/ServerConnectionImpl.java:269-313 | every split packet lies at or after the offset and carries its slice of information and values |
| HdServerConnection.PacketsReassemble | org.openscada.hd.server.ngp/src/org/openscada/hd/server/ngp/ServerConnectionImpl.java:269-313 | below the limit one packet goes out at the caller's index; above it, the packets reassemble to the full information and series |
| HdServerConnection.SplitExample | org.openscada.hd.server.ngp/src/org/openscada/hd/server/ngp/ServerConnectionImpl.java:269-313 | 2500 entries at a limit of 1024 go out as three packets at 0, 1024 and 2048 |
| HdServerConnection.DataMessages | org.openscada.hd.server.ngp/src/org/openscada/hd/server/ngp/ServerConnectionImpl.java:289-310 | one data message per packet, in packet order |
| HdServerConnection.DataMessagesOf | org.openscada.hd.server.ngp/src/org/openscada/hd/server/ngp/ServerConnectionImpl.java:289-310 | the write loop sends exactly the messages `DataMessages` lists |
| HdServerConnection.DataMessagesAppend | org.openscada.hd.server.ngp/src/org/openscada/hd/server/ngp/ServerConnectionImpl.java:289-310 | one more packet adds exactly its own message at the end |
| HdServerConnection.SendQueryDataLive | org.openscada.hd.server.ngp/src/org/openscada/hd/server/ngp/ServerConnectionImpl.java:269-313 | for an open id, sending data appends exactly the messages of the split packets |
| HdServerConnection.SendQueryState | org.openscada.hd.server.ngp/src/org/openscada/hd/server/ngp/ServerConnectionImpl.java:339-352 | a state message with the state's name goes out while the id is live; nothing otherwise |
| HdServerConnection.SendQueryParameters | org.openscada.hd.server.ngp/src/org/openscada/hd/server/ngp/ServerConnectionImpl.java:327-337 | a parameters message goes out while the id is live; nothing otherwise |
| HdServerConnection.SendQueryData | org.openscada.hd.server.ngp/src/org/openscada/hd/server/ngp/ServerConnectionImpl.java:269-313 | while the id is live the split packets go out in order; nothing otherwise |
| HdServerConnection.ChangeQueryParametersStep | org.openscada.hd.server.ngp/src/org/openscada/hd/server/ngp/ServerConnectionImpl.java:147-157 | a parameter change goes to the live handler of that id; an unknown id changes nothing |
| HdServerConnection.CloseQueryStep | org.openscada.hd.server.ngp/src/org/openscada/hd/server/ngp/ServerConnectionImpl.java:159-196 | a live id is told DISCONNECTED and leaves the map; its query's close is queued on the disposer unless the disposer is shut down, in which case the disposer is unchanged; an unknown id changes nothing |
| HdServerConnection.CreateQueryStep | org.openscada.hd.server.ngp/src/org/openscada/hd/server/ngp/ServerConnectionImpl.java:198-267 | a duplicate id gets one CreateQueryFailure and changes nothing else; otherwise a handler with a new serial is filed before the backend is asked; when the backend returns null, the id is dropped and DISCONNECTED is sent; when the backend throws, DISCONNECTED is sent and the id stays filed; validity is kept |
| HdServerConnection.ValidFileQuery | org.openscada.hd.server.ngp/src/org/openscada/hd/server/ngp/ServerConnectionImpl.java:198-267 | filing a handler with a new serial under a fresh id keeps the session valid |
| HdServerConnection.RunDisposalStep | org.openscada.hd.server.ngp/src/org/openscada/hd/server/ngp/ServerConnectionImpl.java:159-196 | the disposer runs the oldest pending close, in order, and touches nothing else |
| HdServerConnection.DisposeStep | org.openscada.hd.server.ngp/src/org/openscada/hd/server/ngp/ServerConnectionImpl.java:91-95 | dispose only shuts the disposer down: the live queries stay in the map |
| HdServerConnection.ReceiveStep | org.openscada.hd.server.ngp/src/org/openscada/hd/server/ngp/ServerConnectionImpl.java:98-136 | dispatch on the message type; unknown messages change nothing; validity is kept |
| HdServerConnection.CloseThenRecreate | org.openscada.hd.server.ngp/src/org/openscada/hd/server/ngp/ServerConnectionImpl.java:159-267 | closing a live id and creating it again gives a handler with a new serial, and the old query's close is still pending |
| HdServerConnection.ValidSent | org.openscada.hd.server.ngp/src/org/openscada/hd/server/ngp/ServerConnectionImpl.java:269-352 | the outbound log plays no part in validity |
| HdServerConnection.ServerConnection.constructor | org.openscada.hd.server.ngp/src/org/openscada/hd/server/ngp/ServerConnectionImpl.java:78-88 | a new session is empty and uses the given packet limit |
| HdServerConnection.ServerConnection.SendQueryStateMsg | org.openscada.hd.server.ngp/src/org/openscada/hd/server/ngp/ServerConnectionImpl.java:339-352 | behaves as `SendQueryState` |
| HdServerConnection.ServerConnection.SendQueryParametersMsg | org.openscada.hd.server.ngp/src/org/openscada/hd/server/ngp/ServerConnectionImpl.java:327-337 | behaves as `SendQueryParameters` |
| HdServerConnection.ServerConnection.SendQueryDataMsg | org.openscada.hd.server.ngp/src/org/openscada/hd/server/ngp/ServerConnectionImpl.java:269-313 | behaves as `SendQueryData` with the session's packet limit |
| HdServerConnection.ServerConnection.HandleChangeQueryParameters | org.openscada.hd.server.ngp/src/org/openscada/hd/server/ngp/ServerConnectionImpl.java:147-157 | behaves as `ChangeQueryParametersStep` |
| HdServerConnection.ServerConnection.HandleCloseQuery | org.openscada.hd.server.ngp/src/org/openscada/hd/server/ngp/ServerConnectionImpl.java:159-196 | behaves as `CloseQueryStep` |
| HdServerConnection.ServerConnection.HandleCreateQuery | org.openscada.hd.server.ngp/src/org/openscada/hd/server/ngp/ServerConnectionImpl.java:198-267 | behaves as `CreateQueryStep` |
| HdServerConnection.ServerConnection.CreateFreshQuery | org.openscada.hd.server.ngp/src/org/openscada/hd/server/ngp/ServerConnectionImpl.java:246-267 | the part after the duplicate check behaves as `CreateQueryStep` for a fresh id |
| HdServerConnection.ServerConnection.RunNextDisposal | org.openscada.hd.server.ngp/src/org/openscada/hd/server/ngp/ServerConnectionImpl.java:159-196 | behaves as `RunDisposalStep` |
| HdServerConnection.ServerConnection.Dispose | org.openscada.hd.server.ngp/src/org/openscada/hd/server/ngp/ServerConnectionImpl.java:91-95 | behaves as `DisposeStep` |
| HdServerConnection.ServerConnection.MessageReceived | org.openscada.hd.server.ngp/src/org/openscada/hd/server/ngp/ServerConnectionImpl.java:98-136 | behaves as `ReceiveStep` |
| HdServerConnection.ServerConnection.HandleListChanged | org.openscada.hd.server.ngp/src/org/openscada/hd/server/ngp/ServerConnectionImpl.java:138-143 | the item list update is forwarded unchanged in one message |
| ReadAllStrategyModel.SetFlags | org.openscada.da.client.sfp/src/org/openscada/da/client/sfp/strategy/ReadAllStrategy.java:203-221 | the flag table adds its names to the attributes and leaves every other attribute alone |
| ReadAllStrategyModel.SetFlagsLookup | org.openscada.da.client.sfp/src/org/openscada/da/client/sfp/strategy/ReadAllStrategy.java:203-221 | each flag is true exactly when the entry carries its state |
| ReadAllStrategyModel.FlagNamesDistinct | org.openscada.da.client.sfp/src/org/openscada/da/client/sfp/strategy/ReadAllStrategy.java:203-221 | the flag names are all different from one another and from `timestamp` and `sfp.register` |
| ReadAllStrategyModel.Convert | org.openscada.da.client.sfp/src/org/openscada/da/client/sfp/strategy/ReadAllStrategy.java:203-221 | a converted entry has the entry's value and is CONNECTED |
| ReadAllStrategyModel.ConvertAttributes | org.openscada.da.client.sfp/src/org/openscada/da/client/sfp/strategy/ReadAllStrategy.java:203-221 | exactly ten attributes: the timestamp, the register, and the eight state flags, each true exactly when the state is present |
| ReadAllStrategyModel.FirstDot | org.openscada.da.client.sfp/src/org/openscada/da/client/sfp/strategy/ReadAllStrategy.java:173-176 | the position of the first dot, with no dot before it |
| ReadAllStrategyModel.SplitAll | org.openscada.da.client.sfp/src/org/openscada/da/client/sfp/strategy/ReadAllStrategy.java:173-176 | at least one piece, and no piece holds a dot |
| ReadAllStrategyModel.DropTrailingEmpty | org.openscada.da.client.sfp/src/org/openscada/da/client/sfp/strategy/ReadAllStrategy.java:173-176 | a prefix of the pieces that ends in a non-empty piece; everything dropped is empty |
| ReadAllStrategyModel.JoinSplitAll | org.openscada.da.client.sfp/src/org/openscada/da/client/sfp/strategy/ReadAllStrategy.java:173-176 | splitting at every dot and joining with dots gives the name back |
| ReadAllStrategyModel.SplitAllLastNonEmpty | org.openscada.da.client.sfp/src/org/openscada/da/client/sfp/strategy/ReadAllStrategy.java:173-176 | a non-empty name that does not end in a dot has a non-empty last piece |
| ReadAllStrategyModel.SplitAllDots | org.openscada.da.client.sfp/src/org/openscada/da/client/sfp/strategy/ReadAllStrategy.java:173-176 | a name of dots only splits into empty pieces |
| ReadAllStrategyModel.PlaceItem | org.openscada.da.client.sfp/src/org/openscada/da/client/sfp/strategy/ReadAllStrategy.java:144-155 | a name without a dot goes to the root folder under its own name |
| ReadAllStrategyModel.PlaceItemRoundTrip | org.openscada.da.client.sfp/src/org/openscada/da/client/sfp/strategy/ReadAllStrategy.java:144-155 | a dotted name not ending in a dot is placed so that folder path and local name joined with dots give the name back |
| ReadAllStrategyModel.PlaceItemAllDots | org.openscada.da.client.sfp/src/org/openscada/da/client/sfp/strategy/ReadAllStrategy.java:144-155 | a name of dots only cannot be placed: processing stops there |
| ReadAllStrategyModel.PlaceItemTrailingDot | org.openscada.da.client.sfp/src/org/openscada/da/client/sfp/strategy/ReadAllStrategy.java:144-155 | a name whose only dot is a trailing one goes to the root folder under the whole name |
| ReadAllStrategyModel.Registers | org.openscada.da.client.sfp/src/org/openscada/da/client/sfp/strategy/ReadAllStrategy.java:178-201 | the registers of an update are exactly the registers of its entries |
| ReadAllStrategyModel.UpdateAllKeepsMapping | org.openscada.da.client.sfp/src/org/openscada/da/client/sfp/strategy/ReadAllStrategy.java:178-201 | a data update leaves the register mapping and the listeners alone |
| ReadAllStrategyModel.UpdateAllCaches | org.openscada.da.client.sfp/src/org/openscada/da/client/sfp/strategy/ReadAllStrategy.java:178-201 | after a data update the cache holds the registers it held before plus those of the update |
| ReadAllStrategyModel.UpdateAllLast | org.openscada.da.client.sfp/src/org/openscada/da/client/sfp/strategy/ReadAllStrategy.java:178-201 | the last entry of an update decides the cached value of its register |
| ReadAllStrategyModel.RemoveAllCache | org.openscada.da.client.sfp/src/org/openscada/da/client/sfp/strategy/ReadAllStrategy.java:178-201 | removing registers leaves the cache without exactly those registers |
| ReadAllStrategyModel.ApplyUpdates | org.openscada.da.client.sfp/src/org/openscada/da/client/sfp/strategy/ReadAllStrategy.java:180-189 | the first loop applies `updateData` to every entry in order and collects exactly their registers |
| ReadAllStrategyModel.PrefixSnoc | org.openscada.da.client.sfp/src/org/openscada/da/client/sfp/strategy/ReadAllStrategy.java:180-189 | the registers of one more entry are those before plus its own |
| ReadAllStrategyModel.ApplyRemovals | org.openscada.da.client.sfp/src/org/openscada/da/client/sfp/strategy/ReadAllStrategy.java:191-198 | the second loop removes each register of the set exactly once, in some order |
| ReadAllStrategyModel.BrowseOne | org.openscada.da.client.sfp/src/org/openscada/da/client/sfp/strategy/ReadAllStrategy.java:140-156 | one browse entry is mapped first, then placed in the folder at its path, or processing stops if it cannot be placed |
| ReadAllStrategyModel.BrowseAllPlacesEvery | org.openscada.da.client.sfp/src/org/openscada/da/client/sfp/strategy/ReadAllStrategy.java:140-156 | when every name can be placed, every name is mapped and one folder entry per browse entry is added, in order |
| ReadAllStrategyModel.EntryCall | org.openscada.da.client.sfp/src/org/openscada/da/client/sfp/strategy/ReadAllStrategy.java:144-155 | the folder call for an entry uses its placement, its full name as item id and its description |
| ReadAllStrategyModel.ApplyBrowse | org.openscada.da.client.sfp/src/org/openscada/da/client/sfp/strategy/ReadAllStrategy.java:140-156 | the entry loop of `processBrowseUpdate` behaves as `BrowseAll` |
| ReadAllStrategyModel.BrowseAllSnoc | org.openscada.da.client.sfp/src/org/openscada/da/client/sfp/strategy/ReadAllStrategy.java:140-156 | processing one more entry extends the processing of the entries before it |
| ReadAllStrategyModel.BrowseAllStops | org.openscada.da.client.sfp/src/org/openscada/da/client/sfp/strategy/ReadAllStrategy.java:140-156 | once a browse update has failed, later entries change nothing |
| ReadAllStrategyModel.ReadAllStrategy.constructor | org.openscada.da.client.sfp/src/org/openscada/da/client/sfp/strategy/ReadAllStrategy.java:74-86 | a new strategy subscribes to the browse data at once and has no poll job, writes or registers |
| ReadAllStrategyModel.ReadAllStrategy.TriggerReadAll | org.openscada.da.client.sfp/src/org/openscada/da/client/sfp/strategy/ReadAllStrategy.java:88-91 | the poll job sends one read-all request and nothing else |
| ReadAllStrategyModel.ReadAllStrategy.ProcessDataUpdate | org.openscada.da.client.sfp/src/org/openscada/da/client/sfp/strategy/ReadAllStrategy.java:178-201 | every entry is cached; registers that were present before and are missing now are removed, each once; the update's registers become the previous ones |
| ReadAllStrategyModel.ReadAllStrategy.ProcessBrowseUpdate | org.openscada.da.client.sfp/src/org/openscada/da/client/sfp/strategy/ReadAllStrategy.java:130-171 | the entries are mapped and placed; when all were placed the poll job runs, scheduled only if it was not already |
| ReadAllStrategyModel.ReadAllStrategy.ProcessWriteResult | org.openscada.da.client.sfp/src/org/openscada/da/client/sfp/strategy/ReadAllStrategy.java:109-128 | the operation's handler is removed and, if it existed, told the result |
| ReadAllStrategyModel.ReadAllStrategy.StartWrite | org.openscada.da.client.sfp/src/org/openscada/da/client/sfp/strategy/ReadAllStrategy.java:305-326 | the operation id is the first random draw not in use; an unknown item fails at once, a known one files its handler and sends the write to its register |
| ReadAllStrategyModel.ReadAllStrategy.Dispose | org.openscada.da.client.sfp/src/org/openscada/da/client/sfp/strategy/ReadAllStrategy.java:223-251 | the poll job is cancelled, every pending write handler is cancelled in one executor task and the handler map is emptied, the folders are disposed, and the data manager is disposed as `DisposeStep` describes: one DISCONNECTED task per item with a listener, each item once, with the other maps, the cache and the active set unchanged |
| ReadAllStrategyModel.ReadAllStrategy.SubscribeItem | org.openscada.da.client.sfp/src/org/openscada/da/client/sfp/strategy/ReadAllStrategy.java:253-258 | behaves as the data manager's `subscribeItem` |
| ReadAllStrategyModel.ReadAllStrategy.UnsubscribeItem | org.openscada.da.client.sfp/src/org/openscada/da/client/sfp/strategy/ReadAllStrategy.java:260-265 | behaves as the data manager's `unsubscribeItem` |
| SfpDataManager.FindRegister | org.openscada.da.client.sfp/src/org/openscada/da/client/sfp/strategy/DataManager.java:67-70 | the register of an item id exactly when the id is mapped |
| SfpDataManager.ActiveListener | org.openscada.da.client.sfp/src/org/openscada/da/client/sfp/strategy/DataManager.java:237-253 | an item's listener exactly when the item has one and is subscribed |
| SfpDataManager.UpdateCalls | org.openscada.da.client.sfp/src/org/openscada/da/client/sfp/strategy/DataManager.java:72-128 | CONNECTED first unless the previous value was CONNECTED; then the full value when there was none before, otherwise the value only if it changed and the attribute difference only if it is not empty |
| SfpDataManager.UpdateDataStep | org.openscada.da.client.sfp/src/org/openscada/da/client/sfp/strategy/DataManager.java:72-128 | the value is always cached; a task is queued only for a mapped register whose item has an active listener |
| SfpDataManager.RemoveRegisterStep | org.openscada.da.client.sfp/src/org/openscada/da/client/sfp/strategy/DataManager.java:130-159 | the register leaves the register map and the cache, and its item leaves the item id map; GRANTED is queued only when a value was cached and the item has a listener |
| SfpDataManager.SetItemListenerStep | org.openscada.da.client.sfp/src/org/openscada/da/client/sfp/strategy/DataManager.java:177-187 | a listener is stored for the item, null removes it, and other items keep theirs |
| SfpDataManager.MergeListeners | org.openscada.da.client.sfp/src/org/openscada/da/client/sfp/strategy/DataManager.java:189-195 | every given item gets its listener or loses it on null; items not given keep theirs |
| SfpDataManager.MergeOneMore | org.openscada.da.client.sfp/src/org/openscada/da/client/sfp/strategy/DataManager.java:189-195 | setting one more item's listener extends the merge by that item |
| SfpDataManager.AddMappingStep | org.openscada.da.client.sfp/src/org/openscada/da/client/sfp/strategy/DataManager.java:202-224 | both directions of the mapping are recorded; an active listener of an already cached register gets CONNECTED and the cached value, marked as from the cache |
| SfpDataManager.FireSubscriptionChangeStep | org.openscada.da.client.sfp/src/org/openscada/da/client/sfp/strategy/DataManager.java:237-253 | a subscription change is queued only for an item with a listener that is subscribed |
| SfpDataManager.RemoveMappingStep | org.openscada.da.client.sfp/src/org/openscada/da/client/sfp/strategy/DataManager.java:226-235 | the item and its register leave the maps, and the listener is told GRANTED |
| SfpDataManager.SubscribeCalls | org.openscada.da.client.sfp/src/org/openscada/da/client/sfp/strategy/DataManager.java:255-303 | DISCONNECTED when not bound; GRANTED without a cached value; otherwise CONNECTED with the cached value |
| SfpDataManager.CachedValue | org.openscada.da.client.sfp/src/org/openscada/da/client/sfp/strategy/DataManager.java:255-303 | an item's cached value exactly when it is mapped to a cached register |
| SfpDataManager.SubscribeItemStep | org.openscada.da.client.sfp/src/org/openscada/da/client/sfp/strategy/DataManager.java:255-303 | the item becomes active and its listener, if any, is told the current state |
| SfpDataManager.UnsubscribeItemStep | org.openscada.da.client.sfp/src/org/openscada/da/client/sfp/strategy/DataManager.java:305-309 | DISCONNECTED goes out while the item is still active, then it leaves the active set |
| SfpDataManager.UnsubscribedIsSilent | org.openscada.da.client.sfp/src/org/openscada/da/client/sfp/strategy/DataManager.java:72-128 | after an item is unsubscribed, its register's updates are cached but tell nobody |
| SfpDataManager.SubscribeReplaysCache | org.openscada.da.client.sfp/src/org/openscada/da/client/sfp/strategy/DataManager.java:255-303 | subscribing after an update replays the cached value to the listener |
| SfpDataManager.ItemOrderCovers | org.openscada.da.client.sfp/src/org/openscada/da/client/sfp/strategy/DataManager.java:163-172 | an iteration order of the listener map lists exactly the items with a listener |
| SfpDataManager.DisconnectTasks | org.openscada.da.client.sfp/src/org/openscada/da/client/sfp/strategy/DataManager.java:163-172 | one DISCONNECTED task per item of the order |
| SfpDataManager.DisposeStep | org.openscada.da.client.sfp/src/org/openscada/da/client/sfp/strategy/DataManager.java:161-175 | the listener map is emptied and its DISCONNECTED tasks are appended after the earlier ones; the register maps, the cache and the active set stay |
| SfpDataManager.DisposeTellsEachOnce | org.openscada.da.client.sfp/src/org/openscada/da/client/sfp/strategy/DataManager.java:161-175 | an item's listener is told DISCONNECTED exactly when the item has a listener, at the item's place in the order |
| SfpDataManager.DisconnectAll | org.openscada.da.client.sfp/src/org/openscada/da/client/sfp/strategy/DataManager.java:163-172 | the dispose loop yields an iteration order of the listener map, each item with a listener once, and its tasks are exactly `DisconnectTasks` of that order |
| SfpDataManager.DataManager.constructor | org.openscada.da.client.sfp/src/org/openscada/da/client/sfp/strategy/DataManager.java:55-58 | a new manager is empty |
| SfpDataManager.DataManager.FindRegisterOf | org.openscada.da.client.sfp/src/org/openscada/da/client/sfp/strategy/DataManager.java:67-70 | returns `FindRegister` of the current state |
| SfpDataManager.DataManager.UpdateData | org.openscada.da.client.sfp/src/org/openscada/da/client/sfp/strategy/DataManager.java:72-128 | behaves as `UpdateDataStep` |
| SfpDataManager.DataManager.RemoveRegister | org.openscada.da.client.sfp/src/org/openscada/da/client/sfp/strategy/DataManager.java:130-159 | behaves as `RemoveRegisterStep` |
| SfpDataManager.DataManager.Dispose | org.openscada.da.client.sfp/src/org/openscada/da/client/sfp/strategy/DataManager.java:161-175 | behaves as `DisposeStep` for the order in which the listener map yields its entries |
| SfpDataManager.DataManager.SetItemUpdateListener | org.openscada.da.client.sfp/src/org/openscada/da/client/sfp/strategy/DataManager.java:177-187 | behaves as `SetItemListenerStep` |
| SfpDataManager.DataManager.SetAllItemListeners | org.openscada.da.client.sfp/src/org/openscada/da/client/sfp/strategy/DataManager.java:189-195 | the listener map becomes the merge of the given listeners |
| SfpDataManager.DataManager.AddMapping | org.openscada.da.client.sfp/src/org/openscada/da/client/sfp/strategy/DataManager.java:202-224 | behaves as `AddMappingStep` |
| SfpDataManager.DataManager.RemoveMapping | org.openscada.da.client.sfp/src/org/openscada/da/client/sfp/strategy/DataManager.java:226-235 | behaves as `RemoveMappingStep` |
| SfpDataManager.DataManager.FireSubscriptionChange | org.openscada.da.client.sfp/src/org/openscada/da/client/sfp/strategy/DataManager.java:237-253 | behaves as `FireSubscriptionChangeStep` |
| SfpDataManager.DataManager.SubscribeItem | org.openscada.da.client.sfp/src/org/openscada/da/client/sfp/strategy/DataManager.java:255-303 | behaves as `SubscribeItemStep` |
| SfpDataManager.DataManager.UnsubscribeItem | org.openscada.da.client.sfp/src/org/openscada/da/client/sfp/strategy/DataManager.java:305-309 | behaves as `UnsubscribeItemStep` |
| FolderSync.CacheUpdate | org.openscada.da.client/src/org/openscada/da/client/FolderSyncController.java:136-139 | the full update sent to a new listener holds exactly the cached entries and removes nothing |
| FolderSync.SubscribeStep | org.openscada.da.client/src/org/openscada/da/client/FolderSyncController.java:99-113 | the connection is asked to subscribe; the flag stays set unless the call fails |
| FolderSync.UnsubscribeStep | org.openscada.da.client/src/org/openscada/da/client/FolderSyncController.java:115-129 | the connection is asked to unsubscribe and the flag is cleared even if the call fails |
| FolderSync.SyncStep | org.openscada.da.client/src/org/openscada/da/client/FolderSyncController.java:82-97 | subscribe or unsubscribe exactly when "someone listens" differs from the flag, or when forced; otherwise nothing |
| FolderSync.AddListenerStep | org.openscada.da.client/src/org/openscada/da/client/FolderSyncController.java:52-62 | the listener gets the cache; a new first listener subscribes; a known listener changes nothing else |
| FolderSync.RemoveListenerStep | org.openscada.da.client/src/org/openscada/da/client/FolderSyncController.java:64-70 | removing the last listener of a subscribed folder unsubscribes, of an unsubscribed one makes no call; removing one of several listeners of an unsubscribed folder subscribes again; an unknown listener changes nothing |
| FolderSync.ResyncAlwaysCalls | org.openscada.da.client/src/org/openscada/da/client/FolderSyncController.java:77-80 | a resync always makes one call: subscribe while someone listens, unsubscribe otherwise |
| FolderSync.AddRemoveRoundTrip | org.openscada.da.client/src/org/openscada/da/client/FolderSyncController.java:52-70 | with a connection that never fails, adding a first listener and removing it again subscribes and then unsubscribes |
| FolderSync.NotifyOne | org.openscada.da.client/src/org/openscada/da/client/FolderSyncController.java:142-164 | notifying one more listener extends the notified set by that listener |
| FolderSync.NotifyAll | org.openscada.da.client/src/org/openscada/da/client/FolderSyncController.java:142-164 | every listener is notified exactly once with the same change |
| FolderSync.FolderSyncController.constructor | org.openscada.da.client/src/org/openscada/da/client/FolderSyncController.java:45-50 | a new controller has no listeners, is not subscribed and has an empty cache |
| FolderSync.FolderSyncController.Subscribe | org.openscada.da.client/src/org/openscada/da/client/FolderSyncController.java:99-113 | behaves as `SubscribeStep` |
| FolderSync.FolderSyncController.Unsubscribe | org.openscada.da.client/src/org/openscada/da/client/FolderSyncController.java:115-129 | behaves as `UnsubscribeStep` |
| FolderSync.FolderSyncController.HandleError | org.openscada.da.client/src/org/openscada/da/client/FolderSyncController.java:131-134 | the subscription is taken as lost |
| FolderSync.FolderSyncController.SyncWith | org.openscada.da.client/src/org/openscada/da/client/FolderSyncController.java:82-97 | behaves as `SyncStep` |
| FolderSync.FolderSyncController.Sync | org.openscada.da.client/src/org/openscada/da/client/FolderSyncController.java:72-75 | an unforced sync |
| FolderSync.FolderSyncController.Resync | org.openscada.da.client/src/org/openscada/da/client/FolderSyncController.java:77-80 | a forced sync |
| FolderSync.FolderSyncController.TransmitCache | org.openscada.da.client/src/org/openscada/da/client/FolderSyncController.java:136-139 | the listener gets the full cache |
| FolderSync.FolderSyncController.AddListener | org.openscada.da.client/src/org/openscada/da/client/FolderSyncController.java:52-62 | behaves as `AddListenerStep` |
| FolderSync.FolderSyncController.RemoveListener | org.openscada.da.client/src/org/openscada/da/client/FolderSyncController.java:64-70 | behaves as `RemoveListenerStep` |
| FolderSync.FolderSyncController.FolderChanged | org.openscada.da.client/src/org/openscada/da/client/FolderSyncController.java:142-150 | the cache takes the update and every listener is notified exactly once with the change |
| FolderSync.FolderSyncController.Disconnected | org.openscada.da.client/src/org/openscada/da/client/FolderSyncController.java:152-164 | the cache is emptied, the flag cleared, and every listener is told that everything was removed |
| DataItemOutputModel.SupportedTypes | da/client/viewer/src/org/openscada/da/client/viewer/model/impl/DataItemOutput.java:46-49 | the VARIANT type and no other |
| DataItemOutputModel.SubscribeStep | da/client/viewer/src/org/openscada/da/client/viewer/model/impl/DataItemOutput.java:26-34 | subscribed afterwards; observing and registering happen only when not subscribed before |
| DataItemOutputModel.UnsubscribeStep | da/client/viewer/src/org/openscada/da/client/viewer/model/impl/DataItemOutput.java:36-44 | unsubscribed afterwards; stopping and unregistering happen only when subscribed before |
| DataItemOutputModel.AddListenerStep | da/client/viewer/src/org/openscada/da/client/viewer/model/impl/DataItemOutput.java:56-64 | the listener joins the set and the output is subscribed |
| DataItemOutputModel.RemoveListenerStep | da/client/viewer/src/org/openscada/da/client/viewer/model/impl/DataItemOutput.java:66-74 | the listener leaves the set; the output unsubscribes when no listener is left |
| DataItemOutputModel.UpdateStep | da/client/viewer/src/org/openscada/da/client/viewer/model/impl/DataItemOutput.java:51-54 | each value change goes to the listeners as one VARIANT event |
| DataItemOutputModel.CycleSnoc2 | da/client/viewer/src/org/openscada/da/client/viewer/model/impl/DataItemOutput.java:26-44 | appending the next two calls of the observe, register, stop, unregister cycle keeps the calls on the cycle |
| DataItemOutputModel.SubscribeAlternates | da/client/viewer/src/org/openscada/da/client/viewer/model/impl/DataItemOutput.java:26-34 | subscribing keeps register and unregister calls alternating |
| DataItemOutputModel.UnsubscribeAlternates | da/client/viewer/src/org/openscada/da/client/viewer/model/impl/DataItemOutput.java:36-44 | unsubscribing keeps register and unregister calls alternating |
| DataItemOutputModel.ListenerStepsValid | da/client/viewer/src/org/openscada/da/client/viewer/model/impl/DataItemOutput.java:56-74 | adding and removing listeners keep the output subscribed exactly while it has listeners |
| DataItemOutputModel.AddRemoveRound | da/client/viewer/src/org/openscada/da/client/viewer/model/impl/DataItemOutput.java:56-74 | adding a listener to an output without listeners and removing it again makes exactly one full round of item calls |
| DataItemOutputModel.DataItemOutput.constructor | da/client/viewer/src/org/openscada/da/client/viewer/model/impl/DataItemOutput.java:19-24 | a new output has no listeners and is not subscribed |
| DataItemOutputModel.DataItemOutput.Subscribe | da/client/viewer/src/org/openscada/da/client/viewer/model/impl/DataItemOutput.java:26-34 | behaves as `SubscribeStep` |
| DataItemOutputModel.DataItemOutput.Unsubscribe | da/client/viewer/src/org/openscada/da/client/viewer/model/impl/DataItemOutput.java:36-44 | behaves as `UnsubscribeStep` |
| DataItemOutputModel.DataItemOutput.GetSupportedTypes | da/client/viewer/src/org/openscada/da/client/viewer/model/impl/DataItemOutput.java:46-49 | returns `SupportedTypes` |
| DataItemOutputModel.DataItemOutput.Update | da/client/viewer/src/org/openscada/da/client/viewer/model/impl/DataItemOutput.java:51-54 | behaves as `UpdateStep` |
| DataItemOutputModel.DataItemOutput.AddListener | da/client/viewer/src/org/openscada/da/client/viewer/model/impl/DataItemOutput.java:57-64 | behaves as `AddListenerStep` and keeps the output valid |
| DataItemOutputModel.DataItemOutput.RemoveListener | da/client/viewer/src/org/openscada/da/client/viewer/model/impl/DataItemOutput.java:67-74 | behaves as `RemoveListenerStep` and keeps the output valid |
| GroupFolderModel.Recorded | org.openscada.da.server.common/src/org/openscada/da/server/browser/common/query/GroupFolder.java:64-98 | the placements the item list records: for each descriptor, its sub-folder |
| GroupFolderModel.AddedStep | org.openscada.da.server.common/src/org/openscada/da/server/browser/common/query/GroupFolder.java:64-85 | known descriptors and descriptors without a grouping are ignored; otherwise the root places the descriptor, which is recorded when a sub-folder comes back |
| GroupFolderModel.RemovedStep | org.openscada.da.server.common/src/org/openscada/da/server/browser/common/query/GroupFolder.java:87-98 | unknown descriptors are ignored; otherwise the recorded sub-folder removes it and it is forgotten |
| GroupFolderModel.RecordedPut | org.openscada.da.server.common/src/org/openscada/da/server/browser/common/query/GroupFolder.java:64-85 | recording a new descriptor adds exactly its placement |
| GroupFolderModel.RecordedRemove | org.openscada.da.server.common/src/org/openscada/da/server/browser/common/query/GroupFolder.java:87-98 | forgetting a descriptor removes exactly its placement |
| GroupFolderModel.AddedValid | org.openscada.da.server.common/src/org/openscada/da/server/browser/common/query/GroupFolder.java:64-85 | `added` keeps exactly the recorded placements live |
| GroupFolderModel.RemovedValid | org.openscada.da.server.common/src/org/openscada/da/server/browser/common/query/GroupFolder.java:87-98 | `removed` keeps exactly the recorded placements live |
| GroupFolderModel.OneSubFolder | org.openscada.da.server.common/src/org/openscada/da/server/browser/common/query/GroupFolder.java:64-98 | at most one sub-folder holds a descriptor, and it is the one the item list records |
| GroupFolderModel.AddedThenRemoved | org.openscada.da.server.common/src/org/openscada/da/server/browser/common/query/GroupFolder.java:64-98 | a descriptor added then removed is taken out of exactly the sub-folder that took it in |
| GroupFolderModel.GroupFolder.constructor | org.openscada.da.server.common/src/org/openscada/da/server/browser/common/query/GroupFolder.java:41-47 | a new folder records nothing |
| GroupFolderModel.GroupFolder.Added | org.openscada.da.server.common/src/org/openscada/da/server/browser/common/query/GroupFolder.java:64-85 | behaves as `AddedStep` and keeps the folder valid |
| GroupFolderModel.GroupFolder.Removed | org.openscada.da.server.common/src/org/openscada/da/server/browser/common/query/GroupFolder.java:87-98 | behaves as `RemovedStep` and keeps the folder valid |
| DataSourceHandlerModel.TrackerId | org.openscada.da.datasource/src/org/openscada/da/datasource/base/AbstractDataSourceHandler.java:80-95 | the number of the open tracker, if any |
| DataSourceHandlerModel.SetDataSourceStep | org.openscada.da.datasource/src/org/openscada/da/datasource/base/AbstractDataSourceHandler.java:57-73 | the listener leaves the previous data source, if any, and joins the new one, if any |
| DataSourceHandlerModel.SetDataSourceIdStep | org.openscada.da.datasource/src/org/openscada/da/datasource/base/AbstractDataSourceHandler.java:80-95 | any open tracker is closed; an id opens a new tracker, unless its syntax is invalid, which fails |
| DataSourceHandlerModel.SetDataSourceValid | org.openscada.da.datasource/src/org/openscada/da/datasource/base/AbstractDataSourceHandler.java:57-73 | switching data sources keeps the listener on exactly the current one |
| DataSourceHandlerModel.SetDataSourceIdValid | org.openscada.da.datasource/src/org/openscada/da/datasource/base/AbstractDataSourceHandler.java:80-95 | switching ids keeps exactly the current tracker open |
| DataSourceHandlerModel.OneDataSource | org.openscada.da.datasource/src/org/openscada/da/datasource/base/AbstractDataSourceHandler.java:57-73 | at most one data source holds the handler's listener, and it is the current one |
| DataSourceHandlerModel.DataSourceHandler.constructor | org.openscada.da.datasource/src/org/openscada/da/datasource/base/AbstractDataSourceHandler.java:35-53 | a new handler follows nothing |
| DataSourceHandlerModel.DataSourceHandler.SetDataSource | org.openscada.da.datasource/src/org/openscada/da/datasource/base/AbstractDataSourceHandler.java:57-73 | behaves as `SetDataSourceStep` |
| DataSourceHandlerModel.DataSourceHandler.GetDataSource | org.openscada.da.datasource/src/org/openscada/da/datasource/base/AbstractDataSourceHandler.java:75-78 | returns the current data source |
| DataSourceHandlerModel.DataSourceHandler.SetDataSourceId | org.openscada.da.datasource/src/org/openscada/da/datasource/base/AbstractDataSourceHandler.java:80-95 | behaves as `SetDataSourceIdStep` |
| DataStoreDataSourceModel.ErrorValue | org.openscada.da.datasource.ds/src/org/openscada/da/datasource/ds/DataStoreDataSource.java:129-142 | the error value is CONNECTED and null, with `node.error` set, and with `node.error.message` only when there was an exception |
| DataStoreDataSourceModel.NodeIdOf | org.openscada.da.datasource.ds/src/org/openscada/da/datasource/ds/DataStoreDataSource.java:71-82 | the configured node id, or the default made from the data source id |
| DataStoreDataSourceModel.ConfiguredNodeId | org.openscada.da.datasource.ds/src/org/openscada/da/datasource/ds/DataStoreDataSource.java:84-100 | the `node.id` parameter, or the default made from the data source id |
| DataStoreDataSourceModel.UpdateStep | org.openscada.da.datasource.ds/src/org/openscada/da/datasource/ds/DataStoreDataSource.java:84-100 | nothing once disposed; otherwise the listener leaves the old node and joins the configured one |
| DataStoreDataSourceModel.DisposeStep | org.openscada.da.datasource.ds/src/org/openscada/da/datasource/ds/DataStoreDataSource.java:102-110 | disposed, and the listener leaves its node |
| DataStoreDataSourceModel.NodeChangedStep | org.openscada.da.datasource.ds/src/org/openscada/da/datasource/ds/DataStoreDataSource.java:112-127 | one value is published: the content when readable, the error value with the exception's message otherwise |
| DataStoreDataSourceModel.WriteValueStep | org.openscada.da.datasource.ds/src/org/openscada/da/datasource/ds/DataStoreDataSource.java:59-69 | the value is written to the node `getNodeId` names; the write succeeds exactly when the data store takes it |
| DataStoreDataSourceModel.StepsValid | org.openscada.da.datasource.ds/src/org/openscada/da/datasource/ds/DataStoreDataSource.java:84-110 | `update` and `dispose` keep the listener on exactly the current node, and on none once disposed |
| DataStoreDataSourceModel.DefaultNodeIdsDiffer | org.openscada.da.datasource.ds/src/org/openscada/da/datasource/ds/DataStoreDataSource.java:71-100 | without a configured node, the default write node and the default listening node differ |
| DataStoreDataSourceModel.DataStoreDataSource.constructor | org.openscada.da.datasource.ds/src/org/openscada/da/datasource/ds/DataStoreDataSource.java:38-46 | a new data source publishes the error value without a message |
| DataStoreDataSourceModel.DataStoreDataSource.SetError | org.openscada.da.datasource.ds/src/org/openscada/da/datasource/ds/DataStoreDataSource.java:129-142 | publishes `ErrorValue` of the cause |
| DataStoreDataSourceModel.DataStoreDataSource.GetNodeId | org.openscada.da.datasource.ds/src/org/openscada/da/datasource/ds/DataStoreDataSource.java:71-82 | returns `NodeIdOf` the current state |
| DataStoreDataSourceModel.DataStoreDataSource.StartWriteAttributes | org.openscada.da.datasource.ds/src/org/openscada/da/datasource/ds/DataStoreDataSource.java:54-57 | writing attributes always fails |
| DataStoreDataSourceModel.DataStoreDataSource.StartWriteValue | org.openscada.da.datasource.ds/src/org/openscada/da/datasource/ds/DataStoreDataSource.java:59-69 | behaves as `WriteValueStep` |
| DataStoreDataSourceModel.DataStoreDataSource.Update | org.openscada.da.datasource.ds/src/org/openscada/da/datasource/ds/DataStoreDataSource.java:84-100 | behaves as `UpdateStep` |
| DataStoreDataSourceModel.DataStoreDataSource.Dispose | org.openscada.da.datasource.ds/src/org/openscada/da/datasource/ds/DataStoreDataSource.java:102-110 | behaves as `DisposeStep` |
| DataStoreDataSourceModel.DataStoreDataSource.NodeChanged | org.openscada.da.datasource.ds/src/org/openscada/da/datasource/ds/DataStoreDataSource.java:112-127 | behaves as `NodeChangedStep` |
| SummarizeChainItemModel.Reserved | org.openscada.da.server.common/src/org/openscada/da/server/common/chain/item/SummarizeChainItem.java:52-59 | the three attribute names an item owns: the base name, `.count` and `.items` |
| SummarizeChainItemModel.Summarized | org.openscada.da.server.common/src/org/openscada/da/server/common/chain/item/SummarizeChainItem.java:76-117 | the result has the input's names plus the three owned ones, and every other attribute unchanged |
| SummarizeChainItemModel.CountedNamesElements | org.openscada.da.server.common/src/org/openscada/da/server/common/chain/item/SummarizeChainItem.java:76-117 | a name is counted exactly when it is visited and counts |
| SummarizeChainItemModel.CountedNamesDistinct | org.openscada.da.server.common/src/org/openscada/da/server/common/chain/item/SummarizeChainItem.java:76-117 | a name is counted at most once when each name is visited once |
| Common.DecimalRoundTrip | org.openscada.ae.server.ngp/src/org/openscada/ae/server/ngp/ServerConnectionImpl.java:237 | the decimal text of an id reads back to the id, so different ids print differently |
| Common.DistinctCard | org.openscada.da.server.common/src/org/openscada/da/server/common/chain/item/SummarizeChainItem.java:76-117 | a list without repeats has as many elements as it is long |
| SummarizeChainItemModel.CountIndependentOfOrder | org.openscada.da.server.common/src/org/openscada/da/server/common/chain/item/SummarizeChainItem.java:76-117 | whatever order the map is iterated in, the same names are counted, and the count is their number |
| SummarizeChainItemModel.StateMeansSomeCounts | org.openscada.da.server.common/src/org/openscada/da/server/common/chain/item/SummarizeChainItem.java:76-117 | the state attribute is true exactly when some attribute counts |
| SummarizeChainItemModel.OwnNamesNotCounted | org.openscada.da.server.common/src/org/openscada/da/server/common/chain/item/SummarizeChainItem.java:76-117 | owned and ignored attributes are never counted |
| SummarizeChainItemModel.ClearedThenSet | org.openscada.da.server.common/src/org/openscada/da/server/common/chain/item/SummarizeChainItem.java:76-117 | clearing the owned attributes first makes no difference once all three are set |
| SummarizeChainItemModel.CountMatching | org.openscada.da.server.common/src/org/openscada/da/server/common/chain/item/SummarizeChainItem.java:86-108 | the loop counts exactly the names `CountedNames` lists, in iteration order |
| SummarizeChainItemModel.SummarizeChainItem.constructor | org.openscada.da.server.common/src/org/openscada/da/server/common/chain/item/SummarizeChainItem.java:52-59 | the three owned names are made from the base name |
| SummarizeChainItemModel.SummarizeChainItem.Process | org.openscada.da.server.common/src/org/openscada/da/server/common/chain/item/SummarizeChainItem.java:76-117 | returns null and sets the state, count and item list from the counted names |
| EventMonitorModel.CopyConfiguration | org.openscada.ae.server.http/src/org/openscada/ae/server/http/monitor/EventMonitorImpl.java:63-73 | a copy keeps every field of the current configuration; without one, every field is cleared |
| EventMonitorModel.StringSetting | org.openscada.ae.server.http/src/org/openscada/ae/server/http/monitor/EventMonitorImpl.java:102-123 | a string property, or the default when missing |
| EventMonitorModel.BoolSetting | org.openscada.ae.server.http/src/org/openscada/ae/server/http/monitor/EventMonitorImpl.java:102-123 | a boolean property as parsed, or the default when missing |
| EventMonitorModel.SeveritySetting | org.openscada.ae.server.http/src/org/openscada/ae/server/http/monitor/EventMonitorImpl.java:102-123 | the severity property as parsed, ALARM when missing or unknown |
| EventMonitorModel.Prefixed | org.openscada.ae.server.http/src/org/openscada/ae/server/http/monitor/EventMonitorImpl.java:102-123 | exactly the properties under the prefix, with the prefix taken off their keys |
| EventMonitorModel.UpdateStep | org.openscada.ae.server.http/src/org/openscada/ae/server/http/monitor/EventMonitorImpl.java:102-123 | the configuration comes from the properties, the matcher from `filter`, the monitor type defaults to the event tag, `info.` properties become attributes, and the state is set OK |
| EventMonitorModel.Annotate | org.openscada.ae.server.http/src/org/openscada/ae/server/http/monitor/EventMonitorImpl.java:179-201 | a non-empty comment, then the delimiter, then the source text; either part alone when the other is missing; empty when both are missing |
| EventMonitorModel.EvaluateStep | org.openscada.ae.server.http/src/org/openscada/ae/server/http/monitor/EventMonitorImpl.java:143-163 | an event matches exactly when there is a matcher and it accepts the event; a non-match changes nothing |
| EventMonitorModel.EvaluateRaisesFailure | org.openscada.ae.server.http/src/org/openscada/ae/server/http/monitor/EventMonitorImpl.java:143-163 | a match raises exactly one failure with the event's message, timestamp, severity and acknowledgement flag |
| EventMonitorModel.ReissuedFields | org.openscada.ae.server.http/src/org/openscada/ae/server/http/monitor/EventMonitorImpl.java:143-163 | the re-issued event keeps every field but the three it sets |
| EventMonitorModel.AnnotateKeepsParts | org.openscada.ae.server.http/src/org/openscada/ae/server/http/monitor/EventMonitorImpl.java:179-201 | the annotated comment begins with a non-empty original comment and ends with a non-empty source |
| EventMonitorModel.UpdateValid | org.openscada.ae.server.http/src/org/openscada/ae/server/http/monitor/EventMonitorImpl.java:102-123 | an update keeps the monitor valid |
| EventMonitorModel.EvaluateValid | org.openscada.ae.server.http/src/org/openscada/ae/server/http/monitor/EventMonitorImpl.java:143-163 | every failure an evaluation raises has a severity |
| EventMonitorModel.NoMatcherNoFailure | org.openscada.ae.server.http/src/org/openscada/ae/server/http/monitor/EventMonitorImpl.java:143-163 | before the first update no event matches |
| EventMonitorModel.EventMonitor.constructor | org.openscada.ae.server.http/src/org/openscada/ae/server/http/monitor/EventMonitorImpl.java:96-99 | a new monitor has no matcher and no configuration |
| EventMonitorModel.EventMonitor.Update | org.openscada.ae.server.http/src/org/openscada/ae/server/http/monitor/EventMonitorImpl.java:102-133 | behaves as `UpdateStep` |
| EventMonitorModel.EventMonitor.Evaluate | org.openscada.ae.server.http/src/org/openscada/ae/server/http/monitor/EventMonitorImpl.java:143-163 | behaves as `EvaluateStep` |
| AeMessagesModel.Printed | openscada_ae_net_base/src/org/openscada/ae/net/SubscribeMessage.java:84-94 | a string value prints as its contents, and every other value prints as some text |
| AeMessagesModel.EncodeSubscribe | openscada_ae_net_base/src/org/openscada/ae/net/SubscribeMessage.java:74-82 | a subscribe message with exactly the four keys holding the four fields |
| AeMessagesModel.OptionalInteger | openscada_ae_net_base/src/org/openscada/ae/net/SubscribeMessage.java:84-94 | zero when the key is missing; the integer when it holds one; a failure otherwise |
| AeMessagesModel.DecodeIds | openscada_ae_net_base/src/org/openscada/ae/net/SubscribeMessage.java:84-94 | succeeds exactly when both ids are present and the listener id is a long |
| AeMessagesModel.DecodeSubscribe | openscada_ae_net_base/src/org/openscada/ae/net/SubscribeMessage.java:84-94 | succeeds exactly when the ids decode and the optional integers are integers or missing |
| AeMessagesModel.EncodeUnsubscribe | ae/net/base/src/org/openscada/ae/net/UnsubscribeMessage.java:32-38 | an unsubscribe message with exactly the two keys holding the two fields |
| AeMessagesModel.DecodeUnsubscribe | ae/net/base/src/org/openscada/ae/net/UnsubscribeMessage.java:40-46 | succeeds exactly when the ids decode |
| AeMessagesModel.SubscribeRoundTrip | openscada_ae_net_base/src/org/openscada/ae/net/SubscribeMessage.java:74-94 | reading back a written subscribe request gives the same fields |
| AeMessagesModel.UnsubscribeRoundTrip | ae/net/base/src/org/openscada/ae/net/UnsubscribeMessage.java:32-46 | reading back a written unsubscribe request gives the same fields |
| AeMessagesModel.SubscribeReencode | openscada_ae_net_base/src/org/openscada/ae/net/SubscribeMessage.java:74-94 | a well-formed subscribe message decodes and encodes back to itself |
| AeMessagesModel.UnsubscribeReencode | ae/net/base/src/org/openscada/ae/net/UnsubscribeMessage.java:32-46 | a well-formed unsubscribe message decodes and encodes back to itself |
| AeMessagesModel.SubscribeDefaults | openscada_ae_net_base/src/org/openscada/ae/net/SubscribeMessage.java:84-94 | missing ids fail; a missing batch size or archive set reads as 0 |
| AeMessagesModel.ReadersAgree | ae/net/base/src/org/openscada/ae/net/UnsubscribeMessage.java:32-46 | an unsubscribe message read as a subscribe request gives the same ids and zeros |
| AeMessagesModel.SubscribeMessage.constructor | openscada_ae_net_base/src/org/openscada/ae/net/SubscribeMessage.java:34-72 | a new request has a null query id and zero numbers |
| AeMessagesModel.SubscribeMessage.SetQueryId | openscada_ae_net_base/src/org/openscada/ae/net/SubscribeMessage.java:39-42 | only the query id changes |
| AeMessagesModel.SubscribeMessage.SetListenerId | openscada_ae_net_base/src/org/openscada/ae/net/SubscribeMessage.java:69-72 | only the listener id changes |
| AeMessagesModel.SubscribeMessage.SetMaxBatchSize | openscada_ae_net_base/src/org/openscada/ae/net/SubscribeMessage.java:59-62 | only the batch size changes |
| AeMessagesModel.SubscribeMessage.SetArchiveSet | openscada_ae_net_base/src/org/openscada/ae/net/SubscribeMessage.java:49-52 | only the archive set changes |
| AeMessagesModel.SubscribeMessage.ToMessage | openscada_ae_net_base/src/org/openscada/ae/net/SubscribeMessage.java:74-82 | returns `EncodeSubscribe` of the fields |
| AeMessagesModel.SubscribeMessage.FromMessage | openscada_ae_net_base/src/org/openscada/ae/net/SubscribeMessage.java:84-94 | a fresh request with the decoded fields, exactly when decoding succeeds |
| AeMessagesModel.UnsubscribeMessage.constructor | ae/net/base/src/org/openscada/ae/net/UnsubscribeMessage.java:12-30 | a new request has a null query id and listener id 0 |
| AeMessagesModel.UnsubscribeMessage.SetQueryId | ae/net/base/src/org/openscada/ae/net/UnsubscribeMessage.java:17-20 | only the query id changes |
| AeMessagesModel.UnsubscribeMessage.SetListenerId | ae/net/base/src/org/openscada/ae/net/UnsubscribeMessage.java:27-30 | only the listener id changes |
| AeMessagesModel.UnsubscribeMessage.ToMessage | ae/net/base/src/org/openscada/ae/net/UnsubscribeMessage.java:32-38 | returns `EncodeUnsubscribe` of the fields |
| AeMessagesModel.UnsubscribeMessage.FromMessage | ae/net/base/src/org/openscada/ae/net/UnsubscribeMessage.java:40-46 | a fresh request with the decoded fields, exactly when decoding succeeds |

## Left out

- Concurrency: `synchronized` blocks, executors and futures. Work handed
  to an executor is a log of tasks in call order, and a future's
  completion is a separate step.
- Logging, and the text that exceptions and UUIDs format to. An exception
  is its message plus an opaque formatted text.
- Floating point: HD sample values are an opaque `Double` type that is
  only copied.
- The internals of `Variant`: it is a datatype with the kinds this core
  uses, and a null message becomes `Null`.
- The iteration order of Java hash maps and hash sets. Loops over them
  take the order as a parameter, and the lemmas hold for every order.
- Null item ids and null listeners where the code does not test for them.
- The HD session: a non-positive `maxDataSize` from the system property is
  not modelled; the model takes the size as a positive number. In the code a
  size of 0 never lets the chunking do-while advance: it sends one empty
  packet when there is no data and never ends otherwise. A negative size
  makes the first `subList` copy throw. The property is read at every use
  in the code; the model takes it to stay the same for the life of a
  session.
- HdServerConnection.SendQueryData: assumes the backend gives one value
  per value-information entry in every series. When a series is shorter
  and the data is split, Java's `subList` throws part-way through the
  packets; that case is outside the precondition.
- HdServerConnection.CloseQueryStep: after `dispose` the disposer is shut
  down, so Java's `execute` throws `RejectedExecutionException` and the
  handler is never closed. The model sends DISCONNECTED and drops the id as
  the code does, and queues nothing (the disposer stays unchanged), but it
  does not raise the `RejectedExecutionException`.
- ReadAllStrategyModel.ReadAllStrategy.StartWrite: the random operation
  ids are a sequence of draws, with the precondition that some draw is not
  in use. A generator that never yields a free id, on which the Java loop
  would not end, is not modelled.
- The AE session's pool calls: exceptions from the backend's pool
  subscriptions are not modelled.
- The folder manager, the folder watcher's cache merge and the root
  sub-folder are not part of this model. Their results come in as
  parameters and the calls on them are logged.
- The calls to superclass methods and the other constructors of the
  superclasses are not part of this model.
- DataItemOutputModel: the listener collection of the base output class
  is taken to be a set of listener ids.
- GroupFolderModel: `list`, `subscribe`, `unsubscribe` and the
  parameterless `added`/`removed` only delegate to the root sub-folder, so
  they are left out.
- DataSourceHandlerModel: the syntax check of the single data source
  tracker is a boolean parameter, and the tracker's own callbacks are
  calls of `SetDataSource`.
- EventMonitorModel:
  - the filter language of the event matcher is not modelled; a match is
    a boolean parameter;
  - localised message texts are not modelled; the event tag and the
    delimiter are parameters;
  - boolean and severity parsing are function parameters, and the
    prefixed properties are taken to be the properties under the prefix
    with the prefix removed;
  - change events of the configuration base class, the events it sends,
    `injectEventAttributes` and the timestamp of `setOk` are not modelled.
- SummarizeChainItemModel: the condition `matches` and the boolean reading
  of a variant are parameters; the ignored item names are a parameter.
- AeMessagesModel: `toString` of a protocol value is taken to give a
  string value's contents (null for a null string). The message command
  codes are symbolic. `fromMessage` does not look at the command code.
