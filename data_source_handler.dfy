/** The base of data source handlers: an object that follows one data
    source. Given a data source id it opens a tracker that reports the data
    source of that id whenever it appears or goes away; the handler then
    moves its listener from the previous data source to the new one. Data
    sources and trackers are identified by numbers; the listener calls on
    data sources and the open and close calls on trackers are recorded as
    ledgers. */
module DataSourceHandlerModel {
  import opened Common
  import opened Ledger

  /** An open tracker: its number and the data source id it follows. */
  datatype Tracker = Tracker(id: nat, dataSourceId: string)

  /** A snapshot of the handler. `listenerCalls` holds the `addListener`
      and `removeListener` calls on data sources, `trackerCalls` the
      `open` and `close` calls on trackers. */
  datatype Handler = Handler(
    dataSource: Option<nat>,
    listenerCalls: seq<Reg<nat>>,
    tracker: Option<Tracker>,
    trackerCalls: seq<Reg<nat>>,
    nextTracker: nat)

  function TrackerId(t: Option<Tracker>): (r: Option<nat>)
    ensures t.None? <==> r.None?
    ensures t.Some? ==> r == Some(t.value.id)
  {
    if t.Some? then Some(t.value.id) else None
  }

  /** The listener is on the current data source and on no other, the
      current tracker is the only open one, and tracker numbers are never
      reused. */
  ghost predicate Valid(h: Handler) {
    && Holds(h.listenerCalls, Live(h.dataSource))
    && Holds(h.trackerCalls, Live(TrackerId(h.tracker)))
    && (forall i :: 0 <= i < |h.trackerCalls| ==> h.trackerCalls[i].key < h.nextTracker)
    && (h.tracker.Some? ==> h.tracker.value.id < h.nextTracker)
  }

  /** `setDataSource(dataSource)`: the listener leaves the previous data
      source, if any, and joins the new one, if any. */
  function SetDataSourceStep(h: Handler, ds: Option<nat>): (r: Handler)
    ensures r.dataSource == ds
    ensures r.tracker == h.tracker && r.trackerCalls == h.trackerCalls && r.nextTracker == h.nextTracker
    ensures r.listenerCalls ==
      h.listenerCalls
      + (if h.dataSource.Some? then [Drop(h.dataSource.value)] else [])
      + (if ds.Some? then [Add(ds.value)] else [])
  {
    var calls1 := h.listenerCalls + (if h.dataSource.Some? then [Drop(h.dataSource.value)] else []);
    var calls2 := calls1 + (if ds.Some? then [Add(ds.value)] else []);
    h.(dataSource := ds, listenerCalls := calls2)
  }

  /** `setDataSource(dataSourceId)`: any open tracker is closed; for an id
      a new tracker is made and opened, unless making it fails on the id's
      syntax, which is reported as a failure. */
  function SetDataSourceIdStep(h: Handler, dataSourceId: Option<string>, syntaxOk: bool): (r: (Handler, Result<()>))
    ensures r.0.dataSource == h.dataSource && r.0.listenerCalls == h.listenerCalls
    ensures var closed := h.trackerCalls + (if h.tracker.Some? then [Drop(h.tracker.value.id)] else []);
      && (dataSourceId.None? ==> r == (h.(tracker := None, trackerCalls := closed), Success(())))
      && (dataSourceId.Some? && !syntaxOk ==> r.0 == h.(tracker := None, trackerCalls := closed) && r.1.Failure?)
      && (dataSourceId.Some? && syntaxOk ==>
            r == (h.(tracker := Some(Tracker(h.nextTracker, dataSourceId.value)),
                     trackerCalls := closed + [Add(h.nextTracker)],
                     nextTracker := h.nextTracker + 1), Success(())))
  {
    var h1 := h.(tracker := None, trackerCalls := h.trackerCalls + (if h.tracker.Some? then [Drop(h.tracker.value.id)] else []));
    match dataSourceId
    case None => (h1, Success(()))
    case Some(id) =>
      if !syntaxOk then (h1, Failure("invalid syntax"))
      else (h1.(tracker := Some(Tracker(h.nextTracker, id)), trackerCalls := h1.trackerCalls + [Add(h.nextTracker)],
                nextTracker := h.nextTracker + 1), Success(()))
  }

  /** Switching data sources keeps the listener on exactly the current
      data source. */
  lemma SetDataSourceValid(h: Handler, ds: Option<nat>)
    requires Valid(h)
    ensures Valid(SetDataSourceStep(h, ds))
  {
    var log := h.listenerCalls;
    var mid := Live(h.dataSource);
    if h.dataSource.Some? {
      HoldsDrop(log, mid, h.dataSource.value);
      log := log + [Drop(h.dataSource.value)];
      mid := mid - {h.dataSource.value};
    }
    assert mid == {};
    assert Holds(log, {});
    if ds.Some? {
      HoldsAdd(log, {}, ds.value);
      log := log + [Add(ds.value)];
      assert {} + {ds.value} == Live(ds);
    }
    assert SetDataSourceStep(h, ds).listenerCalls == log;
  }

  /** Switching data source ids keeps exactly the current tracker open. */
  lemma SetDataSourceIdValid(h: Handler, dataSourceId: Option<string>, syntaxOk: bool)
    requires Valid(h)
    ensures Valid(SetDataSourceIdStep(h, dataSourceId, syntaxOk).0)
  {
    var log := h.trackerCalls;
    var mid := Live(TrackerId(h.tracker));
    if h.tracker.Some? {
      HoldsDrop(log, mid, h.tracker.value.id);
      log := log + [Drop(h.tracker.value.id)];
      mid := mid - {h.tracker.value.id};
    }
    assert mid == {};
    assert forall i :: 0 <= i < |log| ==> log[i].key < h.nextTracker;
    if dataSourceId.Some? && syntaxOk {
      assert h.nextTracker !in mid;
      HoldsAdd(log, {}, h.nextTracker);
      assert {} + {h.nextTracker} == Live(Some(h.nextTracker));
      var log' := log + [Add(h.nextTracker)];
      assert forall i :: 0 <= i < |log'| ==> log'[i].key < h.nextTracker + 1;
      assert SetDataSourceIdStep(h, dataSourceId, syntaxOk).0.trackerCalls == log';
    } else {
      assert SetDataSourceIdStep(h, dataSourceId, syntaxOk).0.trackerCalls == log;
    }
  }

  /** At any time at most one data source holds the handler's listener:
      the current one. */
  lemma OneDataSource(h: Handler, a: nat, b: nat)
    requires Valid(h)
    requires Net(h.listenerCalls, a) > 0 && Net(h.listenerCalls, b) > 0
    ensures a == b && h.dataSource == Some(a)
  {
    assert a in Live(h.dataSource) && b in Live(h.dataSource);
  }

  class DataSourceHandler {
    var dataSource: Option<nat>
    var listenerCalls: seq<Reg<nat>>
    var tracker: Option<Tracker>
    var trackerCalls: seq<Reg<nat>>
    var nextTracker: nat

    function State(): Handler
      reads this
    {
      Handler(dataSource, listenerCalls, tracker, trackerCalls, nextTracker)
    }

    ghost predicate Inv()
      reads this
    {
      Valid(State())
    }

    constructor ()
      ensures Inv()
      ensures State() == Handler(None, [], None, [], 0)
    {
      dataSource, listenerCalls, tracker, trackerCalls, nextTracker := None, [], None, [], 0;
    }

    /** `setDataSource(dataSource)`, also what the tracker calls when the
        data source it follows changes. */
    method SetDataSource(ds: Option<nat>)
      requires Inv()
      modifies this
      ensures Inv()
      ensures State() == SetDataSourceStep(old(State()), ds)
    {
      SetDataSourceValid(State(), ds);
      if dataSource.Some? {
        listenerCalls := listenerCalls + [Drop(dataSource.value)];
        dataSource := None;
      }
      dataSource := ds;
      if dataSource.Some? {
        listenerCalls := listenerCalls + [Add(dataSource.value)];
      }
    }

    method GetDataSource() returns (ds: Option<nat>)
      ensures ds == dataSource
    {
      ds := dataSource;
    }

    /** `setDataSource(dataSourceId)`; `syntaxOk` tells whether the tracker
        accepts the id. */
    method SetDataSourceId(dataSourceId: Option<string>, syntaxOk: bool) returns (result: Result<()>)
      requires Inv()
      modifies this
      ensures Inv()
      ensures (State(), result) == SetDataSourceIdStep(old(State()), dataSourceId, syntaxOk)
    {
      SetDataSourceIdValid(State(), dataSourceId, syntaxOk);
      if tracker.Some? {
        trackerCalls := trackerCalls + [Drop(tracker.value.id)];
        tracker := None;
      }
      assert trackerCalls == old(trackerCalls) + (if old(tracker).Some? then [Drop(old(tracker).value.id)] else []);
      result := Success(());
      if dataSourceId.Some? {
        if !syntaxOk {
          result := Failure("invalid syntax");
          return;
        }
        var t := Tracker(nextTracker, dataSourceId.value);
        nextTracker := nextTracker + 1;
        tracker := Some(t);
        trackerCalls := trackerCalls + [Add(t.id)];
      }
    }
  }
}
