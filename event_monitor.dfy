/** The event monitor of the alarms and events server. It is configured
    with an event filter; every event that passes the filter raises a
    failure on the monitor (with the configured severity) and is re-issued
    with the monitor as its source, its comment annotated with the original
    source. The filter language itself, the localised texts and the parsing
    of configuration values are not part of this model: the filter's answer
    and the texts are parameters, and so are the parsers of boolean and
    severity values. */
module EventMonitorModel {
  import opened Common

  /** The event fields this monitor reads or writes, and any other. */
  datatype Field = Comment | Source | MonitorType | Message | OtherField(name: string)

  /** An event: its source timestamp, if any, and its attributes. */
  datatype Event = Event(sourceTimestamp: Option<int>, attributes: map<Field, Variant>)

  datatype Severity = Information | Warning | Alarm | Error

  /** The monitor's configuration. A fresh one has every field cleared and
      no severity. */
  datatype Configuration = Configuration(active: bool, requireAkn: bool, severity: Option<Severity>, suppressEvents: bool)

  /** State changes the monitor reports to its base class: `setOk`, or
      `triggerFailure` with its message, timestamp, severity and
      acknowledge flag. */
  datatype StateCall =
    | SetOk
    | TriggerFailure(message: Option<Variant>, timestamp: Option<int>, severity: Option<Severity>, requireAkn: bool)

  /** A snapshot of the monitor. `matcher` is the filter the event matcher
      was built from, absent until the first update. */
  datatype Monitor = Monitor(
    matcher: Option<string>,
    monitorType: string,
    configuration: Option<Configuration>,
    stringAttributes: map<string, string>,
    suppressEvents: bool,
    stateCalls: seq<StateCall>)

  /** A matcher exists only together with a configuration, a configuration
      always has a severity, and every failure raised carried one. */
  ghost predicate Valid(m: Monitor) {
    && (m.matcher.Some? ==> m.configuration.Some?)
    && (m.configuration.Some? ==> m.configuration.value.severity.Some?)
    && (forall i :: 0 <= i < |m.stateCalls| && m.stateCalls[i].TriggerFailure? ==> m.stateCalls[i].severity.Some?)
  }

  /** The copy constructor of `Configuration`: the fields of the current
      configuration, or cleared fields when there is none. */
  function CopyConfiguration(current: Option<Configuration>): (r: Configuration)
    ensures current.Some? ==> r == current.value
    ensures current.None? ==> !r.active && !r.requireAkn && r.severity.None? && !r.suppressEvents
  {
    if current.Some? then
      var c := current.value;
      Configuration(c.active, c.requireAkn, c.severity, c.suppressEvents)
    else Configuration(false, false, None, false)
  }

  /** A string property, or `default` when it is missing. */
  function StringSetting(properties: map<string, string>, key: string, default: string): (r: string)
    ensures key in properties ==> r == properties[key]
    ensures key !in properties ==> r == default
  {
    if key in properties then properties[key] else default
  }

  /** A boolean property read with `parseBool`, or `default` when missing. */
  function BoolSetting(properties: map<string, string>, key: string, default: bool, parseBool: string -> bool): (r: bool)
    ensures key in properties ==> r == parseBool(properties[key])
    ensures key !in properties ==> r == default
  {
    if key in properties then parseBool(properties[key]) else default
  }

  /** The `severity` property read with `parseSeverity`, ALARM when missing
      or not a severity. */
  function SeveritySetting(properties: map<string, string>, parseSeverity: string -> Option<Severity>): (r: Severity)
    ensures "severity" in properties && parseSeverity(properties["severity"]).Some? ==> r == parseSeverity(properties["severity"]).value
    ensures "severity" !in properties || parseSeverity(properties["severity"]).None? ==> r == Alarm
  {
    if "severity" in properties && parseSeverity(properties["severity"]).Some? then parseSeverity(properties["severity"]).value else Alarm
  }

  /** The properties under `prefix`, with the prefix taken off their keys. */
  function Prefixed(properties: map<string, string>, prefix: string): (r: map<string, string>)
    ensures forall k :: k in r <==> prefix + k in properties
    ensures forall k :: k in r ==> r[k] == properties[prefix + k]
  {
    assert forall k :: prefix <= k ==> prefix + k[|prefix|..] == k;
    var r := map k | k in properties && prefix <= k :: k[|prefix|..] := properties[k];
    assert forall k :: prefix + k in properties ==> (prefix + k)[|prefix|..] == k;
    r
  }

  /** `update`: the `info.` properties become the string attributes; a
      configuration copied from the current one gets every field set from
      the properties (active and requireAkn default to true, the severity to
      ALARM, suppressEvents to false); the matcher is rebuilt from `filter`
      (default empty) and the monitor type is set (default `tagEvent`); the
      monitor then reports itself OK. */
  function UpdateStep(m: Monitor, properties: map<string, string>, parseBool: string -> bool,
                      parseSeverity: string -> Option<Severity>, tagEvent: string): (r: Monitor)
    ensures r.configuration == Some(Configuration(
      BoolSetting(properties, "active", true, parseBool),
      BoolSetting(properties, "requireAkn", true, parseBool),
      Some(SeveritySetting(properties, parseSeverity)),
      BoolSetting(properties, "suppressEvents", false, parseBool)))
    ensures r.matcher == Some(StringSetting(properties, "filter", ""))
    ensures r.monitorType == StringSetting(properties, "monitorType", tagEvent)
    ensures r.stringAttributes == Prefixed(properties, "info.")
    ensures r.suppressEvents == r.configuration.value.suppressEvents
    ensures r.stateCalls == m.stateCalls + [SetOk]
  {
    var c := CopyConfiguration(m.configuration)
      .(active := BoolSetting(properties, "active", true, parseBool))
      .(requireAkn := BoolSetting(properties, "requireAkn", true, parseBool))
      .(severity := Some(SeveritySetting(properties, parseSeverity)))
      .(suppressEvents := BoolSetting(properties, "suppressEvents", false, parseBool));
    Monitor(
      Some(StringSetting(properties, "filter", "")),
      StringSetting(properties, "monitorType", tagEvent),
      Some(c),
      Prefixed(properties, "info."),
      c.suppressEvents,
      m.stateCalls + [SetOk])
  }

  /** The variant holds a non-empty string. */
  predicate NonEmptyString(v: Option<Variant>) {
    v.Some? && v.value.Str? && |v.value.s| > 0
  }

  /** `annotateCommentWithSource`: the original comment, if it is a
      non-empty string, then, if the original source is a non-empty string,
      the delimiter (only after a comment), the "original source" text and
      the source. */
  function Annotate(event: Event, delimiter: string, originalSourceText: string): (r: string)
    ensures var c := if Comment in event.attributes then Some(event.attributes[Comment]) else None;
      var s := if Source in event.attributes then Some(event.attributes[Source]) else None;
      && (NonEmptyString(c) && NonEmptyString(s) ==> r == c.value.s + delimiter + originalSourceText + s.value.s)
      && (NonEmptyString(c) && !NonEmptyString(s) ==> r == c.value.s)
      && (!NonEmptyString(c) && NonEmptyString(s) ==> r == originalSourceText + s.value.s)
      && (r == "" <==> !NonEmptyString(c) && !NonEmptyString(s))
  {
    var c := if Comment in event.attributes then Some(event.attributes[Comment]) else None;
    var s := if Source in event.attributes then Some(event.attributes[Source]) else None;
    var head := if NonEmptyString(c) then c.value.s else "";
    if NonEmptyString(s) then
      head + (if NonEmptyString(c) then delimiter else "") + originalSourceText + s.value.s
    else head
  }

  /** The event re-issued for a match: the original with the annotated
      comment, this monitor as source and the monitor type. */
  function Reissued(event: Event, id: string, monitorType: string, delimiter: string, originalSourceText: string): Event {
    event.(attributes := event.attributes[Comment := Str(Annotate(event, delimiter, originalSourceText))]
                                         [Source := Str(id)]
                                         [MonitorType := Str(monitorType)])
  }

  /** `evaluate`: with a matcher that accepts the event (`matches` is its
      answer), a failure is raised with the event's message and source
      timestamp and the configured severity and acknowledge flag, and the
      re-issued event comes back with `true`; otherwise nothing changes and
      the event comes back unchanged with `false`. */
  function EvaluateStep(m: Monitor, id: string, event: Event, matches: bool, delimiter: string, originalSourceText: string)
    : (r: (Monitor, bool, Event))
    requires m.matcher.Some? ==> m.configuration.Some?
    ensures r.1 <==> m.matcher.Some? && matches
    ensures !r.1 ==> r.0 == m && r.2 == event
    ensures r.1 ==>
      && r.0 == m.(stateCalls := r.0.stateCalls)
      && r.2 == Reissued(event, id, m.monitorType, delimiter, originalSourceText)
  {
    if m.matcher.Some? && matches then
      var c := m.configuration.value;
      var message := if Message in event.attributes then Some(event.attributes[Message]) else None;
      var f := TriggerFailure(message, event.sourceTimestamp, c.severity, c.requireAkn);
      (m.(stateCalls := m.stateCalls + [f]), true, Reissued(event, id, m.monitorType, delimiter, originalSourceText))
    else (m, false, event)
  }

  /** A match raises exactly one failure, carrying the event's message and
      timestamp and the configured severity and acknowledge flag. */
  lemma EvaluateRaisesFailure(m: Monitor, id: string, event: Event, matches: bool, delimiter: string, originalSourceText: string)
    requires m.matcher.Some? ==> m.configuration.Some?
    requires m.matcher.Some? && matches
    ensures var r := EvaluateStep(m, id, event, matches, delimiter, originalSourceText);
      var c := m.configuration.value;
      && |r.0.stateCalls| == |m.stateCalls| + 1
      && r.0.stateCalls[..|m.stateCalls|] == m.stateCalls
      && r.0.stateCalls[|m.stateCalls|].TriggerFailure?
      && r.0.stateCalls[|m.stateCalls|].severity == c.severity
      && r.0.stateCalls[|m.stateCalls|].requireAkn == c.requireAkn
      && r.0.stateCalls[|m.stateCalls|].timestamp == event.sourceTimestamp
      && (Message in event.attributes <==> r.0.stateCalls[|m.stateCalls|].message.Some?)
  {
    var r := EvaluateStep(m, id, event, matches, delimiter, originalSourceText);
    assert r.0.stateCalls[..|m.stateCalls|] == m.stateCalls;
  }

  /** The re-issued event keeps every field but the three it sets, names
      this monitor as its source, and its comment keeps the original comment
      in front and ends with the original source. */
  lemma ReissuedFields(event: Event, id: string, monitorType: string, delimiter: string, originalSourceText: string)
    ensures var e := Reissued(event, id, monitorType, delimiter, originalSourceText);
      && e.sourceTimestamp == event.sourceTimestamp
      && e.attributes.Keys == event.attributes.Keys + {Comment, Source, MonitorType}
      && (forall f :: f in event.attributes && f !in {Comment, Source, MonitorType} ==> e.attributes[f] == event.attributes[f])
      && e.attributes[Source] == Str(id) && e.attributes[MonitorType] == Str(monitorType)
      && e.attributes[Comment].Str?
  {
  }

  /** The annotated comment begins with a non-empty original comment and
      ends with the "original source" text and a non-empty original
      source. */
  lemma AnnotateKeepsParts(event: Event, delimiter: string, originalSourceText: string)
    ensures var r := Annotate(event, delimiter, originalSourceText);
      && (Comment in event.attributes && NonEmptyString(Some(event.attributes[Comment])) ==>
            var c := event.attributes[Comment].s; |c| <= |r| && r[..|c|] == c)
      && (Source in event.attributes && NonEmptyString(Some(event.attributes[Source])) ==>
            var s := originalSourceText + event.attributes[Source].s; |s| <= |r| && r[|r| - |s|..] == s)
  {
    var r := Annotate(event, delimiter, originalSourceText);
    if Comment in event.attributes && NonEmptyString(Some(event.attributes[Comment])) {
      var c := event.attributes[Comment].s;
      if Source in event.attributes && NonEmptyString(Some(event.attributes[Source])) {
        assert r == c + (delimiter + originalSourceText + event.attributes[Source].s);
      }
    }
    if Source in event.attributes && NonEmptyString(Some(event.attributes[Source])) {
      var s := originalSourceText + event.attributes[Source].s;
      var c := if Comment in event.attributes && NonEmptyString(Some(event.attributes[Comment])) then event.attributes[Comment].s + delimiter else "";
      assert r == c + s;
    }
  }

  /** An update keeps the monitor valid. */
  lemma UpdateValid(m: Monitor, properties: map<string, string>, parseBool: string -> bool,
                    parseSeverity: string -> Option<Severity>, tagEvent: string)
    requires Valid(m)
    ensures Valid(UpdateStep(m, properties, parseBool, parseSeverity, tagEvent))
  {
    var u := UpdateStep(m, properties, parseBool, parseSeverity, tagEvent);
    assert forall i :: 0 <= i < |m.stateCalls| ==> u.stateCalls[i] == m.stateCalls[i];
  }

  /** An evaluation keeps the monitor valid: every failure it raises has a
      severity. */
  lemma EvaluateValid(m: Monitor, id: string, event: Event, matches: bool, delimiter: string, originalSourceText: string)
    requires Valid(m)
    ensures Valid(EvaluateStep(m, id, event, matches, delimiter, originalSourceText).0)
  {
    var r := EvaluateStep(m, id, event, matches, delimiter, originalSourceText).0;
    if m.matcher.Some? && matches {
      assert forall i :: 0 <= i < |m.stateCalls| ==> r.stateCalls[i] == m.stateCalls[i];
    }
  }

  /** Before the first update there is no matcher, and no event raises
      anything. */
  lemma NoMatcherNoFailure(m: Monitor, id: string, event: Event, matches: bool, delimiter: string, originalSourceText: string)
    requires m.matcher.None?
    ensures EvaluateStep(m, id, event, matches, delimiter, originalSourceText) == (m, false, event)
  {
  }

  class EventMonitor {
    var matcher: Option<string>
    var monitorType: string
    var configuration: Option<Configuration>
    var stringAttributes: map<string, string>
    var suppressEvents: bool
    var stateCalls: seq<StateCall>
    /** The monitor's id. */
    const id: string

    function State(): Monitor
      reads this
    {
      Monitor(matcher, monitorType, configuration, stringAttributes, suppressEvents, stateCalls)
    }

    ghost predicate Inv()
      reads this
    {
      Valid(State())
    }

    /** A new monitor has no matcher and no configuration; its monitor type
        is the localised event tag `tagEvent`. */
    constructor (id: string, tagEvent: string)
      ensures Inv()
      ensures State() == Monitor(None, tagEvent, None, map[], false, [])
      ensures this.id == id
    {
      this.id := id;
      matcher, monitorType, configuration := None, tagEvent, None;
      stringAttributes, suppressEvents, stateCalls := map[], false, [];
    }

    method Update(properties: map<string, string>, parseBool: string -> bool,
                  parseSeverity: string -> Option<Severity>, tagEvent: string)
      requires Inv()
      modifies this
      ensures Inv()
      ensures State() == UpdateStep(old(State()), properties, parseBool, parseSeverity, tagEvent)
    {
      UpdateValid(State(), properties, parseBool, parseSeverity, tagEvent);
      stringAttributes := Prefixed(properties, "info.");
      var c := CopyConfiguration(configuration);
      c := c.(active := BoolSetting(properties, "active", true, parseBool));
      c := c.(requireAkn := BoolSetting(properties, "requireAkn", true, parseBool));
      c := c.(severity := Some(SeveritySetting(properties, parseSeverity)));
      c := c.(suppressEvents := BoolSetting(properties, "suppressEvents", false, parseBool));
      matcher := Some(StringSetting(properties, "filter", ""));
      monitorType := StringSetting(properties, "monitorType", tagEvent);
      configuration := Some(c);
      suppressEvents := c.suppressEvents;
      stateCalls := stateCalls + [SetOk];
    }

    /** `evaluate`; `matches` is the matcher's answer for `event`, and
        `delimiter` and `originalSourceText` are the localised texts. */
    method Evaluate(event: Event, matches: bool, delimiter: string, originalSourceText: string)
      returns (matched: bool, result: Event)
      requires Inv()
      modifies this
      ensures Inv()
      ensures (State(), matched, result) == EvaluateStep(old(State()), id, event, matches, delimiter, originalSourceText)
    {
      EvaluateValid(State(), id, event, matches, delimiter, originalSourceText);
      if matcher.Some? {
        if matches {
          var message := if Message in event.attributes then Some(event.attributes[Message]) else None;
          var c := configuration.value;
          stateCalls := stateCalls + [TriggerFailure(message, event.sourceTimestamp, c.severity, c.requireAkn)];
          var comment := Annotate(event, delimiter, originalSourceText);
          var attributes := event.attributes[Comment := Str(comment)];
          attributes := attributes[Source := Str(id)];
          attributes := attributes[MonitorType := Str(monitorType)];
          return true, event.(attributes := attributes);
        }
      }
      return false, event;
    }
  }
}
