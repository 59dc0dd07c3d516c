/**
 * Conversions between the host platform's calendar events and ical Events:
 * normalising user input before it reaches the event store, and normalising
 * the bounds of an occurrence before it is shown.
 */
module CalendarEvents {
  import opened Outcomes
  import opened Ical

  /** Keys of the host platform's event dictionary. */
  const EVENT_START := "dtstart"
  const EVENT_END := "dtend"
  const EVENT_RRULE := "rrule"

  /** The string value of `Range.THIS_AND_FUTURE` (the RANGE parameter of RFC 5545, section 3.2.13). */
  const THIS_AND_FUTURE := "THISANDFUTURE"

  const INVALID_INPUT := "Error parsing event input fields"

  /** Display fallbacks: 30 minutes for a date-time event, one day for an all-day event. */
  const HALF_HOUR := 30 * 60
  const ONE_DAY := 1

  /** The errors raised on the calendar paths. */
  datatype Error =
    | RecurrenceRejected         // Recur.from_rrule refused the rrule value
    | MissingKey(key: string)    // KeyError on a missing start or end
    | Invalid(message: string)   // vol.Invalid: the ical Event could not be built
    | StoreError(message: string)        // EventStoreError raised by add, not wrapped
    | HomeAssistantError(message: string) // an EventStoreError wrapped by delete or edit
    | TransportError             // the HTTP client raised before answering
    | HttpStatusError(status: int)        // raise_for_status on a non-2xx answer
    | CalendarParseError         // the fetched text is not iCalendar
    | NoCalendar                 // a remote calendar queried before its first fetch
    | SerializeError(message: string)    // calendar_to_ics raised
    | TimelineError(message: string)     // the timeline query active_after raised

  /**
   * The host's local time zone (`dt_util.as_local`): its name, and an uninterpreted
   * map from any date-time to the wall-clock reading of the same instant in that zone.
   */
  datatype LocalZone = LocalZone(name: string, wallClock: DateTime -> int)

  function AsLocal(z: LocalZone, t: DateTime): DateTime {
    DateTime(z.wallClock(t), Some(z.name))
  }

  /**
   * `end - start` in seconds for two date-times that share one time zone: Python
   * subtracts their wall-clock readings, which is what arises here since both
   * bounds have been localised.
   */
  function Elapsed(start: DateTime, end: DateTime): int {
    end.wall - start.wall
  }

  /** The host platform's event (`CalendarEvent`). */
  datatype CalendarEvent = CalendarEvent(
    summary: string,
    start: Moment,
    end: Moment,
    description: Option<string>,
    uid: string,
    rrule: Option<string>,
    recurrenceId: Option<string>,
    location: Option<string>)

  /** A displayable event: a date-time event ends strictly after it starts, an all-day event never before. */
  predicate ProperBounds(c: CalendarEvent) {
    match (c.start, c.end)
    case (AtTime(s), AtTime(e)) => s.zone == e.zone && Elapsed(s, e) > 0
    case (OnDate(s), OnDate(e)) => s <= e
    case _ => false
  }

  // ---------------------------------------------------------------------------
  // _get_calendar_event

  /** The event shown for an occurrence, with its bounds normalised for display. */
  function GetCalendarEvent(lib: Library, z: LocalZone, e: Event): (r: CalendarEvent)
    ensures ProperBounds(r)
    // date-time events are shown in local time; a positive duration is kept as it is
    ensures e.start.AtTime? && e.end.AtTime? ==>
      && r.start == AtTime(AsLocal(z, e.start.time))
      && (Elapsed(AsLocal(z, e.start.time), AsLocal(z, e.end.time)) > 0 ==>
            r.end == AtTime(AsLocal(z, e.end.time)))
      && (Elapsed(AsLocal(z, e.start.time), AsLocal(z, e.end.time)) <= 0 ==>
            Elapsed(r.start.time, r.end.time) == HALF_HOUR)
    // all-day events keep their dates unless the end is before the start
    ensures e.start.OnDate? ==>
      && r.start == e.start
      && (e.end.day >= e.start.day ==> r.end == e.end)
      && (e.end.day < e.start.day ==> r.end == OnDate(e.start.day + ONE_DAY))
    // every other field is carried over
    ensures r.summary == e.summary && r.description == e.description && r.uid == e.uid
    ensures r.recurrenceId == e.recurrenceId && r.location == e.location
    ensures r.rrule.None? <==> e.rrule.None?
    ensures e.rrule.Some? ==> r.rrule == Some(lib.recurToRRule(e.rrule.value))
  {
    var (start, end) :=
      if e.start.AtTime? && e.end.AtTime? then
        var s := AsLocal(z, e.start.time);
        var t := AsLocal(z, e.end.time);
        if Elapsed(s, t) <= 0 then (AtTime(s), AtTime(DateTime(s.wall + HALF_HOUR, s.zone)))
        else (AtTime(s), AtTime(t))
      else
        if e.end.day - e.start.day < 0 then (e.start, OnDate(e.start.day + ONE_DAY))
        else (e.start, e.end);
    CalendarEvent(
      e.summary, start, end, e.description, e.uid,
      if e.rrule.Some? then Some(lib.recurToRRule(e.rrule.value)) else None,
      e.recurrenceId, e.location)
  }

  /** `async_get_events`: every occurrence overlapping [start, end), in the timeline's order, displayed. */
  function GetEvents(lib: Library, z: LocalZone, cal: Calendar, start: DateTime, end: DateTime)
    : (r: seq<CalendarEvent>)
    ensures |r| == |lib.overlapping(cal, start, end)|
    ensures forall i :: 0 <= i < |r| ==>
      && ProperBounds(r[i])
      && r[i].uid == lib.overlapping(cal, start, end)[i].uid
      && r[i].recurrenceId == lib.overlapping(cal, start, end)[i].recurrenceId
    ensures forall i :: 0 <= i < |r| ==> r[i] == GetCalendarEvent(lib, z, lib.overlapping(cal, start, end)[i])
  {
    var occurrences := lib.overlapping(cal, start, end);
    seq(|occurrences|, i requires 0 <= i < |occurrences| => GetCalendarEvent(lib, z, occurrences[i]))
  }

  /**
   * `async_update`: the first occurrence still active after `now`, displayed, if there
   * is one; the error of the timeline query when it raises.
   */
  function NextEvent(lib: Library, z: LocalZone, cal: Calendar, now: DateTime)
    : (r: Result<Option<CalendarEvent>, Error>)
    ensures r.Err? <==> lib.activeAfter(cal, now).Err?
    ensures r.Err? ==> r.error == TimelineError(lib.activeAfter(cal, now).error)
    ensures r.Ok? ==> (r.value.None? <==> lib.activeAfter(cal, now).value.None?)
    ensures r.Ok? && r.value.Some? ==>
      && ProperBounds(r.value.value)
      && r.value.value.uid == lib.activeAfter(cal, now).value.value.uid
      && r.value.value.recurrenceId == lib.activeAfter(cal, now).value.value.recurrenceId
    ensures r.Ok? && r.value.Some? ==> r.value.value == GetCalendarEvent(lib, z, lib.activeAfter(cal, now).value.value)
  {
    match lib.activeAfter(cal, now)
    case Err(message) => Err(TimelineError(message))
    case Ok(Some(e)) => Ok(Some(GetCalendarEvent(lib, z, e)))
    case Ok(None) => Ok(None)
  }

  // ---------------------------------------------------------------------------
  // Range selection in async_delete_event / async_update_event

  /** The store range for a requested range: this-and-future only when exactly that is asked for. */
  function SelectRange(requested: Option<string>): (r: Range)
    ensures r == ThisAndFuture <==> requested == Some(THIS_AND_FUTURE)
    ensures r == RangeNone <==> requested != Some(THIS_AND_FUTURE)
  {
    if requested == Some(THIS_AND_FUTURE) then ThisAndFuture else RangeNone
  }

  // ---------------------------------------------------------------------------
  // _parse_event

  /** Python truthiness of a dictionary value. */
  predicate Truthy(v: Field) {
    match v
    case Text(s) => s != ""
    case Null => false
    case _ => true
  }

  /** The value is a date-time that carries a time zone. */
  predicate IsAware(v: Field) {
    v.Time? && v.moment.AtTime? && v.moment.time.zone.Some?
  }

  /** One bound after normalisation: an aware date-time becomes the floating local reading of it. */
  function Floating(z: LocalZone, v: Field): (r: Field)
    ensures !IsAware(r)
    ensures !IsAware(v) ==> r == v
    ensures IsAware(v) ==> r.Time? && r.moment.AtTime? && r.moment.time.wall == AsLocal(z, v.moment.time).wall
  {
    if Truthy(v) && IsAware(v) then Time(AtTime(DateTime(AsLocal(z, v.moment.time).wall, None)))
    else v
  }

  /** The rrule step: a non-empty rrule value is replaced by the parsed rule. */
  function ConvertRule(lib: Library, event: map<string, Field>): (r: Result<map<string, Field>, Error>)
    ensures r.Err? ==> r.error == RecurrenceRejected
    ensures r.Ok? ==> r.value.Keys == event.Keys
    ensures r.Ok? ==> forall k :: k in event && k != EVENT_RRULE ==> r.value[k] == event[k]
    ensures r.Ok? && EVENT_RRULE in event && Truthy(event[EVENT_RRULE]) ==> r.value[EVENT_RRULE].Rule?
    ensures (EVENT_RRULE !in event || !Truthy(event[EVENT_RRULE])) ==> r == Ok(event)
    ensures EVENT_RRULE in event && event[EVENT_RRULE].Text? && event[EVENT_RRULE].text != "" ==>
      var parsed := lib.recurFromRRule(event[EVENT_RRULE].text);
      && (r.Ok? <==> parsed.Some?)
      && (r.Ok? ==> r.value[EVENT_RRULE] == Rule(parsed.value))
    ensures EVENT_RRULE in event && Truthy(event[EVENT_RRULE]) && !event[EVENT_RRULE].Text? ==> r.Err?
  {
    if EVENT_RRULE in event && Truthy(event[EVENT_RRULE]) then
      match event[EVENT_RRULE]
      case Text(s) =>
        (match lib.recurFromRRule(s)
         case Some(rec) => Ok(event[EVENT_RRULE := Rule(rec)])
         case None => Err(RecurrenceRejected))
      case _ => Err(RecurrenceRejected)
    else Ok(event)
  }

  /** Both bounds after `_parse_event`'s loop: only aware date-times change, into floating local time. */
  function FloatBounds(z: LocalZone, before: map<string, Field>): (after: map<string, Field>)
    requires EVENT_START in before && EVENT_END in before
    ensures after.Keys == before.Keys
    ensures !IsAware(after[EVENT_START]) && !IsAware(after[EVENT_END])
    ensures after[EVENT_START] == Floating(z, before[EVENT_START])
    ensures after[EVENT_END] == Floating(z, before[EVENT_END])
    ensures forall k :: k in before && k != EVENT_START && k != EVENT_END ==> after[k] == before[k]
    ensures forall k :: k in before && !IsAware(before[k]) ==> after[k] == before[k]
  {
    before[EVENT_START := Floating(z, before[EVENT_START])][EVENT_END := Floating(z, before[EVENT_END])]
  }

  /** What `_parse_event` returns or raises for a dictionary of event fields. */
  function ParsedEvent(lib: Library, z: LocalZone, event: map<string, Field>): (r: Result<Event, Error>)
    ensures r.Ok? ==>
      && ConvertRule(lib, event).Ok? && EVENT_START in event && EVENT_END in event
      && lib.makeEvent(FloatBounds(z, ConvertRule(lib, event).value)) == Some(r.value)
    ensures r.Err? ==>
      r.error in {RecurrenceRejected, MissingKey(EVENT_START), MissingKey(EVENT_END), Invalid(INVALID_INPUT)}
    ensures ConvertRule(lib, event).Err? ==> r == Err(RecurrenceRejected)
    ensures ConvertRule(lib, event).Ok? && EVENT_START !in event ==> r == Err(MissingKey(EVENT_START))
    ensures ConvertRule(lib, event).Ok? && EVENT_START in event && EVENT_END !in event ==>
      r == Err(MissingKey(EVENT_END))
    ensures ConvertRule(lib, event).Ok? && EVENT_START in event && EVENT_END in event ==>
      var built := lib.makeEvent(FloatBounds(z, ConvertRule(lib, event).value));
      && (built.Some? ==> r == Ok(built.value))
      && (built.None? ==> r == Err(Invalid(INVALID_INPUT)))
  {
    match ConvertRule(lib, event)
    case Err(e) => Err(e)
    case Ok(before) =>
      if EVENT_START !in before then Err(MissingKey(EVENT_START))
      else if EVENT_END !in before then Err(MissingKey(EVENT_END))
      else
        match lib.makeEvent(FloatBounds(z, before))
        case Some(built) => Ok(built)
        case None => Err(Invalid(INVALID_INPUT))
  }

  /**
   * `_parse_event`: returns the dictionary as the method leaves it (the source
   * updates the caller's dictionary in place) and the Event built from it.
   */
  method ParseEvent(lib: Library, z: LocalZone, event: map<string, Field>)
    returns (fields: map<string, Field>, r: Result<Event, Error>)
    ensures r == ParsedEvent(lib, z, event)
    ensures fields.Keys == event.Keys
    ensures ConvertRule(lib, event).Err? ==> fields == event
    ensures ConvertRule(lib, event).Ok? ==>
      var before := ConvertRule(lib, event).value;
      // each bound is touched only when the loop reaches it
      && (EVENT_START !in before ==> fields == before)
      && (EVENT_START in before && EVENT_END !in before ==>
            fields == before[EVENT_START := Floating(z, before[EVENT_START])])
      && (EVENT_START in before && EVENT_END in before ==> fields == FloatBounds(z, before))
  {
    var converted := ConvertRule(lib, event);
    if converted.Err? {
      fields, r := event, Err(converted.error);
      return;
    }
    var before := converted.value;
    fields := before;
    var keys := [EVENT_START, EVENT_END];
    assert EVENT_START != EVENT_END;
    for i := 0 to |keys|
      invariant fields.Keys == before.Keys
      invariant forall j :: 0 <= j < i ==> keys[j] in before && fields[keys[j]] == Floating(z, before[keys[j]])
      invariant forall k :: k in fields && k !in keys[..i] ==> fields[k] == before[k]
    {
      var key := keys[i];
      if key !in fields {
        assert i == 1 ==> fields[keys[0]] == Floating(z, before[keys[0]]);
        r := Err(MissingKey(key));
        return;
      }
      var value := fields[key];
      if Truthy(value) && IsAware(value) {
        fields := fields[key := Time(AtTime(DateTime(AsLocal(z, value.moment.time).wall, None)))];
      }
    }
    assert fields[keys[0]] == Floating(z, before[keys[0]]);
    assert fields[keys[1]] == Floating(z, before[keys[1]]);
    assert fields == FloatBounds(z, before);
    match lib.makeEvent(fields)
    case Some(built) => r := Ok(built);
    case None => r := Err(Invalid(INVALID_INPUT));
  }
}
