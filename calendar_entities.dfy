/**
 * The calendar entities: a local calendar that accepts edits and persists itself
 * after each one, and a read-only remote calendar refreshed by conditional GET.
 * The host platform's lifecycle is not modelled; the clock (`now`), the HTTP
 * client and the file store are parameters or plain fields.
 */
module CalendarEntities {
  import opened Outcomes
  import opened Ical
  import opened CalendarEvents

  const PRODID := "-//homeassistant.io//local_calendar 1.0//EN"

  const DELETE_ERROR := "Error while deleting event: "
  const UPDATE_ERROR := "Error while updating event: "

  /** The calendar tagged with this integration's product identifier (`calendar.prodid = PRODID`). */
  function Stamped(c: Calendar): Calendar {
    c.(prodid := PRODID)
  }

  /** Setting up a local calendar: parse the stored text and tag it. */
  function LoadCalendar(lib: Library, ics: string): (r: Result<Calendar, Error>)
    ensures r.Err? <==> lib.calendarFromIcs(ics).None?
    ensures r.Err? ==> r.error == CalendarParseError
    ensures r.Ok? ==> r.value.prodid == PRODID && r.value.events == lib.calendarFromIcs(ics).value.events
  {
    match lib.calendarFromIcs(ics)
    case Some(c) => Ok(Stamped(c))
    case None => Err(CalendarParseError)
  }

  /**
   * The event shown once the host has refreshed an entity after a change
   * (`async_update_ha_state(force_refresh=True)`): the next upcoming event, or, when
   * the timeline query raises, the event shown before, since the host logs a failing
   * update and returns without raising.
   */
  function Refreshed(lib: Library, z: LocalZone, cal: Calendar, now: DateTime, shown: Option<CalendarEvent>)
    : (r: Option<CalendarEvent>)
    ensures lib.activeAfter(cal, now).Err? ==> r == shown
    ensures lib.activeAfter(cal, now).Ok? ==> NextEvent(lib, z, cal, now) == Ok(r)
  {
    match NextEvent(lib, z, cal, now)
    case Ok(next) => next
    case Err(_) => shown
  }

  /** The state a local calendar entity keeps. */
  datatype LocalState = LocalState(calendar: Calendar, event: Option<CalendarEvent>, persisted: seq<string>)

  /**
   * The local entity after a store operation produced `c`. The store edits the calendar
   * in place, so `c` is in force whatever follows. Its text reaches the file store only
   * when it serialises, and only then is the entity refreshed; a serialiser that raises
   * makes the whole edit raise with the new calendar in force but not stored.
   */
  function Committed(lib: Library, z: LocalZone, s: LocalState, c: Calendar, now: DateTime)
    : (r: (LocalState, Outcome<Error>))
    ensures r.0.calendar == c
    ensures r.1.Fail? <==> lib.calendarToIcs(c).Err?
    ensures r.1.Fail? ==>
      && r.1.error == SerializeError(lib.calendarToIcs(c).error)
      && r.0.persisted == s.persisted
      && r.0.event == s.event
    ensures r.1.Pass? ==>
      && r.0.persisted == s.persisted + [lib.calendarToIcs(c).value]
      && r.0.event == Refreshed(lib, z, c, now, s.event)
  {
    match lib.calendarToIcs(c)
    case Err(message) => (s.(calendar := c), Fail(SerializeError(message)))
    case Ok(text) =>
      (LocalState(c, Refreshed(lib, z, c, now, s.event), s.persisted + [text]), Pass)
  }

  /**
   * A commit that goes through leaves the file store holding the serialisation of the
   * calendar in force; one that fails leaves it holding something else, so the two
   * outcomes are told apart by the stored text alone.
   */
  lemma CommittedStoresCalendar(lib: Library, z: LocalZone, s: LocalState, c: Calendar, now: DateTime)
    ensures
      var r := Committed(lib, z, s, c, now);
      && r.0.persisted[..|s.persisted|] == s.persisted
      && (r.1.Pass? <==> |r.0.persisted| > 0 && lib.calendarToIcs(r.0.calendar) == Ok(r.0.persisted[|r.0.persisted| - 1]))
  {
  }

  /** A calendar entity backed by a local iCalendar file. */
  class LocalCalendarEntity {
    const lib: Library
    const zone: LocalZone
    var calendar: Calendar
    /** The next upcoming event, as last computed by Update. */
    var event: Option<CalendarEvent>
    /** Every text handed to the file store, oldest first. */
    var persisted: seq<string>

    function State(): LocalState
      reads this
    {
      LocalState(calendar, event, persisted)
    }

    constructor (lib: Library, zone: LocalZone, calendar: Calendar)
      ensures this.lib == lib && this.zone == zone
      ensures State() == LocalState(calendar, None, [])
    {
      this.lib := lib;
      this.zone := zone;
      this.calendar := calendar;
      event := None;
      persisted := [];
    }

    /** `async_update`: recompute the next upcoming event; a raising timeline query leaves it as it was. */
    method Update(now: DateTime) returns (outcome: Outcome<Error>)
      modifies this`event
      ensures NextEvent(lib, zone, calendar, now).Err? ==>
        event == old(event) && outcome == Fail(NextEvent(lib, zone, calendar, now).error)
      ensures NextEvent(lib, zone, calendar, now).Ok? ==>
        event == NextEvent(lib, zone, calendar, now).value && outcome == Pass
    {
      match lib.activeAfter(calendar, now)
      case Err(message) =>
        outcome := Fail(TimelineError(message));
      case Ok(Some(e)) =>
        event := Some(GetCalendarEvent(lib, zone, e));
        outcome := Pass;
      case Ok(None) =>
        event := None;
        outcome := Pass;
    }

    /** `_async_store`: persist the serialised calendar; nothing is written when serialising raises. */
    method Store() returns (outcome: Outcome<Error>)
      modifies this`persisted
      ensures lib.calendarToIcs(calendar).Err? ==>
        persisted == old(persisted) && outcome == Fail(SerializeError(lib.calendarToIcs(calendar).error))
      ensures lib.calendarToIcs(calendar).Ok? ==>
        persisted == old(persisted) + [lib.calendarToIcs(calendar).value] && outcome == Pass
    {
      var content := lib.calendarToIcs(calendar);
      if content.Err? {
        return Fail(SerializeError(content.error));
      }
      persisted := persisted + [content.value];
      outcome := Pass;
    }

    /** After a successful store operation: persist, then let the host refresh the state. */
    method Commit(c: Calendar, now: DateTime) returns (outcome: Outcome<Error>)
      modifies this`calendar, this`event, this`persisted
      ensures (State(), outcome) == Committed(lib, zone, old(State()), c, now)
    {
      calendar := c;
      outcome := Store();
      if outcome.Fail? {
        return;
      }
      // The host logs a failing update instead of raising it.
      var _ := Update(now);
    }

    /** `async_create_event`: parse the fields, add the event, persist. Store errors are not wrapped. */
    method CreateEvent(fields: map<string, Field>, now: DateTime) returns (outcome: Outcome<Error>)
      modifies this`calendar, this`event, this`persisted
      ensures
        var parsed := ParsedEvent(lib, zone, fields);
        && (parsed.Err? ==> outcome == Fail(parsed.error) && State() == old(State()))
        && (parsed.Ok? && lib.add(old(calendar), parsed.value).Err? ==>
              && outcome == Fail(StoreError(lib.add(old(calendar), parsed.value).error))
              && State() == old(State()))
        && (parsed.Ok? && lib.add(old(calendar), parsed.value).Ok? ==>
              (State(), outcome) == Committed(lib, zone, old(State()), lib.add(old(calendar), parsed.value).value, now))
    {
      var _, parsed := ParseEvent(lib, zone, fields);
      if parsed.Err? {
        return Fail(parsed.error);
      }
      match lib.add(calendar, parsed.value)
      case Err(message) =>
        outcome := Fail(StoreError(message));
      case Ok(c) =>
        outcome := Commit(c, now);
    }

    /** `async_delete_event`: delete through the store in the selected range, then persist. */
    method DeleteEvent(uid: string, recurrenceId: Option<string>, recurrenceRange: Option<string>, now: DateTime)
      returns (outcome: Outcome<Error>)
      modifies this`calendar, this`event, this`persisted
      ensures
        var res := lib.delete(old(calendar), uid, recurrenceId, SelectRange(recurrenceRange));
        && (res.Err? ==>
              outcome == Fail(HomeAssistantError(DELETE_ERROR + res.error)) && State() == old(State()))
        && (res.Ok? ==> (State(), outcome) == Committed(lib, zone, old(State()), res.value, now))
    {
      var rangeValue := RangeNone;
      if recurrenceRange == Some(THIS_AND_FUTURE) {
        rangeValue := ThisAndFuture;
      }
      match lib.delete(calendar, uid, recurrenceId, rangeValue)
      case Err(message) =>
        outcome := Fail(HomeAssistantError(DELETE_ERROR + message));
      case Ok(c) =>
        outcome := Commit(c, now);
    }

    /** `async_update_event`: parse the new fields, edit through the store in the selected range, then persist. */
    method UpdateEvent(uid: string, fields: map<string, Field>, recurrenceId: Option<string>,
                       recurrenceRange: Option<string>, now: DateTime)
      returns (outcome: Outcome<Error>)
      modifies this`calendar, this`event, this`persisted
      ensures
        var parsed := ParsedEvent(lib, zone, fields);
        && (parsed.Err? ==> outcome == Fail(parsed.error) && State() == old(State()))
        && (parsed.Ok? ==>
              var res := lib.edit(old(calendar), uid, parsed.value, recurrenceId, SelectRange(recurrenceRange));
              && (res.Err? ==>
                    outcome == Fail(HomeAssistantError(UPDATE_ERROR + res.error)) && State() == old(State()))
              && (res.Ok? ==> (State(), outcome) == Committed(lib, zone, old(State()), res.value, now)))
    {
      var _, parsed := ParseEvent(lib, zone, fields);
      if parsed.Err? {
        return Fail(parsed.error);
      }
      var rangeValue := RangeNone;
      if recurrenceRange == Some(THIS_AND_FUTURE) {
        rangeValue := ThisAndFuture;
      }
      match lib.edit(calendar, uid, parsed.value, recurrenceId, rangeValue)
      case Err(message) =>
        outcome := Fail(HomeAssistantError(UPDATE_ERROR + message));
      case Ok(c) =>
        outcome := Commit(c, now);
    }
  }

  // ---------------------------------------------------------------------------
  // The remote calendar

  const IF_NONE_MATCH := "If-None-Match"
  const NOT_MODIFIED := 304

  /** What the HTTP client gave back: an answer, or nothing because it raised. */
  datatype Response = Response(status: int, etag: Option<string>, text: string) | NoResponse

  /** `raise_for_status` lets through exactly the 2xx answers. */
  predicate IsSuccess(status: int) {
    200 <= status <= 299
  }

  /** The request headers: If-None-Match carries the held entity tag when it is non-empty. */
  function RequestHeaders(etag: Option<string>): (h: map<string, string>)
    ensures IF_NONE_MATCH in h <==> etag.Some? && etag.value != ""
    ensures IF_NONE_MATCH in h ==> h[IF_NONE_MATCH] == etag.value
    ensures forall k :: k in h ==> k == IF_NONE_MATCH
  {
    if etag.Some? && etag.value != "" then map[IF_NONE_MATCH := etag.value] else map[]
  }

  /** The state a remote calendar entity keeps. */
  datatype RemoteState = RemoteState(
    etag: Option<string>,
    calendar: Option<Calendar>,
    persisted: seq<string>,
    event: Option<CalendarEvent>)

  /**
   * `_fetch_calendar_and_update` on one answer. The entity tag is replaced before
   * the body is parsed, so an unparsable body still replaces it; the new calendar is
   * in force before it is serialised, so a serialiser that raises leaves it unstored.
   */
  function Refresh(lib: Library, z: LocalZone, s: RemoteState, res: Response, now: DateTime)
    : (r: (RemoteState, Outcome<Error>))
    ensures res.NoResponse? ==> r == (s, Fail(TransportError))
    ensures res.Response? && res.status == NOT_MODIFIED ==> r == (s, Pass)
    ensures res.Response? && res.status != NOT_MODIFIED && !IsSuccess(res.status) ==>
      r == (s, Fail(HttpStatusError(res.status)))
    ensures res.Response? && IsSuccess(res.status) ==>
      && r.0.etag == res.etag
      && (lib.calendarFromIcs(res.text).None? ==>
            r == (s.(etag := res.etag), Fail(CalendarParseError)))
      && (lib.calendarFromIcs(res.text).Some? ==>
            && r.0.calendar.Some?
            && r.0.calendar.value.prodid == PRODID
            && r.0.calendar.value.events == lib.calendarFromIcs(res.text).value.events
            && (lib.calendarToIcs(r.0.calendar.value).Err? ==>
                  && r.1 == Fail(SerializeError(lib.calendarToIcs(r.0.calendar.value).error))
                  && r.0.persisted == s.persisted
                  && r.0.event == s.event)
            && (lib.calendarToIcs(r.0.calendar.value).Ok? ==>
                  && r.1 == Pass
                  && r.0.persisted == s.persisted + [lib.calendarToIcs(r.0.calendar.value).value]
                  && r.0.event == Refreshed(lib, z, r.0.calendar.value, now, s.event)))
  {
    match res
    case NoResponse => (s, Fail(TransportError))
    case Response(status, etag, text) =>
      if status == NOT_MODIFIED then (s, Pass)
      else if !IsSuccess(status) then (s, Fail(HttpStatusError(status)))
      else
        match lib.calendarFromIcs(text)
        case None => (s.(etag := etag), Fail(CalendarParseError))
        case Some(c) =>
          var cal := Stamped(c);
          var installed := s.(etag := etag, calendar := Some(cal));
          match lib.calendarToIcs(cal)
          case Err(message) => (installed, Fail(SerializeError(message)))
          case Ok(text) =>
            (installed.(persisted := s.persisted + [text], event := Refreshed(lib, z, cal, now, s.event)), Pass)
  }

  /**
   * The remote entity's invariant: a calendar in force is tagged, and an event is
   * only shown once a calendar is in force.
   */
  predicate Consistent(s: RemoteState) {
    && (s.calendar.Some? ==> s.calendar.value.prodid == PRODID)
    && (s.event.Some? ==> s.calendar.Some?)
  }

  /** The calendar in force, if any, is what the file store received last. */
  predicate Stored(lib: Library, s: RemoteState) {
    s.calendar.Some? ==>
      && |s.persisted| > 0
      && lib.calendarToIcs(s.calendar.value) == Ok(s.persisted[|s.persisted| - 1])
  }

  /** Every refresh, whatever the answer, keeps the remote entity consistent and never drops stored text. */
  lemma RefreshPreservesConsistent(lib: Library, z: LocalZone, s: RemoteState, res: Response, now: DateTime)
    requires Consistent(s)
    ensures Consistent(Refresh(lib, z, s, res, now).0)
    ensures Refresh(lib, z, s, res, now).0.persisted[..|s.persisted|] == s.persisted
  {
  }

  /**
   * A refresh keeps the calendar in force stored exactly when it does not end in a
   * serialisation error: that error is the one answer that leaves a calendar in force
   * which the file store never received.
   */
  lemma RefreshKeepsStored(lib: Library, z: LocalZone, s: RemoteState, res: Response, now: DateTime)
    requires Stored(lib, s)
    ensures
      var r := Refresh(lib, z, s, res, now);
      Stored(lib, r.0) <==> !(r.1.Fail? && r.1.error.SerializeError?)
  {
  }

  /**
   * After a successful refresh that received a non-empty entity tag, the next request
   * is conditional on that tag, and a not-modified answer to it changes nothing.
   */
  lemma RefreshThenNotModified(lib: Library, z: LocalZone, s: RemoteState, res: Response, now: DateTime,
                               later: DateTime, text: string)
    requires res.Response? && IsSuccess(res.status) && lib.calendarFromIcs(res.text).Some?
    requires res.etag.Some? && res.etag.value != ""
    ensures
      var s1 := Refresh(lib, z, s, res, now).0;
      && RequestHeaders(s1.etag) == map[IF_NONE_MATCH := res.etag.value]
      && Refresh(lib, z, s1, Response(NOT_MODIFIED, None, text), later) == (s1, Pass)
  {
  }

  /**
   * An unparsable 2xx body still replaces the entity tag: the old calendar stays in
   * force, the next request is conditional on the new tag, and the server's
   * not-modified answer to it keeps the old calendar in force.
   */
  lemma ParseFailureThenNotModifiedKeepsStale(lib: Library, z: LocalZone, s: RemoteState, res: Response,
                                              now: DateTime, later: DateTime, text: string)
    requires res.Response? && IsSuccess(res.status) && lib.calendarFromIcs(res.text).None?
    requires res.etag.Some? && res.etag.value != ""
    ensures
      var r := Refresh(lib, z, s, res, now);
      && r.1 == Fail(CalendarParseError)
      && r.0.calendar == s.calendar && r.0.persisted == s.persisted && r.0.event == s.event
      && RequestHeaders(r.0.etag) == map[IF_NONE_MATCH := res.etag.value]
      && Refresh(lib, z, r.0, Response(NOT_MODIFIED, None, text), later).0.calendar == s.calendar
  {
  }

  /** A read-only calendar fetched from a URL and refreshed by conditional GET. */
  class RemoteCalendarEntity {
    const lib: Library
    const zone: LocalZone
    var etag: Option<string>
    var calendar: Option<Calendar>
    var persisted: seq<string>
    var event: Option<CalendarEvent>

    function State(): RemoteState
      reads this
    {
      RemoteState(etag, calendar, persisted, event)
    }

    constructor (lib: Library, zone: LocalZone)
      ensures this.lib == lib && this.zone == zone
      ensures State() == RemoteState(None, None, [], None)
      ensures Consistent(State()) && Stored(lib, State())
    {
      this.lib := lib;
      this.zone := zone;
      etag := None;
      calendar := None;
      persisted := [];
      event := None;
    }

    /**
     * `async_update`: nothing to do before the first fetch has set a calendar; after
     * it, the local entity's update, which leaves the event as it was when the
     * timeline query raises.
     */
    method Update(now: DateTime) returns (outcome: Outcome<Error>)
      modifies this`event
      ensures calendar.None? ==> event == old(event) && outcome == Pass
      ensures calendar.Some? && NextEvent(lib, zone, calendar.value, now).Err? ==>
        event == old(event) && outcome == Fail(NextEvent(lib, zone, calendar.value, now).error)
      ensures calendar.Some? && NextEvent(lib, zone, calendar.value, now).Ok? ==>
        event == NextEvent(lib, zone, calendar.value, now).value && outcome == Pass
    {
      if calendar.None? {
        return Pass;
      }
      var next := NextEvent(lib, zone, calendar.value, now);
      if next.Err? {
        return Fail(next.error);
      }
      event := next.value;
      outcome := Pass;
    }

    /** `async_get_events`: raises while no calendar has been fetched. */
    method GetEvents(start: DateTime, end: DateTime) returns (r: Result<seq<CalendarEvent>, Error>)
      ensures r.Err? <==> calendar.None?
      ensures r.Err? ==> r.error == NoCalendar
      ensures r.Ok? ==> r.value == CalendarEvents.GetEvents(lib, zone, calendar.value, start, end)
    {
      if calendar.None? {
        return Err(NoCalendar);
      }
      r := Ok(CalendarEvents.GetEvents(lib, zone, calendar.value, start, end));
    }

    /** `_fetch_calendar_and_update`, with the HTTP client as `get` from request headers to an answer. */
    method FetchCalendarAndUpdate(get: map<string, string> -> Response, now: DateTime)
      returns (outcome: Outcome<Error>)
      requires Consistent(State())
      modifies this`etag, this`calendar, this`persisted, this`event
      ensures (State(), outcome) == Refresh(lib, zone, old(State()), get(RequestHeaders(old(etag))), now)
      ensures Consistent(State())
      ensures old(Stored(lib, State())) ==> (Stored(lib, State()) <==> !(outcome.Fail? && outcome.error.SerializeError?))
    {
      ghost var s := State();
      var headers := map[];
      if etag.Some? && etag.value != "" {
        headers := headers[IF_NONE_MATCH := etag.value];
      }
      var res := get(headers);
      RefreshPreservesConsistent(lib, zone, s, res, now);
      if Stored(lib, s) {
        RefreshKeepsStored(lib, zone, s, res, now);
      }
      if res.NoResponse? {
        return Fail(TransportError);
      }
      if res.status == NOT_MODIFIED {
        return Pass;
      }
      if !IsSuccess(res.status) {
        return Fail(HttpStatusError(res.status));
      }
      etag := res.etag;
      var parsed := lib.calendarFromIcs(res.text);
      if parsed.None? {
        return Fail(CalendarParseError);
      }
      calendar := Some(Stamped(parsed.value));
      var content := lib.calendarToIcs(calendar.value);
      if content.Err? {
        return Fail(SerializeError(content.error));
      }
      persisted := persisted + [content.value];
      // The host logs a failing update instead of raising it.
      var _ := Update(now);
      outcome := Pass;
    }
  }
}
