/**
 * The part of the external `ical` library that the calendar integration relies on.
 * Its internals (recurrence expansion, the timeline, the event store, the ICS codec)
 * are not modelled: each operation is a value of `Library`, an uninterpreted function
 * that may fail, and the model holds for every choice of them.
 */
module Ical {
  import opened Outcomes

  /** A date-time: wall-clock seconds, and the time zone it is aware of (None: floating). */
  datatype DateTime = DateTime(wall: int, zone: Option<string>)

  /** An event bound: a calendar date (a day number) or a date-time. */
  datatype Moment = OnDate(day: int) | AtTime(time: DateTime)

  /** A parsed recurrence rule (`ical.types.Recur`); its structure is the library's. */
  type Recur(==)

  /** The fields of an `ical.event.Event` that the integration reads. */
  datatype EventFields = EventFields(
    summary: string,
    start: Moment,
    end: Moment,
    description: Option<string>,
    uid: string,
    rrule: Option<Recur>,
    recurrenceId: Option<string>,
    location: Option<string>)

  /** An ical Event: its validator never lets one bound be a date and the other a date-time. */
  type Event = e: EventFields | e.start.OnDate? == e.end.OnDate?
    witness EventFields("", OnDate(0), OnDate(0), None, "", None, None, None)

  /** An iCalendar aggregate: its product identifier and its events. */
  datatype Calendar = Calendar(prodid: string, events: seq<Event>)

  /** `ical.types.Range`: which occurrences of a recurring series an edit or delete touches. */
  datatype Range = RangeNone | ThisAndFuture

  /** A value of the dictionary of event fields that the host platform hands over. */
  datatype Field = Text(text: string) | Time(moment: Moment) | Rule(recur: Recur) | Null

  /**
   * The library's operations. A `None` or `Err` result is the library raising:
   * `CalendarParseError` for the parsers and the Event constructor, `EventStoreError`
   * (with its message) for the store, and any exception (with its message) for the
   * serialiser and the timeline query.
   */
  datatype Library = Library(
    recurFromRRule: string -> Option<Recur>,
    recurToRRule: Recur -> string,
    makeEvent: map<string, Field> -> Option<Event>,
    calendarFromIcs: string -> Option<Calendar>,
    calendarToIcs: Calendar -> Result<string, string>,
    overlapping: (Calendar, DateTime, DateTime) -> seq<Event>,
    activeAfter: (Calendar, DateTime) -> Result<Option<Event>, string>,
    add: (Calendar, Event) -> Result<Calendar, string>,
    delete: (Calendar, string, Option<string>, Range) -> Result<Calendar, string>,
    edit: (Calendar, string, Event, Option<string>, Range) -> Result<Calendar, string>)
}
