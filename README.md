# Local calendar and Telegram media cache — a Dafny model

This project models two pieces of a set of Home Assistant custom components.

- **Local calendar** (`local_calendar/calendar.py`): a calendar entity backed by
  iCalendar text. It can be a local file that accepts create, edit and delete, or a
  remote URL refreshed by conditional GET. The model covers four things:
  - how user input is normalised before it reaches the `ical` event store
    (aware date-times become floating local times);
  - how an occurrence's bounds are normalised for display (a non-positive
    date-time duration becomes 30 minutes, a negative all-day duration becomes one day);
  - how the recurrence range is chosen and store errors are wrapped;
  - how the remote entity's state (entity tag, calendar, stored text, next event)
    moves on each HTTP answer.
- **Telegram media source** (`telegram_bot/media_source.py`): a manager that
  downloads files through a bot and keeps the five most recently downloaded files
  in memory. The cache is FIFO, not LRU. The model also covers the translation of a
  media source identifier into download options.

Files:

- `outcomes.dfy`: Option, Result and Outcome.
- `ical.dfy`: the interface of the external `ical` library. Parsing, serialising,
  the timeline and the event store are uninterpreted, possibly failing functions
  held in a `Library` value. Every result is proved for every choice of them.
- `calendar_events.dfy`: `_parse_event`, `_get_calendar_event`, range selection,
  `async_get_events` and the next-event computation.
- `calendar_entities.dfy`: the local and remote calendar entities as classes, and
  the remote refresh as a pure transition `Refresh` with its invariant.
- `telegram_media.dfy`: the `TelegramManager` cache as a class, and the media
  source identifier functions.

Modelling choices:

- A date-time is a wall-clock reading in seconds plus an optional zone name. A date
  is a day number. `dt_util.as_local` is `LocalZone.wallClock`, an uninterpreted map
  to local wall-clock seconds. Its result is aware, in the local zone.
- An ical `Event` is a subset type whose two bounds are either both dates or both
  date-times. The library's validator guarantees this. On mixed bounds, Python's
  `end - start` in `_get_calendar_event` would raise `TypeError`.
- Some constants come from the host platform and `ical`, whose files are not part of
  this model: the dictionary keys `dtstart`, `dtend` and `rrule`, and the string
  value `THISANDFUTURE` of `Range.THIS_AND_FUTURE` (the RANGE parameter of RFC 5545,
  section 3.2.13).
- An exception is an `Err`/`Fail` value. The file store is the field `persisted`,
  which lists every text written, oldest first.
- The code sets the entity tag before it parses the fetched body. So an answer whose
  body does not parse keeps the old calendar under the new tag. `Refresh` states this
  as written.
- `raise_for_status` is taken to fail on every non-2xx status, as current httpx does.
  304 is handled before it is called.

## Model

| member | source | states |
|---|---|---|
| `CalendarEvents.GetCalendarEvent` | local_calendar/calendar.py:264-288 | Bounds end up proper: a date-time event ends strictly after it starts, an all-day event never before. Date-time bounds are localised. A positive duration is kept; a non-positive one becomes exactly 30 minutes. All-day bounds are kept unless the end is before the start, in which case the end becomes start plus one day, so a zero-length all-day event stays zero-length. Summary, description, uid, recurrence id and location carry over. rrule is None exactly when the event has no rule. |
| `CalendarEvents.GetEvents` | local_calendar/calendar.py:93-101 | One event per overlapping occurrence, in the timeline's order. Each element is `GetCalendarEvent` of its occurrence, so it has proper bounds and the occurrence's uid and recurrence id. |
| `CalendarEvents.NextEvent` | local_calendar/calendar.py:103-110 | Fails exactly when the timeline query raises, with its message. Otherwise None exactly when nothing is active after now, else `GetCalendarEvent` of the first active occurrence, which has proper bounds and its uid and recurrence id. |
| `CalendarEvents.SelectRange` | local_calendar/calendar.py:199-201 | The range is this-and-future exactly when the request is the string THISANDFUTURE. Every other value, None included, gives NONE. |
| `CalendarEvents.Floating` | local_calendar/calendar.py:249-255 | A bound is never aware after normalisation. Dates and naive date-times are unchanged. An aware date-time becomes its local wall-clock reading. |
| `CalendarEvents.ConvertRule` | local_calendar/calendar.py:240-241 | A non-empty rrule text is replaced by `Recur.from_rrule` of it. The step fails exactly when that parse fails, and also fails for a truthy non-text value. An absent or falsy rrule leaves the dictionary as it is. Every other field is untouched. |
| `CalendarEvents.FloatBounds` | local_calendar/calendar.py:249-255 | After the loop, each bound is `Floating` of its old value, so neither is aware. Other keys and non-aware values are unchanged. |
| `CalendarEvents.ParsedEvent` | local_calendar/calendar.py:238-261 | Errors are checked in order: rejected rrule, missing start, missing end. When both bounds are present, the result is the Event the constructor builds from the dictionary with floating bounds. If the constructor fails, the result is the invalid-input error. |
| `CalendarEvents.ParseEvent` | local_calendar/calendar.py:238-261 | The loop returns the `ParsedEvent` result and leaves the dictionary with exactly the bounds it reached made floating. A missing end leaves the start already converted. |
| `CalendarEntities.LoadCalendar` | local_calendar/calendar.py:58-62 | Setup parses the stored text, raising on a parse error. The calendar gets this integration's product identifier and keeps the parsed events. |
| `CalendarEntities.Refreshed` | local_calendar/calendar.py:103-110 | The event shown after the host's forced refresh: the next active event when the timeline query works, the previously shown event when it raises. |
| `CalendarEntities.Committed` | local_calendar/calendar.py:112-115 | After a store operation the new calendar is in force in every case. The commit fails exactly when serialisation raises, with its message; the stored texts and the event are then unchanged. Otherwise the serialisation is appended and the event is `Refreshed`. |
| `CalendarEntities.CommittedStoresCalendar` | local_calendar/calendar.py:112-115 | A commit never drops stored text. It succeeds exactly when the last stored text afterwards is the serialisation of the calendar in force. |
| `CalendarEntities.LocalCalendarEntity.constructor` | local_calendar/calendar.py:74-86 | The entity starts with the given calendar, no event and nothing stored. |
| `CalendarEntities.LocalCalendarEntity.Update` | local_calendar/calendar.py:103-110 | When the timeline query raises, the update fails with its message and the shown event stays. Otherwise the shown event becomes the next active event of the calendar. |
| `CalendarEntities.LocalCalendarEntity.Store` | local_calendar/calendar.py:112-115 | When serialisation raises, fails with its message and writes nothing. Otherwise appends the serialised calendar to the stored texts. |
| `CalendarEntities.LocalCalendarEntity.Commit` | local_calendar/calendar.py:210-211 | The new state and outcome are exactly `Committed` of the old state: the calendar is in force, then stored if it serialises, then the event is refreshed with a timeline failure logged, not raised. |
| `CalendarEntities.LocalCalendarEntity.CreateEvent` | local_calendar/calendar.py:185-190 | A parse error or store error is raised unwrapped, and calendar, event and stored texts stay unchanged. When the add succeeds, the new state and outcome are `Committed` of the added calendar, so a serialisation error raises with the new calendar in force but unstored. |
| `CalendarEntities.LocalCalendarEntity.DeleteEvent` | local_calendar/calendar.py:192-211 | The delete sees the selected range. A store error is raised as "Error while deleting event: " plus the message, with nothing changed or stored. A successful delete gives `Committed` of the new calendar. |
| `CalendarEntities.LocalCalendarEntity.UpdateEvent` | local_calendar/calendar.py:213-235 | The fields are parsed first, and a parse error changes nothing. The edit sees the selected range. A store error is raised as "Error while updating event: " plus the message, with nothing changed. A successful edit gives `Committed` of the new calendar. |
| `CalendarEntities.RequestHeaders` | local_calendar/calendar.py:135-137 | If-None-Match is present exactly when a non-empty entity tag is held, and carries that tag. No other header is present. |
| `CalendarEntities.Refresh` | local_calendar/calendar.py:134-151 | No answer, or an error status, leaves the whole state unchanged. 304 leaves it unchanged and succeeds. A 2xx answer sets the tag to the answer's ETag (possibly None). Then either the parse fails and nothing else changes, or the tagged calendar replaces the old one. If that calendar fails to serialise, the refresh fails with its message and nothing is stored; otherwise its serialisation is stored and the event is `Refreshed`. |
| `CalendarEntities.RefreshPreservesConsistent` | local_calendar/calendar.py:139-150 | Any answer keeps the invariant: a calendar in force is tagged, and an event is only shown once there is a calendar. Stored texts are never dropped. |
| `CalendarEntities.RefreshKeepsStored` | local_calendar/calendar.py:142-150 | From a state whose calendar in force is the one last stored, a refresh keeps that property exactly when it does not fail with a serialisation error. |
| `CalendarEntities.RefreshThenNotModified` | local_calendar/calendar.py:135-140 | After a successful refresh that got a non-empty ETag, the next request is conditional on that tag, and a 304 answer to it changes nothing. |
| `CalendarEntities.ParseFailureThenNotModifiedKeepsStale` | local_calendar/calendar.py:135-145 | A 2xx answer with a non-empty ETag and an unparsable body fails, keeps calendar, stored texts and event, but takes the tag. The next request is conditional on that tag, and a 304 answer to it keeps the old calendar in force. |
| `CalendarEntities.RemoteCalendarEntity.constructor` | local_calendar/calendar.py:121-132 | The remote entity starts with no tag, no calendar, nothing stored and no event. This state is consistent and stored. |
| `CalendarEntities.RemoteCalendarEntity.Update` | local_calendar/calendar.py:168-173 | Before a calendar is fetched nothing changes and nothing fails. Afterwards it is the local update: a raising timeline query fails and keeps the event, otherwise the event becomes the next active one. |
| `CalendarEntities.RemoteCalendarEntity.GetEvents` | local_calendar/calendar.py:93-101 | Fails exactly while no calendar has been fetched. Otherwise gives the displayed overlapping events. |
| `CalendarEntities.RemoteCalendarEntity.FetchCalendarAndUpdate` | local_calendar/calendar.py:134-151 | The new state and outcome are `Refresh` applied to the answer to the headers built from the old tag. The invariant is kept. A stored state stays stored exactly when the outcome is not a serialisation error. |
| `TelegramMedia.LatestAppend` | telegram_bot/media_source.py:78-82 | The window of the last five downloads, after one more: a full window drops its oldest id, then the new id is appended. |
| `TelegramMedia.OldestEvicted` | telegram_bot/media_source.py:78-82 | When a full, duplicate-free cache takes a new id, exactly the oldest id disappears, the other four stay, and the ids stay distinct. |
| `TelegramMedia.TelegramManager.constructor` | telegram_bot/media_source.py:56-61 | The cache starts empty, with the given bots, and is valid: at most five entries, distinct, map keys equal to the order. |
| `TelegramMedia.TelegramManager.DownloadFileId` | telegram_bot/media_source.py:74-84 | An unknown bot or a failed download changes nothing. Otherwise a full cache first loses exactly its oldest entry. The id then becomes newest, mapping to (mime type, data), and the rest of the order is kept. The invariant holds, including that the order is the last five downloads. |
| `TelegramMedia.TelegramManager.GetUrl` | telegram_bot/media_source.py:63-72 | A hit downloads nothing and changes neither map nor order, so recency is not refreshed. A miss succeeds exactly when the bot is known and the download works. A failed miss changes nothing and returns the raw error: an unknown bot before any download, otherwise the failed download. A successful miss evicts exactly the oldest entry of a full cache, keeps every other pair, and caches the file as newest. On success the URL is base plus /api/telegram_proxy/ plus the file id. |
| `TelegramMedia.TelegramManager.ReadTelegramFile` | telegram_bot/media_source.py:86-92 | Gives the stored pair for a cached name, or Unresolvable for an uncached one. It modifies nothing. |
| `TelegramMedia.LastSegment` | telegram_bot/media_source.py:126 | The path's last segment: a slash-free suffix of the path that is either the whole path or preceded by '/'. |
| `TelegramMedia.GenerateMediaSourceId` | telegram_bot/media_source.py:100-116 | The identifier has the file id as path and exactly the mime_type and bot_name query fields. |
| `TelegramMedia.MediaSourceIdToKwargs` | telegram_bot/media_source.py:119-132 | Succeeds exactly when both mime_type and bot_name are in the query, giving the path's last segment and the two values. A missing mime_type is reported first, then a missing bot_name. |
| `TelegramMedia.KwargsRoundTrip` | telegram_bot/media_source.py:100-132 | For a file id without '/', a generated identifier resolves back to its file id, mime type and bot name. |

## Left out

- The `ical` library's recurrence expansion, timeline, event store and ICS codec. They are abstract, possibly failing functions. The model assumes that a failing `EventStore` operation leaves the calendar as it was.
- Timezone rules. `dt_util.as_local` is uninterpreted, and `dt_util.now()` is the parameter `now`.
- HTTP transport, the Telegram bot API, aiohttp's `TelegramView`, `get_url`, and yarl's URL encoding and decoding. A response is (status, ETag, text), a download is a function to optional bytes, and a parsed media identifier is a path plus a query map. The `media-source://` prefix is not modelled.
- Home Assistant lifecycle and scheduling: `async_setup_entry` beyond parsing and tagging the calendar, `async_added_to_hass`, the six-hour timer, `async_will_remove_from_hass`, `hass.data` and executor jobs. `async_update_ha_state(force_refresh=True)` is modelled as a call of the entity's update whose failure the host logs and does not raise (`CalendarEntities.Refreshed`). The host platform's entity code is not part of this model.
- Failure of the file store's write (`async_store`). Every write is taken to succeed. Failure of the serialiser before the write is modelled.
- `CalendarEvents.GetEvents`: the timeline's `overlapping` query is taken not to raise. A raising query would propagate unchanged out of `async_get_events`, which changes no state.
- `local_calendar/config_flow.py` and `local_calendar/const.py`. The config flow and the storage module are not part of this model.
- Concurrent `async_get_url` calls, which could download twice and insert a key twice. The cache is modelled sequentially. `DownloadFileId` requires a miss, which is what its only caller checks.
- Registration of bots in `TelegramManager.bots`, which happens in the integration's setup outside this file. The constructor takes the bots.
- `TelegramMedia.KeyErrorText`: the model always writes the key between single quotes, unescaped. It differs from Python's `repr` for any key that `repr` would escape or quote differently: a key holding a quote, a backslash or a non-printable character.
- `CalendarEvents.Elapsed`: it subtracts wall-clock readings, which matches Python only for two date-times in the same zone. That is the only case `_get_calendar_event` produces.
- The in-place mutation of ical's calendar by the event store, and the caller-visible mutation of the event dictionary. The model uses values instead (`ParseEvent` returns the dictionary as it leaves it).
