# Appointment reminders booking handler, modelled in Dafny

This project models the booking handler of a small appointment-reminder web
app (`makeAppointment` in `app.py`). A customer posts a form with a date,
time, name, treatment and phone number. The handler:

1. converts the local date and time to a UTC instant and derives the
   reminder instant, three hours earlier;
2. rejects the booking when the appointment is less than 3 hours 5 minutes
   ahead of now;
3. looks the phone number (country code prefixed) up with the messaging
   provider and rejects it when it is not mobile, malformed (error code 21)
   or the lookup fails otherwise;
4. asks the provider to schedule one SMS, naming the customer and the
   displayed appointment time, to be sent at the reminder instant (ISO-8601,
   ending in `Z`);
5. appends the appointment to an in-memory list and shows a confirmation page.

Files:

- `time_converter.dfy` (module `TimeConverter`): instants as integer seconds,
  the reminder offset and lead-time constants, Python's datetime range,
  `Reminder`, the `TooSoon` gate, and `IsoZ`, the `+00:00` to `Z` rewrite, with its inverse
  `WithUtcOffset`.
- `booking.dfy` (module `Booking`): the request, outcome and record
  datatypes, the flashed messages, the specification function `Handle` of
  one request, and the class `AppointmentStore` holding the appointment list,
  whose method `MakeAppointment` runs the gates imperatively with early
  returns (and the source's loop over the messaging errors) and is proved
  equal to `Handle` and to keep every record well formed.
- `booking_properties.dfy` (module `BookingProperties`): what the handler
  promises, stated over `Handle`, and over `Replay`, the store after a
  sequence of requests.

The outside world is abstracted as inputs. `Config` carries the country code
and three total functions: local civil time to UTC (the timezone library),
local civil time to the display string (`strftime` with the configured
format), and UTC instant to its `isoformat("T")` string. The clock reading
`now` is a parameter. The answers of the lookup and messaging services are
the input datatypes `LookupOutcome` and `MessageOutcome`. The outbound calls
the handler makes are returned as a list of `Call`s, so "no call was made" can
be stated. An exception that escapes the handler is the response `Unhandled`.

Edge cases of `app.py` that the model keeps:

- A lookup error whose error list is empty makes `e.errors[0]` raise inside
  the `except` clause (app.py:62), so the exception escapes: `Unhandled`.
- A messaging error with an empty error list never enters the loop at
  app.py:90. It falls through to app.py:95, so the bare form is rendered
  without a flashed message and nothing is stored.
- An exception from the messaging call other than the provider's API error is
  not caught (app.py:89), so it escapes: `Unhandled`.
- A Python `datetime` holds only years 1 to 9999. Converting to UTC
  (app.py:39), subtracting the reminder offset (app.py:42) or subtracting the
  lead time (app.py:50) outside that range raises `OverflowError`, which
  escapes before any outbound call: `Unhandled`.
- app.py does not check that the name or treatment are non-empty or that the
  phone is digits only, and neither does the model.

## Model

| member | source | states |
|---|---|---|
| TimeConverter.Reminder | app.py:42 | definition (appointment minus 10800 s); properties in `AcceptedReminderInFuture`, `StoredRecord` and `ReplayKeepsWellFormed` |
| TimeConverter.TooSoon | app.py:50 | definition (appointment minus 11100 s strictly before now); properties in `TooSoonBoundary` and `TooSoonIff` |
| TimeConverter.InDatetimeRangeInterval | app.py:39-50 | the UTC appointment, its reminder and its gate value are all inside Python's datetime range exactly when the appointment lies between year-1 start + 11100 s and the end of year 9999; an appointment exactly 3 h after the start of year 1 has a representable reminder but overflows at the gate |
| TimeConverter.DropLast | app.py:44 | Python's `s[:-n]`: for `1 <= n <= |s|` the result is `n` characters shorter and appending the dropped `n` characters gives `s` back; otherwise (including `n = 0`, where Python's `s[:-0]` is `s[:0]`) it is empty |
| TimeConverter.TooSoonBoundary | app.py:50-52 | rejection for lead time holds exactly when the UTC appointment is less than 11100 s (3h05m) after now; an appointment exactly 3h05m ahead is accepted, one second less is rejected |
| TimeConverter.AcceptedReminderInFuture | app.py:42-50 | for an appointment that passes the gate, the reminder is exactly 10800 s before it and at least 300 s after now |
| TimeConverter.IsoZ | app.py:44 | the scheduled timestamp ends in `Z`; for inputs of six or more characters it is five characters shorter and keeps everything but the last six; shorter inputs give `"Z"`, as Python slicing does |
| TimeConverter.WithUtcOffset | app.py:44 | putting `+00:00` back in place of the trailing `Z` yields a string ending in the UTC offset, five characters longer |
| TimeConverter.IsoZReplacesOffset | app.py:44 | on an `isoformat` string ending in `+00:00`, the rewrite replaces exactly that suffix with `Z` |
| TimeConverter.IsoZRoundTrip | app.py:44 | restoring the offset after the rewrite returns the original string whenever it ended in `+00:00` |
| TimeConverter.IsoZInjective | app.py:44 | two `isoformat` strings ending in `+00:00` with the same rewrite are equal, so the rewrite loses no information |
| Booking.LookupGate | app.py:55-69 | the lookup lets the request through exactly when it found a number whose types include `mobile`; every other answer ends it, never on the confirmation page, and every form it renders carries a flashed message |
| Booking.Handle | app.py:26-95 | the specification of one request: a record is stored exactly when the confirmation page is shown, the stored record's reminder is exactly 3 h before its appointment and inside the datetime range, and at most two outbound calls are made; its gates are stated in the `BookingProperties` lemmas |
| Booking.AppointmentStore.constructor | app.py:22 | the store starts as the empty list |
| Booking.AppointmentStore.MakeAppointment | app.py:26-95 | the response, the outbound calls and the new list are those of `Handle`: the old list plus at most the one record `Handle` stores; every stored record keeps its reminder exactly three hours before its appointment |
| BookingProperties.GetRendersEmptyForm | app.py:29-95 | a request that is not a POST renders the empty form, makes no outbound call and stores nothing |
| BookingProperties.MessagesDistinct | app.py:51-91 | the four fixed rejection messages differ from each other and from every flashed messaging-error description |
| BookingProperties.OutOfRangeEscapes | app.py:39-50 | a submission escapes with no outbound call exactly when its UTC appointment, reminder or gate value leaves the datetime range |
| BookingProperties.TooSoonIff | app.py:50-52 | the lead-time message is shown if and only if the request is a POST whose instants are inside the datetime range and whose UTC appointment minus 3h05m is strictly before now; on that path no lookup or message call is made and nothing is stored |
| BookingProperties.StoredIffConfirmed | app.py:55-92 | a record is stored if and only if the confirmation page is shown, if and only if the instants are inside the datetime range, the lead time holds, the lookup found a number whose types include `mobile` and the message was accepted |
| BookingProperties.StoredRecord | app.py:77-87 | the stored record holds the form's name, treatment and raw phone (without country code), the UTC appointment and a reminder exactly 10800 s earlier and at least 300 s after now, both inside the datetime range; the confirmation echoes name, treatment, raw phone and the displayed local time |
| BookingProperties.LookupClassification | app.py:55-69 | after the range and lead-time checks: a found number without `mobile` gets the not-mobile message, error code 21 first gets the invalid-number message, any other first code or any other exception gets the something-went-wrong message, an empty error list escapes; each of these makes only the lookup call and stores nothing |
| BookingProperties.CallsUseCountryCode | app.py:56-75 | at most two calls are made, lookup first and then the message; both go to country code + raw phone, the sender is `BeautyBird`, and the message is sent only after a lookup that found a mobile number |
| BookingProperties.ScheduledReminder | app.py:42-75 | the message body is the name followed by ", you have an appointment at BeautyBird at " and the displayed local time, and its scheduled send time is the reminder's `isoformat` with `+00:00` replaced by `Z` |
| BookingProperties.MessagingErrorShowsFirst | app.py:89-95 | a messaging API error flashes only the first error's description (`  description : <d>\n`), or nothing when the error list is empty; nothing is stored |
| BookingProperties.FlashesFromFixedSet | app.py:51-91 | every flashed message is one of the four fixed messages or the flash of the first messaging-error description |
| BookingProperties.ReplayAppendOnly | app.py:22-82 | after any sequence of requests the earlier records are unchanged and in place, and exactly one record was appended per confirmed booking |
| BookingProperties.ReplayKeepsWellFormed | app.py:77-82 | after any sequence of requests every record in the store has its reminder exactly three hours before its appointment |

## Left out

- Flask routing, `render_template`, `flash` and form parsing are web I/O. The
  rendered page is the `Response` value, and the form fields arrive already
  parsed. A malformed date or time makes `strptime` raise in the source; that
  path is not modelled.
- The lookup and message-create calls to the messaging provider are network
  calls. Only their outcomes are modelled, as inputs, and the calls themselves
  as the returned `Call` list.
- Timezone localization (including daylight-saving disambiguation), `strftime`
  and `isoformat` are library code. They are the total functions in `Config`,
  about which nothing is assumed.
- `toUtc` is total; localize's own `OverflowError` on the first and last
  representable local day (app.py:38, where the timezone library probes one
  day either side in zones with daylight saving) is not modelled.
- `datetime.utcnow()` is a clock read; `now` is a parameter.
- Instants are whole seconds. The source's clock reading has microseconds;
  `now` stands for that reading rounded up to the next whole second. The
  appointment falls on whole minutes, so the strict `<` at app.py:50 gives
  the same answer on the rounded value.
- Configuration loading and client construction (app.py:9-19) are process
  setup.
- Concurrent requests appending to the shared list from several workers are
  not modelled; the model is sequential.
- The test `'mobile' not in lookup.type` is modelled as membership in a list
  of type names. If the provider returns a single string, Python tests for a
  substring instead; that reading is not modelled.
- The lead time at booking is a property of each request (`StoredRecord`), not
  of the stored record, because the record does not keep the booking instant.
