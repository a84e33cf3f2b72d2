# Elite Barber Shop: availability engine and service rules in Dafny

This project models the rules of the Elite Barber Shop booking application and proves properties
about them. The application is a JavaScript front end with an Express back end. The centre is the
client-side appointment availability engine (`CalendarService`), which covers:

- time parsing and formatting;
- the half-open overlap test;
- working hours with breaks, and holidays;
- availability checks;
- 30-minute slot generation;
- booking, cancelling and rescheduling, which keep the list of appointments free of double bookings.

Around it the model covers:

- the back end's appointment handlers: the free-slot loop over `"HH:MM"` strings, exact-time
  conflicts, the status whitelist and the cancellation rules;
- the request validators for times, dates, ratings and durations;
- the authentication middleware: bearer token, roles, owner-or-admin;
- the error-to-response table;
- the payment service: card brands, payment methods and the single default, validation,
  refunds, transaction history;
- the notification service: a bounded list with the newest first, read flags, type lookups and
  base64 padding;
- the analytics service: the enable switch, the capped local store, top events, time spent and
  one-shot milestones;
- the static client application: password scoring and the strength meter, registration, the
  seven-day saved login, notification badges and booking confirmation;
- the single-file copy of the application: permissions and its registration handlers;
- the client authentication service: offline login and registration, the 24-hour session,
  roles and profile merges.

Inputs the code reads from its surroundings become parameters: the day of the week, the clock,
generated ids, database rows and `localStorage` entries. Modules follow the source files:

| module | models |
|---|---|
| `Calendar` | `public/js/services/CalendarService.js`, and the conflict, working-hours, availability and slot checks of its copy in `public/app-backup.js` |
| `AppointmentApi` | `controllers/appointmentController.js` |
| `RequestValidation` | `middleware/validation.js` |
| `AccessControl` | `middleware/auth.js` |
| `ErrorResponses` | `middleware/errorHandler.js` |
| `Payments` | `public/js/services/PaymentService.js`, and the transaction history of `public/app-backup.js` |
| `Notifications` | `public/js/services/NotificationService.js` and its copy in `public/app-backup.js` |
| `Analytics` | `public/js/services/AnalyticsService.js` |
| `ClientApp` | `public/app.js` |
| `BackupApp` | the permission and registration code of `public/app-backup.js` |
| `ClientAuth` | `public/js/services/AuthService.js` |
| `Strings`, `Sorting`, `Sequences`, `Wrappers` | shared JavaScript string operations, the stable descending `sort`, `findIndex`/`find` and `filter(...).length` over a list, and `Option`/`Result` |

## Model

| member | source | states |
|---|---|---|
| Calendar.TimeRoundTrip | public/js/services/CalendarService.js:589-598 | parsing a formatted minute count gives that count back, for every count |
| Calendar.FormatTime | public/js/services/CalendarService.js:594-598 | formatting a time below 100 hours gives a zero-padded `HH:MM` |
| Calendar.FormatTimeFields | public/js/services/CalendarService.js:594-598 | the hour field spells `m / 60` and the minute field spells `m % 60`, each at least two digits |
| Calendar.PaddedTimeParses | public/js/services/CalendarService.js:589-592 | a zero-padded `HH:MM` parses to hours times 60 plus minutes |
| Calendar.FieldNumber | public/js/services/CalendarService.js:589-592 | a field of decimal digits reads as its value, the empty field as 0; no other field is read as a number (narrower than `Number`, see Left out) |
| Calendar.ConflictIffSharedMinute | public/js/services/CalendarService.js:566-573 | two bookings of positive length conflict iff some minute lies in both; the copy's conflict test is the same half-open overlap (public/app-backup.js:2451-2458) |
| Calendar.ConflictSymmetric | public/js/services/CalendarService.js:566-573 | the conflict test is symmetric |
| Calendar.BackToBackDoesNotConflict | public/js/services/CalendarService.js:566-573 | a booking that starts when another ends does not conflict with it, in either order |
| Calendar.WithinWorkingHoursMeans | public/js/services/CalendarService.js:542-564 | inside working hours iff the day is open, the booking starts at or after opening and ends at or before closing, and no minute of it lies in a break; the copy applies the same rule (public/app-backup.js:2429-2449) |
| Calendar.Conflicting | public/js/services/CalendarService.js:251-256 | the filtered list holds exactly the appointments that block the slot: same barber and date, not cancelled, overlapping |
| Calendar.CheckAvailabilityMeans | public/js/services/CalendarService.js:238-258 | available iff not a holiday, within working hours, and no appointment blocks the slot; the copy's availability check is the same (public/app-backup.js:2227-2250) |
| Calendar.HolidayNeverAvailable | public/js/services/CalendarService.js:538-540 | a date listed as a holiday (exact string match) is never available |
| Calendar.NonBlockingIsIgnored | public/js/services/CalendarService.js:251-256 | adding a cancelled booking, or one for another barber or date, does not change availability |
| Calendar.AvailableSlotsMeans | public/js/services/CalendarService.js:269-314 | no slots on a closed day or holiday; otherwise the slots are in ascending order, and a slot is listed iff it is a 30-minute start on the grid from opening, before closing, outside breaks and available; the copy generates the same slots (public/app-backup.js:2252-2301) |
| Calendar.SlotsFromMembership | public/js/services/CalendarService.js:284-308 | from a cursor, a slot is generated iff it lies on the cursor's 30-minute grid before closing, outside breaks and available |
| Calendar.SlotsAvoidBreaks | public/js/services/CalendarService.js:288-294 | with well-formed breaks, a listed slot ends by closing time and no minute of it lies in a break |
| Calendar.DefaultMondayExample | public/js/services/CalendarService.js:8-25 | with the default hours, Monday offers 08:00, 11:30 and 17:30, the 12:00 lunch slot is not offered, and Sunday offers nothing |
| Calendar.CalendarService.GetAvailableSlots | public/js/services/CalendarService.js:269-314 | the loop returns exactly the slot list characterised by `AvailableSlotsMeans` |
| Calendar.BookingKeepsNoDoubleBooking | public/js/services/CalendarService.js:104-146 | appending a booking that passed the availability check keeps the list free of double bookings |
| Calendar.CalendarService.BookAppointment | public/js/services/CalendarService.js:104-146 | invalid data is refused with its message and nothing changes; otherwise exactly one confirmed appointment, with the caller's id when it gives one, is appended iff the slot is available, else `Horário não disponível`; no double booking is introduced and stored times stay parsable |
| Calendar.CancelKeepsNoDoubleBooking | public/js/services/CalendarService.js:151-180 | cancelling keeps the list free of double bookings |
| Calendar.CalendarService.CancelAppointment | public/js/services/CalendarService.js:151-180 | an unknown id is refused; otherwise only the first matching record changes, to cancelled with its reason |
| Calendar.Moved | public/js/services/CalendarService.js:204-210 | a moved appointment keeps its identity, takes the new date and time, is confirmed, and records the old date and time |
| Calendar.RescheduleKeepsNoDoubleBooking | public/js/services/CalendarService.js:185-215 | moving an appointment to a slot that passed the check keeps the list free of double bookings |
| Calendar.RescheduleBlockedBySelf | public/js/services/CalendarService.js:193-198 | moving an active appointment to an overlapping time on its own date is always refused, because the check still sees the appointment itself |
| Calendar.CalendarService.RescheduleAppointment | public/js/services/CalendarService.js:185-215 | an unknown id is refused; an unavailable slot is refused with nothing changed; otherwise exactly that record is moved, whatever the shape of the new time |
| Calendar.UnparsableTimeAvailable | public/js/services/CalendarService.js:238-258 | a time such as `abc` does not parse, and the availability check then passes on every open non-holiday day whatever is booked, so a reschedule stores a time no conflict test sees |
| Calendar.CalendarService.CorrectedRescheduleAppointment | public/js/services/CalendarService.js:185-215 | with the `HH:MM` check of booking: a malformed time is refused with nothing changed, otherwise the reschedule as written; no double booking is introduced and stored times stay parsable |
| Calendar.FindIndex | public/js/services/CalendarService.js:153 | the index is the first record with the id, or none has it |
| Calendar.MissingFields | public/js/services/CalendarService.js:514-521 | the missing list holds exactly the required fields whose value is falsy, in the order barberId, customerId, date, time, duration, serviceId |
| Calendar.NothingMissing | public/js/services/CalendarService.js:514-521 | no field is missing iff all six are non-empty and the duration is non-zero |
| Calendar.ValidateAppointmentData | public/js/services/CalendarService.js:513-536 | data passes iff no field is missing, the date has the `YYYY-MM-DD` shape, the time the `HH:MM` shape, and the date and time are after `now` (an instant that does not parse is not refused); each failure gives its own message, in that order; passing data has a parsable time |
| Calendar.CountStatus | public/js/services/CalendarService.js:489-495 | a status count is at most the total, and zero iff no appointment has that status |
| Calendar.StatusCountsBounded | public/js/services/CalendarService.js:489-495 | confirmed, completed and cancelled counts add up to at most the total |
| AppointmentApi.GenerateSlots | controllers/appointmentController.js:417-434 | the `"HH:MM"` loop yields cursor strings whose minute values are exactly the free 30-minute grid below the end |
| AppointmentApi.AddHalfHour | controllers/appointmentController.js:428-432 | the next cursor is a zero-padded `HH:MM` thirty minutes later |
| AppointmentApi.LexLessCursor | controllers/appointmentController.js:422 | string `<` on zero-padded cursors orders them by their minute value |
| AppointmentApi.CursorIsFormatted | controllers/appointmentController.js:428-432 | a cursor is the formatting of its own value |
| AppointmentApi.CursorBooked | controllers/appointmentController.js:423 | `bookedTimes.includes(cursor)` holds iff some booked string spells that minute in the padded form |
| AppointmentApi.FreeMinutesMeans | controllers/appointmentController.js:417-434 | a minute is free iff it is on the grid from the start, below the end, and not spelled by a booked string |
| AppointmentApi.FreeMinutesIncreasing | controllers/appointmentController.js:417-434 | the free minutes are strictly increasing |
| AppointmentApi.SlotsMeans | controllers/appointmentController.js:417-434 | a string is a slot iff it is a padded cursor on the grid, below the end as a string, and not exactly a booked string; slots are in ascending string order |
| AppointmentApi.CursorsDetermined | controllers/appointmentController.js:417-434 | two cursor lists with the same values are equal, so the slot strings are fixed by their minute values |
| AppointmentApi.BookedTimes | controllers/appointmentController.js:403-409 | the booked times are exactly the times of live (not cancelled) rows of that barber and date |
| AppointmentApi.GetBarberAvailability | controllers/appointmentController.js:363-434 | a missing date gives 400, an unknown barber 404, an unavailable barber no slots; a `working_hours` column handed over as a decoded object makes `JSON.parse` throw a `SyntaxError`, answered with 500 whatever the date; otherwise every valid date makes the day-name lookup with `weekday: 'lowercase'` throw a `RangeError`, answered with 500; only an invalid date reaches the slot loop, under the key `Invalid Date` |
| AppointmentApi.LocaleWeekday | controllers/appointmentController.js:413 | an invalid date gives `Invalid Date`; a valid one gives its name in the long, short and narrow styles, and a `RangeError` naming the style for any other style |
| AppointmentApi.DayKey | controllers/appointmentController.js:413-417 | the key of a weekday is its long English name in lower case, as the stored templates spell it |
| AppointmentApi.DaySlots | controllers/appointmentController.js:415-427 | no slots without an open entry for the key; otherwise formatted cursors whose values are exactly the free minutes of the entry |
| AppointmentApi.CorrectedGetBarberAvailability | controllers/appointmentController.js:363-434 | with the column read as text or as a decoded object alike, and the day name in the long style, lower-cased: the slots are the free 30-minute grid of the date's own template entry, or none for a missing or closed day |
| AppointmentApi.ParseHours | controllers/appointmentController.js:412 | `NULL` gives the empty template and text its decoded template; a decoded object is a `SyntaxError` |
| AppointmentApi.ColumnHours | controllers/barberController.js:134-138 | the barber listing's reading of the same column: text and an object both give the template, `NULL` none |
| AppointmentApi.UnpaddedEndNeverReached | controllers/appointmentController.js:423-432 | every cursor the loop can form is below `"9:00"` by string `<`, so with that end the loop never stops |
| AppointmentApi.CorrectedGenerateSlots | controllers/appointmentController.js:423-432 | comparing the cursor with the end as minutes, the loop stops for any end of the day, padded or not, and yields exactly the free grid minutes below it |
| AppointmentApi.CreateAppointment | controllers/appointmentController.js:7-95 | invalid input gives 400, an unknown barber 404; 409 iff a live appointment has the same barber and date and the same time of day, compared as times (`14:00:00` equals `14:00`); otherwise 201 with status `agendado` and the service price |
| AppointmentApi.CreateIgnoresOverlap | controllers/appointmentController.js:57-71 | a 14:30 request beside a live 14:00 booking is accepted: the conflict rule is equal times, not overlap |
| AppointmentApi.CreateComparesTimes | controllers/appointmentController.js:57-71 | a live row stored as `14:00:00` blocks a request for `14:00`, and one at `09:30:00` a request for `9:30` |
| AppointmentApi.TimeOfDay | controllers/appointmentController.js:57-61 | `[H]H:MM` reads as its hours and minutes in seconds and `[H]H:MM:SS` adds the seconds; no other text is a time |
| AppointmentApi.UpdateAppointmentStatus | controllers/appointmentController.js:249-299 | a status outside the five allowed gives 400; success iff the status is allowed and the appointment is found (a barber only their own), changing only that status |
| AppointmentApi.FindRow | controllers/appointmentController.js:310-327 | the row found has the id and belongs to the client or barber asking; when none is found, every row with the id belongs to someone else |
| AppointmentApi.CancelAppointment | controllers/appointmentController.js:301-361 | not found gives 404; already cancelled or completed gives 400 with its message; otherwise 200 and the status becomes `cancelado` |
| AppointmentApi.CancelIsNotRepeatable | controllers/appointmentController.js:330-348 | a second cancellation of the same appointment answers `Agendamento já foi cancelado` |
| AppointmentApi.SecondsKeepBookedSlot | controllers/appointmentController.js:409-426 | a booking stored as "14:00:00" leaves 14:00 among the free slots |
| AppointmentApi.CorrectedFreeMinutesMeans | controllers/appointmentController.js:409-426 | with booked times cut to `HH:MM`, a minute is free iff it is on the grid, below the end and no booking is at that minute |
| AppointmentApi.CorrectedRemovesSecondsBooking | controllers/appointmentController.js:409-426 | with the correction, a booking stored as "14:00:00" removes the 14:00 slot |
| AppointmentApi.TrimmedSpells | controllers/appointmentController.js:409 | cutting `HH:MM:SS` values to five characters spells exactly the booked minutes |
| RequestValidation.TimeErrors | middleware/validation.js:113-129 | at most two messages; the first is the format message iff the pattern fails; the custom check, reading the fields with `Number`, adds the range or the interval message |
| RequestValidation.NumberOf | middleware/validation.js:117 | a string of decimal digits reads as its value |
| RequestValidation.NegativeHourReportsBoth | middleware/validation.js:113-129 | `-1:00` fails the pattern and, at -60 minutes, the range check: both messages |
| RequestValidation.DecimalHourReportsBoth | middleware/validation.js:113-129 | `7.5:00` fails the pattern and, at 450 minutes, the range check: both messages |
| RequestValidation.TimeFieldErrors | middleware/validation.js:113-129 | an absent value gives the format message and the `TypeError` of `undefined.split`; a JSON number without a colon the format message and `value.split is not a function`; a string the messages of `TimeErrors` |
| RequestValidation.PatternFields | middleware/validation.js:114 | a time matching the pattern has hours 0-23 and minutes 00-59 and parses to their sum |
| RequestValidation.CustomCheckOfPattern | middleware/validation.js:116-129 | for a pattern-matching time, the range message is given iff it is outside 08:00-18:00, else the interval message iff minutes are not a multiple of 30 |
| RequestValidation.AcceptedTimes | middleware/validation.js:113-129 | a time is accepted iff it matches the pattern and is a half hour between 08:00 and 18:00 inclusive |
| RequestValidation.OutOfHoursReportsRange | middleware/validation.js:117-123 | an out-of-hours time reports only the range message |
| RequestValidation.FormattedHalfHourAccepted | middleware/validation.js:113-129 | every opening half hour, formatted, is accepted |
| RequestValidation.FormattedMatchesPattern | middleware/validation.js:114 | every time of day, zero-padded as the client formats it, matches the `HH:MM` pattern |
| RequestValidation.NoColonReportsBoth | middleware/validation.js:113-129 | a time without a colon gets both the format and the interval message |
| RequestValidation.DateErrors | middleware/validation.js:93-111 | a date is accepted iff it is ISO and either unparsable or later than now and not a Sunday; the last message names the failed rule |
| RequestValidation.RatingErrors | middleware/validation.js:205-207 | a rating is accepted iff it is an integer from 1 to 5 |
| RequestValidation.DurationErrors | middleware/validation.js:155-157 | a duration is accepted iff it is an integer from 15 to 240 |
| RequestValidation.SpellingAccepted | middleware/validation.js:155-157 | every spelling of an in-range integer, with leading zeros or a plus sign, is accepted |
| RequestValidation.AcceptedIsSpelling | middleware/validation.js:155-157 | every accepted string is such a spelling of its value |
| AccessControl.BearerToken | middleware/auth.js:8-9 | the token is a non-empty word without spaces, and there is none without a header |
| AccessControl.BearerRoundTrip | middleware/auth.js:8-9 | the second word of `scheme token [more]` is `token` |
| AccessControl.SingleWordHasNoToken | middleware/auth.js:9-16 | a one-word header yields no token |
| AccessControl.Authenticate | middleware/auth.js:6-49 | no token gives 401; the request passes iff the token verifies to the id of a known user, who becomes the request's user; every refusal is 401 or 403 |
| AccessControl.Authorize | middleware/auth.js:54-68 | no user gives 401; a type outside the list gives 403; it passes iff the user's type is listed |
| AccessControl.AuthorizeMonotone | middleware/auth.js:61-68 | allowing more roles never refuses a user allowed before |
| AccessControl.AuthorizeOwnerOrAdmin | middleware/auth.js:73-85 | passes iff the user is an administrator or `parseInt` of the id equals the user's id; otherwise 403 |
| AccessControl.ParseInt | middleware/auth.js:74 | a number iff, after white space and an optional sign, `0x` or `0X` is followed by a hexadecimal digit or the text starts with a decimal digit; a negative result needs a leading minus |
| AccessControl.HexPathReachesUser | middleware/auth.js:73-85 | the path id `0x10` reads as 16 and reaches user 16 |
| AccessControl.OwnerReachesOwnRecord | middleware/auth.js:73-85 | a user reaches their own record, even with a non-digit suffix on the id (other than `x` after the id 0) |
| AccessControl.OthersRecordDenied | middleware/auth.js:73-85 | a non-administrator is refused another user's record |
| AccessControl.NonNumericIdOnlyAdmin | middleware/auth.js:73-85 | an id that does not start with a number is reachable only by administrators |
| AccessControl.ParseIntOfSpelling | middleware/auth.js:74 | `parseInt` of a decimal spelling followed by a non-digit gives its value, except `0` followed by `x` or `X`, which starts a hexadecimal number |
| ErrorResponses.HandlerFollowsTable | middleware/errorHandler.js:4-61 | a recognised name decides the response; otherwise a recognised code; otherwise the error's own status (500 when absent) and message (a default when empty) |
| ErrorResponses.RecognisedStatuses | middleware/errorHandler.js:12-56 | every recognised error maps to 400, 401, 404, 409, 500 or 503 |
| ErrorResponses.NameOutranksCode | middleware/errorHandler.js:12-56 | a later check overrides an earlier one: a duplicate-entry code with an expired-token name answers 401 |
| ErrorResponses.EmptyValidationError | middleware/errorHandler.js:47-50 | a validation error with no field messages answers 400 with the default message |
| ErrorResponses.HandleError | middleware/errorHandler.js:4-61 | every response has a status and a non-empty message |
| ErrorResponses.NotFound | middleware/errorHandler.js:66-74 | always 404 `Rota não encontrada` |
| Payments.DetectCardBrand | public/js/services/PaymentService.js:536-552 | the loop returns the first brand, in the listed order, whose pattern matches, or `unknown` |
| Payments.FirstBrandFrom | public/js/services/PaymentService.js:536-552 | `unknown` iff no brand matches; otherwise the earliest matching brand |
| Payments.EloShadowedByVisa | public/js/services/PaymentService.js:538-549 | a number starting `4011` is reported as visa although it is an Elo prefix |
| Payments.EloReachable | public/js/services/PaymentService.js:538-549 | a number starting `6362` is reported as elo |
| Payments.NewMethod | public/js/services/PaymentService.js:281-300 | a new method is default iff the input says so or, without that, the list was empty; a card keeps only its last four digits and brand, and no number or cvv |
| Payments.Last4 | public/js/services/PaymentService.js:294 | the last four characters of the number, or all of a shorter one |
| Payments.AddKeepsSingleDefault | public/js/services/PaymentService.js:283-289 | adding with the automatic flag keeps at most one default |
| Payments.InputDefaultMakesTwo | public/js/services/PaymentService.js:283-289 | an input `isDefault: true` added beside an existing default gives two defaults |
| Payments.PaymentService.AddPaymentMethod | public/js/services/PaymentService.js:281-309 | a card without a number fails and changes nothing; otherwise exactly the new method is appended; without an input flag at most one default is kept |
| Payments.AfterRemoval | public/js/services/PaymentService.js:314-329 | the list without the removed entry, the others in their order; when the removed entry was the default, the new first entry becomes the default |
| Payments.RemovalKeepsDefault | public/js/services/PaymentService.js:314-329 | removal keeps at most one default, and a list that had a default and is not emptied still has one |
| Payments.PaymentService.RemovePaymentMethod | public/js/services/PaymentService.js:314-335 | an unknown id fails with nothing changed; otherwise exactly that entry is removed and the first remaining one is promoted if it was the default |
| Payments.WithDefault | public/js/services/PaymentService.js:340-345 | every entry keeps all its other fields and is default iff its id is the chosen one |
| Payments.WithDefaultMeans | public/js/services/PaymentService.js:340-345 | with unique ids at most one entry is default; none for an unknown id, else the chosen one |
| Payments.PaymentService.SetDefaultPaymentMethod | public/js/services/PaymentService.js:340-354 | the list becomes the re-flagged list |
| Payments.PaymentService.GetDefaultPaymentMethod | public/js/services/PaymentService.js:366-368 | the first default entry, or none iff no entry is default |
| Payments.DefaultMethod | public/js/services/PaymentService.js:366-368 | the first default entry, or none iff no entry is default |
| Payments.ValidatePaymentData | public/js/services/PaymentService.js:572-592 | each message appears iff its check fails (an unsupported method; for cards a number under 13 characters, a missing expiry part, a cvv under 3), no other message appears, and they come in the order of the checks |
| Payments.RefundAmount | public/js/services/PaymentService.js:411-420 | the refund is the full amount or the requested one; a requested amount within the transaction's gives a refund within it; it is zero only for a zero transaction |
| Payments.FindTransaction | public/js/services/PaymentService.js:411-414 | the first transaction with the id, or none has it |
| Payments.PaymentService.ProcessRefund | public/js/services/PaymentService.js:409-454 | an unknown transaction or a refund above its amount fails with nothing changed; otherwise exactly one completed refund transaction is appended |
| Payments.TransactionHistoryMeans | public/js/services/PaymentService.js:459-479 | the history holds exactly the transactions passing every given filter, each exactly as often as stored, newest first; the copy's history has the same contents and order (public/app-backup.js:2047-2067) |
| Payments.TransactionHistoryStable | public/js/services/PaymentService.js:478 | transactions with equal times keep their stored order |
| Payments.PaymentService.GetTransactionHistory | public/js/services/PaymentService.js:459-479 | the method returns the passing transactions, each exactly as often as stored, newest first, and leaves the stored list as it was; it returns `TransactionHistory`, so equal times keep their stored order (`TransactionHistoryStable`) |
| Payments.Filter | public/js/services/PaymentService.js:462-476 | a filtered copy holds each passing element exactly as often as the input does, and no other element |
| Notifications.Pushed | public/js/services/NotificationService.js:57-63 | the new notification is first; on overflow exactly the oldest entry is dropped; a list within the limit stays within it; the copy pushes the same way (public/app-backup.js:1354-1359) |
| Notifications.NotificationService.Show | public/js/services/NotificationService.js:46-75 | the list becomes the pushed list, with the duration defaulting to 5000 and persistence off unless asked |
| Notifications.NotificationService.constructor | public/js/services/NotificationService.js:8-17 | the service starts empty with a limit of 5 |
| Notifications.NotificationService.WithOptions | public/app-backup.js:1290-1296 | the copy's limit is the option when given and non-zero, else 50 |
| Notifications.DurationOf | public/js/services/NotificationService.js:52 | the result is the given duration or the default; a non-zero given duration wins; it is never 0 when the default is positive |
| Notifications.NotificationService.Error | public/js/services/NotificationService.js:216-218 | the list becomes the old one with the error notification (duration 8000) pushed in front, the oldest dropped when over the bound |
| Notifications.NotificationService.Loading | public/js/services/NotificationService.js:237-239 | the list becomes the old one with the persistent loading notification pushed in front, the oldest dropped when over the bound |
| Notifications.WithoutId | public/js/services/NotificationService.js:171-177 | removal keeps exactly the entries with other ids |
| Notifications.WithoutAbsentId | public/js/services/NotificationService.js:171-177 | removing an unknown id changes nothing |
| Notifications.WithoutIdAppend | public/js/services/NotificationService.js:171-177 | removal works piecewise, so the others keep their relative order |
| Notifications.NotificationService.Remove | public/app-backup.js:1469-1475 | the list loses exactly the entries with the id, and is unchanged for an unknown id |
| Notifications.NotificationService.Clear | public/js/services/NotificationService.js:199-204 | the list is empty |
| Notifications.UnreadCount | public/js/services/NotificationService.js:452-454 | the count is at most the length, and zero iff every entry is read |
| Notifications.NotificationService.GetUnreadCount | public/js/services/NotificationService.js:452-454 | the loop returns the unread count |
| Notifications.MarkOneRead | public/js/services/NotificationService.js:459-464 | marking an unread entry lowers the count by one |
| Notifications.NotificationService.MarkAsRead | public/js/services/NotificationService.js:459-464 | only the first entry with the id is marked read; an unknown id changes nothing |
| Notifications.NotificationService.MarkAllAsRead | public/js/services/NotificationService.js:469-471 | every entry is marked read and nothing else changes, so the unread count is zero |
| Notifications.TypeColor | public/js/services/NotificationService.js:405-414 | a known type's colour, or the `info` colour |
| Notifications.TypeIcon | public/js/services/NotificationService.js:416-425 | a known type's icon, or the `info` icon |
| Notifications.TypeLookups | public/js/services/NotificationService.js:405-425 | unknown types that are not inherited object properties look like `info`, and distinct known types differ in colour and icon |
| Notifications.UrlBase64RoundTrip | public/js/services/NotificationService.js:427-432 | on a URL-safe key, undoing the character swap on the converted text, without its padding, gives the key back |
| Notifications.UrlBase64ToBase64 | public/js/services/NotificationService.js:427-431 | the result has a length divisible by 4, maps `-` to `+` and `_` to `/`, and is padded with at most three `=` |
| Analytics.AnalyticsService.Track | public/js/services/AnalyticsService.js:61-84 | nothing is recorded while disabled; otherwise exactly one event is appended |
| Analytics.AnalyticsService.TrackPageView | public/js/services/AnalyticsService.js:89-103 | the page view is always recorded, and a `page_view` event is tracked |
| Analytics.AnalyticsService.SetEnabled | public/js/services/AnalyticsService.js:537-540 | the switch takes the given value |
| Analytics.StoreEventLocally | public/js/services/AnalyticsService.js:448-458 | the store keeps the most recent events in order, at most 1000, and ends with the new one |
| Analytics.StoreKeepsCap | public/js/services/AnalyticsService.js:448-458 | a store within the cap stays within it, and a full store drops exactly its oldest event |
| Analytics.CountEvents | public/js/services/AnalyticsService.js:482-485 | the counting loop builds the count list characterised by `CountsOfMeans` |
| Analytics.CountsOfMeans | public/js/services/AnalyticsService.js:482-485 | the counts name every occurring event once, each with its number of occurrences |
| Analytics.CountsCoverOccurring | public/js/services/AnalyticsService.js:482-485 | a name has an entry iff it occurs |
| Analytics.TopEventsMeans | public/js/services/AnalyticsService.js:481-491 | the first 10 entries, or all of them when fewer names occur, with distinct names and exact counts, in non-increasing order; a name left out is no more frequent than any shown |
| Analytics.AnalyticsService.GetTopEvents | public/js/services/AnalyticsService.js:481-491 | the method returns the top-events list: one entry per occurring name up to 10, distinct names, exact counts, non-increasing order |
| Analytics.FirstLater | public/js/services/AnalyticsService.js:508-510 | the first view in array order with a later timestamp, or none iff no view is later |
| Analytics.FirstLaterIsNearest | public/js/services/AnalyticsService.js:507-517 | when views are in time order, the time spent is positive and reaches the nearest later view |
| Analytics.FirstLaterNotNearest | public/js/services/AnalyticsService.js:507-517 | out of time order, the time runs to the first later view in the array, not the nearest one |
| Analytics.ObserveMeans | public/js/services/AnalyticsService.js:382-387 | one reading reports distinct milestones it reached that were not yet tracked, adds exactly those, and leaves every reached milestone tracked |
| Analytics.ObserveAllOnce | public/js/services/AnalyticsService.js:371-390 | over any sequence of scroll readings each milestone is reported at most once, and every milestone some reading reached is tracked; the same holds for the time-on-page milestones (public/js/services/AnalyticsService.js:395-411) |
| Analytics.MilestoneTracker.OnReading | public/js/services/AnalyticsService.js:382-387 | the listener's loop reports and tracks exactly what `ObserveMeans` characterises |
| ClientApp.ValidatePassword | public/app.js:1178-1189 | the requirements are length 8 or more, an upper-case letter, a lower-case letter, a digit and one of `@$!%*?&`; valid iff all five hold |
| ClientApp.ValidPasswordExample | public/app.js:1178-1189 | `Barba@2024` is valid and `barba@2024` is not |
| ClientApp.LevelMonotone | public/app.js:1205-1215 | a higher score never shows a weaker level; a valid password shows as strong; a short password without a symbol never does |
| ClientApp.UpdatePasswordStrength | public/app.js:1191-1231 | all bars are reset; an empty password shows no text; otherwise the first `min(score, bars)` bars take the level and the text names it |
| ClientApp.ClientFormErrors | public/app.js:1288-1322 | each message appears iff its rule fails (trimmed name under 2, email not matching the pattern, invalid password, mismatched confirmation, terms not accepted); no message iff all pass |
| ClientApp.AcceptedEmailNotTrimmed | public/app.js:1332-1338 | an accepted email is stored lower-cased with nothing trimmed |
| ClientApp.ClientState.RegisterUser | public/app.js:1478-1513 | an email already registered fails with `E-mail já cadastrado` and nothing changes; otherwise exactly one active user is appended; unique emails stay unique |
| ClientApp.ClientState.HandleClientRegistration | public/app.js:1269-1360 | the field errors are those of the form; with errors nothing is registered; otherwise the trimmed, lower-cased data is registered, failing iff that email is taken |
| ClientApp.UnreadBadge | public/app.js:967-972 | the badge counts the notifications not read, at most all of them, and is zero (the badge is hidden) exactly when every notification is read |
| ClientApp.MarkingChangesBadgeByOne | public/app.js:957-968 | reading an unread notification lowers the badge by one; reading a read one leaves it |
| ClientApp.ClientState.MarkAsRead | public/app.js:957-965 | only the first notification with the id is marked read; an unknown id changes nothing; the badge never grows |
| ClientApp.ClientState.UpdateNotificationBadge | public/app.js:966-968 | the loop returns the unread count |
| ClientApp.ClientState.ConfirmAppointment | public/app.js:888-924 | all four fields are required; the booking is made iff the chosen barber and service exist; it is appended with status `confirmado`, the chosen date and time and the service's price |
| ClientApp.CheckSavedLogin | public/app.js:1553-1599 | the saved user is restored iff the login is complete and under seven days old; a complete expired login is removed; anything else is left alone |
| ClientApp.ExpiryIsFinal | public/app.js:1558-1595 | once a login is found expired, no later check restores it |
| ClientApp.SevenDayBoundary | public/app.js:1560-1564 | a login is restored one millisecond before seven days and not at seven days |
| BackupApp.GetUserPermissions | public/app-backup.js:1239-1246 | `['*']` exactly for administrators; no permissions exactly for unknown types; four fixed permissions for clients and barbers |
| BackupApp.HasPermission | public/app-backup.js:1248-1252 | false without a user; otherwise true iff the user's list holds `*` or the permission |
| BackupApp.PermissionsByType | public/app-backup.js:1239-1252 | administrators may do anything; clients may book but not manage a schedule; barbers may not rate |
| BackupApp.NoListNoPermission | public/app-backup.js:1239-1252 | a user without a list, or of an unknown type, is refused everything |
| BackupApp.FormError | public/app-backup.js:3146-3164 | each message iff its rule is the first to fail, in the order name under 2, no `@`, password under 6, mismatch; none iff all pass |
| BackupApp.RegisteredUsers.RegisterSameEmailTwice | public/app-backup.js:3166-3180 | once a registration succeeds, a second one with the same email fails and only the first user is kept; with a valid second form the failure is `Email já cadastrado` |
| BackupApp.RegisteredUsers.Exists | public/app-backup.js:3167-3168 | the loop finds whether some stored user has the email |
| BackupApp.RegisteredUsers.HandleRegistration | public/app-backup.js:3127-3249 | a failed rule or a taken email leaves the list unchanged with its message; otherwise exactly one user with the form's fields is appended |
| ClientAuth.ExtractNameFromEmail | public/js/services/AuthService.js:477-480 | the name is as long as the text before the first `@`, with its first character upper-cased and the rest unchanged; the copy derives names the same way (public/app-backup.js:1260-1263) |
| ClientAuth.NameOfAddress | public/js/services/AuthService.js:477-480 | the name of `local@domain` is `local` capitalised, whatever the domain |
| ClientAuth.EmptyLocalPart | public/js/services/AuthService.js:477-480 | an address starting with `@` gives an empty name |
| ClientAuth.FindLogin | public/js/services/AuthService.js:68-71 | the first stored user with that email and type, or none has both |
| ClientAuth.SessionFields | public/js/services/AuthService.js:78-85 | the session user holds the stored values of id, name, email, type, phone and avatar only (a stored password stays out); id, name, email, type and phone are kept when present, and the avatar exactly when it is present and not empty |
| ClientAuth.AuthService.LoginOffline | public/js/services/AuthService.js:63-117 | the first stored user matching the lower-cased, trimmed email and the type signs in whatever the password, else a non-empty email signs in a demo user; a login stores the token, refresh token, user, login time as text and logged-in flag, and the user holds exactly the requested role; an empty email fails with nothing changed |
| ClientAuth.AuthService.ClearThenRestore | public/js/services/AuthService.js:307-340 | after `clearSession`, `restoreSession` restores nobody and leaves no session |
| ClientAuth.AuthService.HandleLoginSuccess | public/js/services/AuthService.js:280-287 | the user becomes current and the token, user, login time and flag are stored |
| ClientAuth.NewRegisteredUser | public/js/services/AuthService.js:159-165 | the stored user has the input's fields, an id (the input's own if present), a creation time, `isActive` true and `emailVerified` false |
| ClientAuth.AuthService.RegisterOffline | public/js/services/AuthService.js:149-175 | an email already stored fails with `Email já cadastrado` and nothing changes; otherwise exactly the new user is appended |
| ClientAuth.DayBoundary | public/js/services/AuthService.js:13 | a session is still restorable one millisecond before 24 hours and not at 24 hours |
| ClientAuth.AuthService.ValidateToken | public/js/services/AuthService.js:247-259 | the saved user is returned and made current iff it exists and its login time is under 24 hours old |
| ClientAuth.AuthService.RestoreSession | public/js/services/AuthService.js:307-325 | restored iff a token, a saved user and a fresh login time are stored; otherwise the session is cleared |
| ClientAuth.AuthService.ClearSession | public/js/services/AuthService.js:329-345 | no current user and no session entries remain |
| ClientAuth.Merge | public/js/services/AuthService.js:409 | the merge takes every profile field, keeps every other user field, and adds nothing else |
| ClientAuth.MergeIdempotent | public/js/services/AuthService.js:409 | merging the same profile twice changes nothing more |
| ClientAuth.AuthService.UpdateProfile | public/js/services/AuthService.js:406-420 | the current user becomes the merge and is saved as the session's user, the other session entries unchanged; only the first stored user with the same id is merged; the list keeps its length |
| Sorting.SortDescSorted | public/js/services/PaymentService.js:478 | sorting by a key gives a list in non-increasing key order |
| Sorting.SortDesc | public/js/services/AnalyticsService.js:488 | sorting keeps exactly the same elements |
| Sorting.SortDescStable | public/js/services/PaymentService.js:478 | elements with equal keys keep their relative order |
| Strings.FieldsOfJoined | public/js/services/AuthService.js:478 | splitting `a@b` at its first `@` gives `a`, and the rest is `b` |
| Calendar.CalendarService.constructor | public/js/services/CalendarService.js:8-27 | the service starts with no appointments and the default weekly template; the holiday list, loaded from storage in the source, is given |
| Calendar.Pad2Value | public/js/services/CalendarService.js:594-598 | a padded field is all digits and spells its number |
| AppointmentApi.SetStatus | controllers/appointmentController.js:283-286 | the result differs from the input only in status: rows with the id get the new status, every other row keeps its own |
| AppointmentApi.SetStatusLaws | controllers/appointmentController.js:283-286 | setting a status twice equals setting the last one, repeating it changes nothing, and an absent id leaves the rows as they are |
| AccessControl.FindUser | middleware/auth.js:27-37 | the user found has the token's id; none is found iff no user has it |
| Payments.PaymentService.constructor | public/js/services/PaymentService.js:8-16 | the service starts with no payment methods and no transactions |
| Payments.FindMethod | public/js/services/PaymentService.js:316 | the index of the first method with the id, or no method has it |
| Notifications.FindId | public/js/services/NotificationService.js:460 | the index of the first notification with the id, or none has it |
| Analytics.AnalyticsService.constructor | public/js/services/AnalyticsService.js:8-19 | the service starts enabled with no events and no page views |
| Analytics.MilestoneTracker.constructor | public/js/services/AnalyticsService.js:371-375 | a listener starts with its milestone list and nothing tracked |
| ClientApp.ClientState.constructor | public/app.js:1478-1486 | the state holds the stored users and notifications and no appointments |
| ClientApp.EmailIndex | public/app.js:1484-1485 | the index of a stored user with the email, or none has it |
| ClientApp.FindBarber | public/app.js:902 | the first barber with the chosen id, or none has it |
| ClientApp.FindService | public/app.js:903 | the first service with the chosen id, or none has it |
| BackupApp.RegisteredUsers.constructor | public/app-backup.js:3167 | the list holds the stored users |
| ClientAuth.AuthService.constructor | public/js/services/AuthService.js:8-24 | the stored users are given; the `restoreSession` of `init` signs in the saved user of a restorable session and keeps it, and clears any other session |
| ClientAuth.FindSame | public/js/services/AuthService.js:414 | the first stored user whose field equals the value, a missing field matching a missing value, or none matches |

## Left out

- I/O is not modelled: `localStorage`, IndexedDB, the DOM, screens, modals, toasts, alerts, themes and HTML rendering. Stores are in-memory sequences, maps or fields.
- Network calls, SQL queries, JWT signing and verification, bcrypt, Stripe, PIX and boleto processing, push subscriptions, the service worker and `atob` are left out. Their results are parameters, such as the `verify` function of `AccessControl.Authenticate` and the database rows.
- Timers and concurrency are left out: `setTimeout`, `setInterval`, debouncing, token refresh, session timeouts and the simulated delays.
- Clocks, timezones and random ids are parameters: `Date.now()` (the `now` of the "in the future" checks, whose parsed instant is an input too), `new Date(...).getDay()`, the current-year holidays, `Math.random()`.
- Floating point is left out: totals, wallet balances, average ratings and `toFixed`.
- The scroll percentage and the seconds on the page are integer inputs; `Math.round` of the measured values is not modelled.
- AppointmentApi.GetBarberAvailability: requires a zero-padded start and a clock-shaped end in every template entry; with other shapes (an end of `"9:00"` or `"99:99"`) the source loop never terminates (see Findings). A text column is taken as the template it decodes to; malformed JSON text and an empty-string column are not modelled. As written every request past the barber checks is answered with 500: a `JSON` column (scripts/migrate.js:59) comes from the driver as a decoded object unless it is configured with `jsonStrings`, which config/db.js does not do, and `JSON.parse` then throws before the day name is looked up; with a `NULL` or text column, every valid date still gets the `RangeError` of `weekday: 'lowercase'`, and only an invalid date is answered with 200 and no slots. `AppointmentApi.CorrectedGetBarberAvailability` gives slots only with both line 412 and line 413 corrected. The weekday of the date is an input.
- AppointmentApi.TimeOfDay: reads only `[H]H:MM` and `[H]H:MM:SS`; MySQL's other time spellings (a day part, fractions, bare digit strings) are not modelled.
- Calendar.FieldNumber: reads digit fields only. `Number` also reads a signed, fractional, hexadecimal or space-padded field (`"-1"`, `" 9"`); the model treats those as not a number, so `parseTime` of such a time is `None` here.
- RequestValidation.NumberOf: exponents, `Infinity`, hexadecimal, octal and binary literals and non-ASCII white space are not modelled; they read as not a number.
- RequestValidation.TimeFieldErrors: JSON `null`, booleans, arrays and objects as the time are not modelled; only an absent value, a string and a number are.
- Calendar.WithinWorkingHoursMeans: requires a positive duration and well-formed breaks (each starting before it ends); a request of no length or a degenerate break is not characterised.
- Analytics.CountsOf: every name is counted from 0 in its own entry. The source counts in a plain object (public/js/services/AnalyticsService.js:484), where `__proto__` gets no entry of its own and `constructor` starts from the inherited function, so its count becomes text; this is not modelled.
- Notifications.TypeColor and Notifications.TypeIcon: a type naming an inherited object property (`constructor`, `toString`) gives that property in the source (public/js/services/NotificationService.js:413, 424); the model gives the `info` entry, and `TypeLookups` holds only for other types.
- Calendar.CalendarService.BookAppointment: the spread of the caller's data (public/js/services/CalendarService.js:121-127) copies every field it has; the model keeps the modelled fields and the caller's `id`, and status and times are always the service's own.
- Payments.NewMethod: the spread `...methodData` (public/js/services/PaymentService.js:283-289) lets a caller's `id`, `type` or `createdAt` replace the generated ones; only `isDefault` is modelled this way, and the id and time are the generated ones.
- The calendar copy in `public/app-backup.js`: its booking and cancelling call `updateAvailabilityCache`, which calls `this.calculateAvailability`, a method the copy does not define (public/app-backup.js:2508, 2519). The booking is pushed and the cancellation applied before the `TypeError` is thrown. These two operations are not modelled, and the copy has no reschedule.
- Analytics.TopEvents: entries with equal counts keep insertion order. JavaScript's `Object.entries` instead lists integer-like event names first, in numeric order, and this is not modelled.
- Analytics.AnalyticsService.constructor: the service starts with no events; the session-start and listener setup of `init` is not modelled.
- Payments.TransactionHistory: the successive `filter` calls are modelled as one filter on the conjunction of the supplied filters, which gives the same list.
- Calendar parsing and formatting, `ClientApp.ValidatePassword` and `ClientAuth.ExtractNameFromEmail` handle ASCII only: `toUpperCase`, `toLowerCase`, the `\s` class and `trim` are not modelled for other Unicode characters.
- AccessControl.ParseInt: skips ASCII white space only; `parseInt` also skips the other Unicode white space and line terminators before the number.
- ClientApp.ValidatePassword: the length is counted in Unicode scalar values; JavaScript's `length` counts UTF-16 code units, so a password with characters outside the Basic Multilingual Plane is longer in the source.
- Calendar.CheckAvailability and Calendar.CalendarService.GetAvailableSlots: the day of the week is an input from 0 to 6. For an invalid date, `getDay()` gives `NaN`, `workingHours[dayOfWeek]` is `undefined`, and the `TypeError` is caught as `false` or `[]` (public/js/services/CalendarService.js:260, 271-272, 316); that path is not modelled.
- ClientAuth: record field values are text, so a number or `null` is held as its text or as a missing key. `undefined` and `null` are not told apart.
- ClientAuth.AuthService.RestoreSession and ClientAuth.AuthService.ValidateToken: only the static-deployment branch is modelled; the API validation call is left out.
- ClientApp.ClientState.HandleClientRegistration: the phone number is kept as given; the `userType` is always `cliente`. The barber registration form of `public/app.js` is not part of this model.
- BackupApp.GetUserPermissions: a type naming an inherited object property (such as `constructor`) is treated as unknown; the source would return that property.
- Notifications: `renderToast`, sounds, auto-dismiss timers and browser push notifications are not modelled.
- The rest of the repository is left out: `public/app-clean.js` (its registration checks repeat the single-file application's), `agendamentos.js`, `cliente-inline.js`, `cliente-functions.js`, `dashboard.js`, `navigation.js`, `StorageService.js`, `APIService.js`, the user, barber, service and review controllers, the scheduler, the e-mail service, the server set-up, the routes and the tests.

## Findings

| source | as written | input that shows it | evidently intended | confidence | as-written member | corrected member |
|---|---|---|---|---|---|---|
| controllers/appointmentController.js:412 | the `working_hours` column is passed to `JSON.parse` as if it were text, but a `JSON` column (scripts/migrate.js:59) arrives from the driver as a decoded object, which `JSON.parse` turns into `[object Object]` and refuses with a `SyntaxError` | an available barber with a stored template and any date: the reply is 500 | reading the column as text or as an object, as controllers/barberController.js:134-138 does | not executed | AppointmentApi.GetBarberAvailability | AppointmentApi.CorrectedGetBarberAvailability |
| controllers/appointmentController.js:413 | the day name is asked for with `weekday: 'lowercase'`, which `Intl.DateTimeFormat` refuses with a `RangeError` | an available barber whose column arrives as text (or is `NULL`) and the date `2025-06-02`: the reply is 500 instead of Monday's slots | the long English name, lower-cased, as the stored templates spell it | not executed | AppointmentApi.GetBarberAvailability | AppointmentApi.CorrectedGetBarberAvailability |
| public/js/services/CalendarService.js:185-215 | a reschedule does not check the shape of the new time | rescheduling to `abc` on an open day: the availability check passes whatever is booked, the record stores `abc`, and no later booking conflicts with it | the `HH:MM` check that booking applies | not executed | Calendar.UnparsableTimeAvailable | Calendar.CalendarService.CorrectedRescheduleAppointment |
| controllers/appointmentController.js:409-426 | once the column reading and the day name are fixed, free slots drop a cursor only when its `"HH:MM"` string is exactly one of the booked times | a day open 14:00-15:00 with a booking whose `appointment_time` comes back from the `TIME` column (scripts/migrate.js:97) as `"14:00:00"`: the 14:00 slot is still offered | a booked time removes the slot at the same minute, whatever the seconds suffix | not executed | AppointmentApi.SecondsKeepBookedSlot | AppointmentApi.CorrectedFreeMinutesMeans |
| controllers/appointmentController.js:423-432 | the slot loop compares the cursor with the stored end as strings, and every cursor it forms starts with two digits | a template entry ending at `"9:00"`: every cursor stays below the end by string `<`, so the loop never stops and the request is never answered | the loop stops at the end's time of day, padded or not | not executed | AppointmentApi.UnpaddedEndNeverReached | AppointmentApi.CorrectedGenerateSlots |
