/**
 * The client-side availability engine: `"HH:MM"` times, the half-open overlap test, the weekly
 * working-hours template with breaks and closed days, holidays, availability of a request,
 * the 30-minute slot generator, and booking, cancelling and rescheduling on the in-memory list.
 *
 * Times are minutes since midnight. The day of the week of a date is an input (0 = Sunday, as
 * `Date.prototype.getDay` numbers them), because the source derives it from the local time zone.
 */
module Calendar {
  import opened Wrappers
  import opened Strings
  import opened Sequences

  // ---------------------------------------------------------------- times

  /** `Number(field)` for a field of decimal digits; `None` stands for `NaN`. */
  function FieldNumber(s: string): (r: Option<nat>)
    ensures r.Some? <==> AllDigits(s)
  {
    if AllDigits(s) then Some(DigitsValue(s)) else None
  }

  /**
   * `parseTime`: hours times 60 plus minutes, read from the first two `:`-separated fields
   * (`"08:00:00"` reads as 480); `None` when a field is missing or not a number.
   */
  function ParseTime(s: string): Option<nat>
  {
    match RestAfter(s, ':')
    case None => None
    case Some(rest) =>
      match (FieldNumber(FirstField(s, ':')), FieldNumber(FirstField(rest, ':')))
      case (Some(h), Some(m)) => Some(h * 60 + m)
      case _ => None
  }

  /** How `formatTime` renders `n`: `n.toString().padStart(2, '0')`. */
  function Pad2(n: nat): (r: string)
    ensures |r| >= 2
    ensures n < 100 ==> |r| == 2
  {
    PadStart2(NatToString(n))
  }

  /** A padded field is all digits, and `Number` reads it back as the number it pads. */
  lemma Pad2Value(n: nat)
    ensures AllDigits(Pad2(n)) && DigitsValue(Pad2(n)) == n
  {
    NatToStringValue(n);
    PadStart2Value(NatToString(n));
  }

  /** `formatTime`: the hour and the minute, each zero-padded to at least two digits, around a colon. */
  function FormatTime(m: nat): (r: string)
    ensures m < 6000 ==> IsPaddedTime(r)
  {
    FormatTimeFields(m);
    Pad2(m / 60) + ":" + Pad2(m % 60)
  }

  /** The fields of `formatTime(m)`: the hours `m / 60` before the last colon, the minutes `m % 60` after it. */
  lemma FormatTimeFields(m: nat)
    ensures var r := Pad2(m / 60) + ":" + Pad2(m % 60);
      |r| >= 5 && r[|r| - 3] == ':' &&
      AllDigits(r[..|r| - 3]) && DigitsValue(r[..|r| - 3]) == m / 60 &&
      AllDigits(r[|r| - 2..]) && DigitsValue(r[|r| - 2..]) == m % 60 &&
      (m < 6000 ==> |r| == 5 && IsPaddedTime(r))
  {
    var h, mm := Pad2(m / 60), Pad2(m % 60);
    Pad2Value(m / 60);
    Pad2Value(m % 60);
    var r := h + ":" + mm;
    assert r[..|r| - 3] == h && r[|r| - 2..] == mm;
  }

  /** The `/^\d{2}:\d{2}$/` shape that `validateAppointmentData` demands of a time. */
  predicate IsPaddedTime(s: string)
  {
    |s| == 5 && IsDigit(s[0]) && IsDigit(s[1]) && s[2] == ':' && IsDigit(s[3]) && IsDigit(s[4])
  }

  lemma DigitsHaveNoColon(s: string)
    requires AllDigits(s)
    ensures ':' !in s
  {
  }

  /** Formatting a time and parsing it back gives the same number of minutes. */
  lemma {:induction false} TimeRoundTrip(m: nat)
    ensures ParseTime(FormatTime(m)) == Some(m)
  {
    var h, mm := Pad2(m / 60), Pad2(m % 60);
    Pad2Value(m / 60);
    Pad2Value(m % 60);
    DigitsHaveNoColon(h);
    DigitsHaveNoColon(mm);
    FieldsOfJoined(h, ':', mm);
    assert FormatTime(m) == h + [':'] + mm;
    assert FirstField(mm, ':') == mm;
  }

  /** A time of the validated `HH:MM` shape always parses, as hours * 60 + minutes. */
  lemma {:induction false} PaddedTimeParses(s: string)
    requires IsPaddedTime(s)
    ensures ParseTime(s) == Some(DigitsValue(s[..2]) * 60 + DigitsValue(s[3..]))
  {
    var h, mm := s[..2], s[3..];
    assert s == h + [':'] + mm;
    assert AllDigits(h) && AllDigits(mm);
    DigitsHaveNoColon(h);
    DigitsHaveNoColon(mm);
    FieldsOfJoined(h, ':', mm);
    assert FirstField(mm, ':') == mm;
  }

  // ---------------------------------------------------------------- overlap

  /** `hasTimeConflict`: the intervals `[start1, start1 + duration1)` and `[start2, start2 + duration2)` overlap. */
  predicate HasTimeConflict(start1: int, duration1: int, start2: int, duration2: int)
  {
    start1 < start2 + duration2 && start2 < start1 + duration1
  }

  /**
   * `hasTimeConflict` on parsed times, `None` standing for `NaN`: every comparison with `NaN` is
   * false, so a time that does not parse conflicts with nothing.
   */
  predicate Overlaps(t1: Option<nat>, d1: int, t2: Option<nat>, d2: int)
  {
    t1.Some? && t2.Some? && HasTimeConflict(t1.value, d1, t2.value, d2)
  }

  predicate Covers(start: int, duration: int, t: int)
  {
    start <= t < start + duration
  }

  lemma ConflictSymmetric(s1: int, d1: int, s2: int, d2: int)
    ensures HasTimeConflict(s1, d1, s2, d2) == HasTimeConflict(s2, d2, s1, d1)
  {
  }

  /** An interval that starts exactly when another ends does not conflict with it. */
  lemma BackToBackDoesNotConflict(s1: int, d1: int, d2: int)
    ensures !HasTimeConflict(s1, d1, s1 + d1, d2)
    ensures !HasTimeConflict(s1 + d1, d2, s1, d1)
  {
  }

  /** For non-empty intervals a conflict is exactly a shared minute. */
  lemma ConflictIffSharedMinute(s1: int, d1: int, s2: int, d2: int)
    requires d1 > 0 && d2 > 0
    ensures HasTimeConflict(s1, d1, s2, d2) <==> exists t :: Covers(s1, d1, t) && Covers(s2, d2, t)
  {
    if HasTimeConflict(s1, d1, s2, d2) {
      var t := if s1 < s2 then s2 else s1;
      assert Covers(s1, d1, t) && Covers(s2, d2, t);
    }
  }

  // ---------------------------------------------------------------- working hours

  /** A break from `start` (inclusive) to `end` (exclusive), in minutes. */
  datatype Break = Break(start: nat, end: nat)

  /** A day of the weekly template: `{ closed: true }` or opening hours with breaks. */
  datatype DayHours = Closed | Open(start: nat, end: nat, breaks: seq<Break>)

  type DayOfWeek = d: nat | d < 7

  /** The template indexed by day of the week, Sunday first. */
  type Week = w: seq<DayHours> | |w| == 7 witness [Closed, Closed, Closed, Closed, Closed, Closed, Closed]

  const SlotDuration: nat := 30

  /** Monday to Friday 08:00-18:00 with a 12:00-13:00 break, Saturday 08:00-16:00, Sunday closed. */
  const Weekday: DayHours := Open(480, 1080, [Break(720, 780)])
  const Saturday: DayHours := Open(480, 960, [])
  const DefaultWeek: Week := [Closed, Weekday, Weekday, Weekday, Weekday, Weekday, Saturday]

  datatype Holiday = Holiday(date: string, name: string)

  /** `isHoliday`: some holiday has exactly this date string. */
  predicate IsHoliday(holidays: seq<Holiday>, date: string)
  {
    exists i :: 0 <= i < |holidays| && holidays[i].date == date
  }

  /** The break test of the slot loop: `t` lies in `[breakStart, breakEnd)` of some break. */
  predicate IsBreakTime(breaks: seq<Break>, t: nat)
  {
    exists i :: 0 <= i < |breaks| && breaks[i].start <= t < breaks[i].end
  }

  /**
   * The break test of `isWithinWorkingHours`: the request conflicts with some break. The source
   * passes `formatTime(breakStart)` and `breakEnd - breakStart`; by `TimeRoundTrip` that is
   * the break's own start and length.
   */
  predicate HitsBreak(breaks: seq<Break>, time: nat, duration: int)
  {
    exists i :: 0 <= i < |breaks| && HasTimeConflict(time, duration, breaks[i].start, breaks[i].end - breaks[i].start)
  }

  /**
   * `isWithinWorkingHours` on the template entry of the request's day, for the parsed request
   * time. A `NaN` time fails no comparison and hits no break, so it passes on any open day.
   */
  predicate IsWithinWorkingHours(day: DayHours, time: Option<nat>, duration: int)
  {
    match day
    case Closed => false
    case Open(start, end, breaks) =>
      match time
      case None => true
      case Some(t) =>
        if t < start || t + duration > end then false
        else !HitsBreak(breaks, t, duration)
  }

  /** Every break of the day ends after it starts. */
  predicate BreaksWellFormed(day: DayHours)
  {
    day.Open? ==> forall i :: 0 <= i < |day.breaks| ==> day.breaks[i].start < day.breaks[i].end
  }

  /**
   * The request lies inside the opening hours, may end exactly at closing time, and shares no
   * minute with any break.
   */
  lemma {:induction false} WithinWorkingHoursMeans(day: DayHours, time: nat, duration: int)
    requires duration > 0 && BreaksWellFormed(day)
    ensures IsWithinWorkingHours(day, Some(time), duration) <==>
      day.Open? && day.start <= time && time + duration <= day.end &&
      forall i, t :: 0 <= i < |day.breaks| && Covers(time, duration, t) ==> !(day.breaks[i].start <= t < day.breaks[i].end)
  {
    if day.Open? && day.start <= time && time + duration <= day.end {
      if HitsBreak(day.breaks, time, duration) {
        var i :| 0 <= i < |day.breaks| && HasTimeConflict(time, duration, day.breaks[i].start, day.breaks[i].end - day.breaks[i].start);
        var b := day.breaks[i];
        var t := if time < b.start then b.start else time;
        assert Covers(time, duration, t) && b.start <= t < b.end;
      } else {
        forall i, t | 0 <= i < |day.breaks| && Covers(time, duration, t)
          ensures !(day.breaks[i].start <= t < day.breaks[i].end)
        {
          assert !HasTimeConflict(time, duration, day.breaks[i].start, day.breaks[i].end - day.breaks[i].start);
        }
      }
    }
  }

  // ---------------------------------------------------------------- appointments

  datatype Schedule = Schedule(date: string, time: string)

  /** A stored appointment; `time` is the string it was booked or rescheduled with. */
  datatype Appointment = Appointment(
    id: string, barberId: string, customerId: string, serviceId: string,
    date: string, time: string, duration: int, status: string,
    cancellationReason: Option<string>, previousSchedule: Option<Schedule>)

  /**
   * The fields a booking request carries; `id` is an `id` field of the caller's own, which the
   * spread `...appointmentData` lets replace the generated one.
   */
  datatype AppointmentData = AppointmentData(
    id: Option<string>, barberId: string, customerId: string, serviceId: string,
    date: string, time: string, duration: int)

  const Confirmed := "confirmed"
  const Cancelled := "cancelled"
  const Completed := "completed"

  predicate Active(a: Appointment) { a.status != Cancelled }

  /** What the filter of `checkAvailability` keeps: a live booking of the same barber and date that overlaps. */
  predicate Blocks(a: Appointment, barberId: string, date: string, time: Option<nat>, duration: int)
  {
    a.barberId == barberId && a.date == date && Active(a) && Overlaps(ParseTime(a.time), a.duration, time, duration)
  }

  /** `conflictingAppointments`: the blocking bookings, in list order. */
  function Conflicting(apts: seq<Appointment>, barberId: string, date: string, time: Option<nat>, duration: int): (r: seq<Appointment>)
    ensures forall a :: a in r <==> a in apts && Blocks(a, barberId, date, time, duration)
  {
    if apts == [] then []
    else
      var rest := Conflicting(apts[1..], barberId, date, time, duration);
      assert forall a :: a in apts <==> a == apts[0] || a in apts[1..];
      if Blocks(apts[0], barberId, date, time, duration) then [apts[0]] + rest else rest
  }

  /** `checkAvailability`. */
  predicate CheckAvailability(apts: seq<Appointment>, holidays: seq<Holiday>, week: Week,
                              barberId: string, date: string, dow: DayOfWeek, time: Option<nat>, duration: int)
  {
    if IsHoliday(holidays, date) then false
    else if !IsWithinWorkingHours(week[dow], time, duration) then false
    else |Conflicting(apts, barberId, date, time, duration)| == 0
  }

  /**
   * A request is available iff its date is no holiday, it fits the day's working hours, and
   * no live booking of the same barber on the same date overlaps it.
   */
  lemma CheckAvailabilityMeans(apts: seq<Appointment>, holidays: seq<Holiday>, week: Week,
                               barberId: string, date: string, dow: DayOfWeek, time: Option<nat>, duration: int)
    ensures CheckAvailability(apts, holidays, week, barberId, date, dow, time, duration) <==>
      !IsHoliday(holidays, date) && IsWithinWorkingHours(week[dow], time, duration) &&
      forall i :: 0 <= i < |apts| ==> !Blocks(apts[i], barberId, date, time, duration)
  {
    var c := Conflicting(apts, barberId, date, time, duration);
    if |c| != 0 {
      assert c[0] in c;
    }
    if exists i :: 0 <= i < |apts| && Blocks(apts[i], barberId, date, time, duration) {
      var i :| 0 <= i < |apts| && Blocks(apts[i], barberId, date, time, duration);
      assert apts[i] in c;
    }
  }

  /**
   * Adding a booking that is cancelled, belongs to another barber, is on another date or does
   * not overlap never changes the answer.
   */
  lemma {:induction false} NonBlockingIsIgnored(apts: seq<Appointment>, a: Appointment, holidays: seq<Holiday>, week: Week,
                                                barberId: string, date: string, dow: DayOfWeek, time: Option<nat>, duration: int)
    requires !Blocks(a, barberId, date, time, duration)
    ensures CheckAvailability(apts + [a], holidays, week, barberId, date, dow, time, duration) ==
            CheckAvailability(apts, holidays, week, barberId, date, dow, time, duration)
  {
    CheckAvailabilityMeans(apts, holidays, week, barberId, date, dow, time, duration);
    CheckAvailabilityMeans(apts + [a], holidays, week, barberId, date, dow, time, duration);
    assert forall i :: 0 <= i < |apts| ==> (apts + [a])[i] == apts[i];
  }

  /** A holiday is never available, whatever the bookings. */
  lemma HolidayNeverAvailable(apts: seq<Appointment>, holidays: seq<Holiday>, week: Week,
                              barberId: string, date: string, dow: DayOfWeek, time: Option<nat>, duration: int)
    requires exists i :: 0 <= i < |holidays| && holidays[i].date == date
    ensures !CheckAvailability(apts, holidays, week, barberId, date, dow, time, duration)
  {
  }

  /** Two live bookings of one barber on one date that overlap. */
  predicate Clash(a: Appointment, b: Appointment)
  {
    a.barberId == b.barberId && a.date == b.date && Active(a) && Active(b) &&
    Overlaps(ParseTime(a.time), a.duration, ParseTime(b.time), b.duration)
  }

  /** No barber is double-booked: no two distinct entries clash. */
  predicate NoDoubleBooking(apts: seq<Appointment>)
  {
    forall i, j :: 0 <= i < |apts| && 0 <= j < |apts| && i != j ==> !Clash(apts[i], apts[j])
  }

  /** Appending a live booking that passed `checkAvailability` keeps every barber free of double bookings. */
  lemma {:induction false} BookingKeepsNoDoubleBooking(apts: seq<Appointment>, a: Appointment, holidays: seq<Holiday>,
                                                       week: Week, dow: DayOfWeek)
    requires NoDoubleBooking(apts)
    requires CheckAvailability(apts, holidays, week, a.barberId, a.date, dow, ParseTime(a.time), a.duration)
    ensures NoDoubleBooking(apts + [a])
  {
    CheckAvailabilityMeans(apts, holidays, week, a.barberId, a.date, dow, ParseTime(a.time), a.duration);
    var s := apts + [a];
    forall i, j | 0 <= i < |s| && 0 <= j < |s| && i != j
      ensures !Clash(s[i], s[j])
    {
      if j == |apts| {
        assert !Blocks(apts[i], a.barberId, a.date, ParseTime(a.time), a.duration);
      } else if i == |apts| {
        assert !Blocks(apts[j], a.barberId, a.date, ParseTime(a.time), a.duration);
      } else {
        assert s[i] == apts[i] && s[j] == apts[j];
      }
    }
  }

  /** Setting an entry's status to cancelled keeps every barber free of double bookings. */
  lemma CancelKeepsNoDoubleBooking(apts: seq<Appointment>, k: nat, reason: string)
    requires NoDoubleBooking(apts) && k < |apts|
    ensures NoDoubleBooking(apts[k := apts[k].(status := Cancelled, cancellationReason := Some(reason))])
  {
  }

  /** The record after `rescheduleAppointment` succeeds. */
  function Moved(a: Appointment, newDate: string, newTime: string): (r: Appointment)
    ensures r.previousSchedule == Some(Schedule(a.date, a.time))
    ensures r.date == newDate && r.time == newTime && r.status == Confirmed
    ensures r.id == a.id && r.barberId == a.barberId && r.duration == a.duration
    ensures r.customerId == a.customerId && r.serviceId == a.serviceId && r.cancellationReason == a.cancellationReason
  {
    a.(previousSchedule := Some(Schedule(a.date, a.time)), date := newDate, time := newTime, status := Confirmed)
  }

  /** Moving an entry to a time that passed `checkAvailability` keeps every barber free of double bookings. */
  lemma {:induction false} RescheduleKeepsNoDoubleBooking(apts: seq<Appointment>, k: nat, holidays: seq<Holiday>, week: Week,
                                                          newDate: string, dow: DayOfWeek, newTime: string)
    requires NoDoubleBooking(apts) && k < |apts|
    requires CheckAvailability(apts, holidays, week, apts[k].barberId, newDate, dow, ParseTime(newTime), apts[k].duration)
    ensures NoDoubleBooking(apts[k := Moved(apts[k], newDate, newTime)])
  {
    var m := Moved(apts[k], newDate, newTime);
    CheckAvailabilityMeans(apts, holidays, week, m.barberId, newDate, dow, ParseTime(newTime), m.duration);
    var s := apts[k := m];
    forall i, j | 0 <= i < |s| && 0 <= j < |s| && i != j
      ensures !Clash(s[i], s[j])
    {
      if j == k {
        assert !Blocks(apts[i], m.barberId, m.date, ParseTime(m.time), m.duration);
      } else if i == k {
        assert !Blocks(apts[j], m.barberId, m.date, ParseTime(m.time), m.duration);
      } else {
        assert s[i] == apts[i] && s[j] == apts[j];
      }
    }
  }

  /**
   * The new slot is checked against a list that still holds the appointment being moved: a live
   * appointment cannot be moved to an overlapping time on its own date (say 30 minutes later
   * when it lasts an hour).
   */
  lemma {:induction false} RescheduleBlockedBySelf(apts: seq<Appointment>, k: nat, holidays: seq<Holiday>, week: Week,
                                                   dow: DayOfWeek, newTime: string)
    requires k < |apts| && Active(apts[k])
    requires Overlaps(ParseTime(apts[k].time), apts[k].duration, ParseTime(newTime), apts[k].duration)
    ensures !CheckAvailability(apts, holidays, week, apts[k].barberId, apts[k].date, dow, ParseTime(newTime), apts[k].duration)
  {
    CheckAvailabilityMeans(apts, holidays, week, apts[k].barberId, apts[k].date, dow, ParseTime(newTime), apts[k].duration);
    assert Blocks(apts[k], apts[k].barberId, apts[k].date, ParseTime(newTime), apts[k].duration);
  }

  /** `findIndex` / `find` by id: the first entry with that id. */
  function FindIndex(apts: seq<Appointment>, id: string): (r: Option<nat>)
    ensures r.Some? ==> r.value < |apts| && apts[r.value].id == id &&
                        forall j :: 0 <= j < r.value ==> apts[j].id != id
    ensures r.None? ==> forall j :: 0 <= j < |apts| ==> apts[j].id != id
  {
    FirstIndex(apts, (a: Appointment) => a.id == id)
  }

  // ---------------------------------------------------------------- validation

  /** The fields `validateAppointmentData` requires, in the order it lists them. */
  const RequiredFields: seq<string> := ["barberId", "customerId", "date", "time", "duration", "serviceId"]

  /** Whether a required field is falsy (`""`, or a duration of 0); any other name is no required field. */
  predicate IsFalsy(d: AppointmentData, field: string)
  {
    match field
    case "barberId" => d.barberId == ""
    case "customerId" => d.customerId == ""
    case "date" => d.date == ""
    case "time" => d.time == ""
    case "duration" => d.duration == 0
    case "serviceId" => d.serviceId == ""
    case _ => false
  }

  /** Where a required field stands in `RequiredFields`. */
  function FieldRank(field: string): nat
  {
    match field
    case "barberId" => 0
    case "customerId" => 1
    case "date" => 2
    case "time" => 3
    case "duration" => 4
    case _ => 5
  }

  /** `fields.filter(field => !data[field])`. */
  function FalsyAmong(d: AppointmentData, fields: seq<string>): (r: seq<string>)
    requires forall i, j :: 0 <= i < j < |fields| ==> FieldRank(fields[i]) < FieldRank(fields[j])
    ensures forall f :: f in r <==> f in fields && IsFalsy(d, f)
    ensures forall i, j :: 0 <= i < j < |r| ==> FieldRank(r[i]) < FieldRank(r[j])
  {
    if fields == [] then []
    else
      var rest := FalsyAmong(d, fields[1..]);
      assert forall f :: f in rest ==> f in fields[1..];
      assert forall f :: f in fields[1..] ==> FieldRank(fields[0]) < FieldRank(f);
      if IsFalsy(d, fields[0]) then [fields[0]] + rest else rest
  }

  /**
   * `required.filter(field => !data[field])`: exactly the required fields that are falsy, each
   * once, in the order of `RequiredFields`.
   */
  function MissingFields(d: AppointmentData): (r: seq<string>)
    ensures forall f :: f in r <==> f in RequiredFields && IsFalsy(d, f)
    ensures forall i, j :: 0 <= i < j < |r| ==> FieldRank(r[i]) < FieldRank(r[j])
  {
    FalsyAmong(d, RequiredFields)
  }

  /** No field is missing exactly when every required field is truthy. */
  lemma NothingMissing(d: AppointmentData)
    ensures MissingFields(d) == [] <==>
      d.barberId != "" && d.customerId != "" && d.date != "" && d.time != "" && d.duration != 0 && d.serviceId != ""
  {
    var r := MissingFields(d);
    if r != [] {
      assert r[0] in r;
    }
    var fs := RequiredFields;
    assert fs[0] == "barberId" && fs[1] == "customerId" && fs[2] == "date";
    assert fs[3] == "time" && fs[4] == "duration" && fs[5] == "serviceId";
    assert forall i :: 0 <= i < |fs| && IsFalsy(d, fs[i]) ==> fs[i] in r;
  }

  /** The `/^\d{4}-\d{2}-\d{2}$/` shape. */
  predicate IsDateShape(s: string)
  {
    |s| == 10 && AllDigits(s[..4]) && s[4] == '-' && AllDigits(s[5..7]) && s[7] == '-' && AllDigits(s[8..])
  }

  const DateFormatError := "Formato de data inválido (YYYY-MM-DD)"
  const TimeFormatError := "Formato de hora inválido (HH:MM)"
  const PastError := "Data e hora devem ser no futuro"

  /**
   * `validateAppointmentData`, as the error it throws: missing fields first, then the date shape,
   * then the time shape, then the future test. `at` is the instant, in milliseconds, that
   * `new Date(`${date} ${time}`)` reads the request as (`None` for an invalid date, which compares
   * false with anything and so passes); `now` is the current instant.
   */
  function ValidateAppointmentData(d: AppointmentData, at: Option<int>, now: int): (r: Option<string>)
    ensures r.None? <==> MissingFields(d) == [] && IsDateShape(d.date) && IsPaddedTime(d.time) && !(at.Some? && at.value <= now)
    ensures r.None? ==> ParseTime(d.time).Some?
    ensures MissingFields(d) != [] ==> r == Some("Campos obrigatórios: " + Join(MissingFields(d), ", "))
    ensures MissingFields(d) == [] && !IsDateShape(d.date) ==> r == Some(DateFormatError)
    ensures MissingFields(d) == [] && IsDateShape(d.date) && !IsPaddedTime(d.time) ==> r == Some(TimeFormatError)
    ensures MissingFields(d) == [] && IsDateShape(d.date) && IsPaddedTime(d.time) && at.Some? && at.value <= now ==>
      r == Some(PastError)
  {
    if MissingFields(d) != [] then Some("Campos obrigatórios: " + Join(MissingFields(d), ", "))
    else if !IsDateShape(d.date) then Some(DateFormatError)
    else if !IsPaddedTime(d.time) then Some(TimeFormatError)
    else if at.Some? && at.value <= now then Some(PastError)
    else
      PaddedTimeParses(d.time);
      None
  }

  // ---------------------------------------------------------------- statistics

  /** `filter(apt => apt.status === status).length`. */
  function CountStatus(apts: seq<Appointment>, status: string): (n: nat)
    ensures n <= |apts|
    ensures n == 0 <==> forall i :: 0 <= i < |apts| ==> apts[i].status != status
  {
    CountWhere(apts, (a: Appointment) => a.status == status)
  }

  datatype Stats = Stats(total: nat, confirmed: nat, completed: nat, cancelled: nat)

  /** The status counts of `getStatistics` over the selected appointments. */
  function Statistics(apts: seq<Appointment>): Stats
  {
    Stats(|apts|, CountStatus(apts, Confirmed), CountStatus(apts, Completed), CountStatus(apts, Cancelled))
  }

  /** Every appointment is counted under at most one status, so the three counts never exceed the total. */
  lemma {:induction false} StatusCountsBounded(apts: seq<Appointment>)
    ensures var s := Statistics(apts); s.confirmed + s.completed + s.cancelled <= s.total
  {
    if apts != [] {
      StatusCountsBounded(apts[1..]);
    }
  }

  // ---------------------------------------------------------------- slots

  datatype Slot = Slot(start: nat, duration: nat)

  /**
   * The slots the loop of `getAvailableSlots` pushes from `cur` on. The loop checks
   * `formatTime(cur)`, which parses back to `cur` (`TimeRoundTrip`).
   */
  function SlotsFrom(cur: nat, apts: seq<Appointment>, holidays: seq<Holiday>, week: Week,
                     barberId: string, date: string, dow: DayOfWeek): (r: seq<Slot>)
    requires week[dow].Open?
    ensures forall i :: 0 <= i < |r| ==> cur <= r[i].start < week[dow].end && r[i].duration == SlotDuration
    ensures forall i, j :: 0 <= i < j < |r| ==> r[i].start < r[j].start
    decreases if cur < week[dow].end then week[dow].end - cur else 0
  {
    if cur >= week[dow].end then []
    else
      var rest := SlotsFrom(cur + SlotDuration, apts, holidays, week, barberId, date, dow);
      if !IsBreakTime(week[dow].breaks, cur) && CheckAvailability(apts, holidays, week, barberId, date, dow, Some(cur), SlotDuration)
      then [Slot(cur, SlotDuration)] + rest
      else rest
  }

  /** `getAvailableSlots`. */
  function AvailableSlots(apts: seq<Appointment>, holidays: seq<Holiday>, week: Week,
                          barberId: string, date: string, dow: DayOfWeek): seq<Slot>
  {
    if week[dow].Closed? || IsHoliday(holidays, date) then []
    else SlotsFrom(week[dow].start, apts, holidays, week, barberId, date, dow)
  }

  /** The slots are exactly the 30-minute steps from `cur` before closing time that are no break start and pass `checkAvailability`. */
  lemma {:induction false} SlotsFromMembership(cur: nat, apts: seq<Appointment>, holidays: seq<Holiday>, week: Week,
                                               barberId: string, date: string, dow: DayOfWeek, s: Slot)
    requires week[dow].Open?
    ensures s in SlotsFrom(cur, apts, holidays, week, barberId, date, dow) <==>
      s.duration == SlotDuration && cur <= s.start < week[dow].end && (s.start - cur) % SlotDuration == 0 &&
      !IsBreakTime(week[dow].breaks, s.start) && CheckAvailability(apts, holidays, week, barberId, date, dow, Some(s.start), SlotDuration)
    decreases if cur < week[dow].end then week[dow].end - cur else 0
  {
    if cur < week[dow].end {
      SlotsFromMembership(cur + SlotDuration, apts, holidays, week, barberId, date, dow, s);
      if s.start > cur {
        assert (s.start - cur) % SlotDuration == 0 <==> s.start >= cur + SlotDuration && (s.start - (cur + SlotDuration)) % SlotDuration == 0;
      }
    }
  }

  /**
   * `getAvailableSlots` is empty on a closed day or a holiday; otherwise its slots are exactly
   * the 30-minute steps from opening time, before closing time, that are no break start and
   * pass `checkAvailability`, and they come in strictly ascending order.
   */
  lemma {:induction false} AvailableSlotsMeans(apts: seq<Appointment>, holidays: seq<Holiday>, week: Week,
                                               barberId: string, date: string, dow: DayOfWeek, s: Slot)
    ensures week[dow].Closed? || IsHoliday(holidays, date) ==> AvailableSlots(apts, holidays, week, barberId, date, dow) == []
    ensures var r := AvailableSlots(apts, holidays, week, barberId, date, dow);
            forall i, j :: 0 <= i < j < |r| ==> r[i].start < r[j].start
    ensures s in AvailableSlots(apts, holidays, week, barberId, date, dow) <==>
      week[dow].Open? && !IsHoliday(holidays, date) &&
      s.duration == SlotDuration && week[dow].start <= s.start < week[dow].end &&
      (s.start - week[dow].start) % SlotDuration == 0 &&
      !IsBreakTime(week[dow].breaks, s.start) && CheckAvailability(apts, holidays, week, barberId, date, dow, Some(s.start), SlotDuration)
  {
    if week[dow].Open? && !IsHoliday(holidays, date) {
      SlotsFromMembership(week[dow].start, apts, holidays, week, barberId, date, dow, s);
    }
  }

  /** Every offered slot ends by closing time and shares no minute with a break. */
  lemma {:induction false} SlotsAvoidBreaks(apts: seq<Appointment>, holidays: seq<Holiday>, week: Week,
                                            barberId: string, date: string, dow: DayOfWeek, s: Slot, i: nat, t: int)
    requires BreaksWellFormed(week[dow])
    requires s in AvailableSlots(apts, holidays, week, barberId, date, dow)
    ensures week[dow].Open? && s.start + s.duration <= week[dow].end
    ensures i < |week[dow].breaks| && Covers(s.start, s.duration, t) ==>
            !(week[dow].breaks[i].start <= t < week[dow].breaks[i].end)
  {
    AvailableSlotsMeans(apts, holidays, week, barberId, date, dow, s);
    WithinWorkingHoursMeans(week[dow], s.start, SlotDuration);
  }

  /** On the default template a free Monday offers 08:00 and 11:30 but neither 12:00 (break) nor 17:30+30 past closing. */
  lemma DefaultMondayExample(barberId: string, date: string)
    requires !IsHoliday([], date)
    ensures Slot(480, 30) in AvailableSlots([], [], DefaultWeek, barberId, date, 1)
    ensures Slot(690, 30) in AvailableSlots([], [], DefaultWeek, barberId, date, 1)
    ensures Slot(720, 30) !in AvailableSlots([], [], DefaultWeek, barberId, date, 1)
    ensures Slot(1050, 30) in AvailableSlots([], [], DefaultWeek, barberId, date, 1)
    ensures AvailableSlots([], [], DefaultWeek, barberId, date, 0) == []
  {
    AvailableSlotsMeans([], [], DefaultWeek, barberId, date, 1, Slot(480, 30));
    AvailableSlotsMeans([], [], DefaultWeek, barberId, date, 1, Slot(690, 30));
    AvailableSlotsMeans([], [], DefaultWeek, barberId, date, 1, Slot(720, 30));
    AvailableSlotsMeans([], [], DefaultWeek, barberId, date, 1, Slot(1050, 30));
    assert !HitsBreak([Break(720, 780)], 480, 30);
    assert !HitsBreak([Break(720, 780)], 690, 30);
    assert !HitsBreak([Break(720, 780)], 1050, 30);
    assert !IsBreakTime([Break(720, 780)], 480);
    assert !IsBreakTime([Break(720, 780)], 690);
    assert !IsBreakTime([Break(720, 780)], 1050);
    assert [Break(720, 780)][0].start <= 720 < [Break(720, 780)][0].end;
  }

  /** Every stored appointment's time parses: no `NaN` start in the list. */
  predicate TimesParse(apts: seq<Appointment>)
  {
    forall i :: 0 <= i < |apts| ==> ParseTime(apts[i].time).Some?
  }

  /**
   * An unparsable time is available on every open day that is no holiday, whatever is booked:
   * `NaN` fails every comparison of `isWithinWorkingHours` and `hasTimeConflict`. The source's
   * reschedule passes such a time straight to `checkAvailability` and stores it.
   */
  lemma UnparsableTimeAvailable(apts: seq<Appointment>, holidays: seq<Holiday>, week: Week,
                                barberId: string, date: string, dow: DayOfWeek, duration: int)
    ensures ParseTime("abc").None?
    ensures CheckAvailability(apts, holidays, week, barberId, date, dow, ParseTime("abc"), duration) <==>
      !IsHoliday(holidays, date) && week[dow].Open?
  {
    assert ':' !in "abc";
    CheckAvailabilityMeans(apts, holidays, week, barberId, date, dow, None, duration);
  }

  // ---------------------------------------------------------------- the service

  /** `CalendarService`: the appointment list, the holidays and the weekly template. */
  class CalendarService {
    var appointments: seq<Appointment>
    var holidays: seq<Holiday>
    var workingHours: Week

    /** A service over the given holidays, with no appointments and the default template. */
    constructor (holidays: seq<Holiday>)
      ensures appointments == [] && this.holidays == holidays && workingHours == DefaultWeek
    {
      appointments := [];
      this.holidays := holidays;
      workingHours := DefaultWeek;
    }

    /**
     * `bookAppointment`: validates, checks availability, then appends one confirmed record with
     * the caller's fields and time string. `dow` is the day of the week of `data.date`, `at` the
     * instant the date and time stand for and `now` the clock; `id` is the generated id, which a
     * caller's own `id` field replaces.
     */
    method BookAppointment(data: AppointmentData, dow: DayOfWeek, at: Option<int>, now: int, id: string)
      returns (r: Result<Appointment>)
      modifies this`appointments
      ensures ValidateAppointmentData(data, at, now).Some? ==> r == Err(ValidateAppointmentData(data, at, now).value)
      ensures ValidateAppointmentData(data, at, now).None? ==>
        if CheckAvailability(old(appointments), holidays, workingHours, data.barberId, data.date, dow, ParseTime(data.time), data.duration)
        then r == Ok(Appointment(data.id.GetOr(id), data.barberId, data.customerId, data.serviceId, data.date, data.time,
                                 data.duration, Confirmed, None, None))
        else r == Err("Horário não disponível")
      ensures appointments == if r.Ok? then old(appointments) + [r.value] else old(appointments)
      ensures old(NoDoubleBooking(appointments)) ==> NoDoubleBooking(appointments)
      ensures old(TimesParse(appointments)) ==> TimesParse(appointments)
    {
      var invalid := ValidateAppointmentData(data, at, now);
      if invalid.Some? {
        return Err(invalid.value);
      }
      var available := CheckAvailability(appointments, holidays, workingHours, data.barberId, data.date, dow,
                                         ParseTime(data.time), data.duration);
      if !available {
        return Err("Horário não disponível");
      }
      var a := Appointment(data.id.GetOr(id), data.barberId, data.customerId, data.serviceId, data.date, data.time,
                           data.duration, Confirmed, None, None);
      var before := appointments;
      if NoDoubleBooking(before) {
        BookingKeepsNoDoubleBooking(before, a, holidays, workingHours, dow);
      }
      appointments := before + [a];
      r := Ok(a);
    }

    /** `cancelAppointment`: the first record with this id becomes cancelled, with the reason kept. */
    method CancelAppointment(id: string, reason: string) returns (r: Result<Appointment>)
      modifies this`appointments
      ensures FindIndex(old(appointments), id).None? ==> r == Err("Agendamento não encontrado") && appointments == old(appointments)
      ensures FindIndex(old(appointments), id).Some? ==>
        var k := FindIndex(old(appointments), id).value;
        var c := old(appointments)[k].(status := Cancelled, cancellationReason := Some(reason));
        r == Ok(c) && appointments == old(appointments)[k := c]
      ensures old(NoDoubleBooking(appointments)) ==> NoDoubleBooking(appointments)
    {
      var k := FindIndex(appointments, id);
      if k.None? {
        return Err("Agendamento não encontrado");
      }
      var c := appointments[k.value].(status := Cancelled, cancellationReason := Some(reason));
      if NoDoubleBooking(appointments) {
        CancelKeepsNoDoubleBooking(appointments, k.value, reason);
      }
      appointments := appointments[k.value := c];
      r := Ok(c);
    }

    /**
     * `rescheduleAppointment`: the first record with this id moves to the new date and time if
     * that passes `checkAvailability` against the current list, which still holds the record.
     * The new time is stored as given: it is never checked for the `HH:MM` shape.
     */
    method RescheduleAppointment(id: string, newDate: string, newDow: DayOfWeek, newTime: string) returns (r: Result<Appointment>)
      modifies this`appointments
      ensures FindIndex(old(appointments), id).None? ==> r == Err("Agendamento não encontrado") && appointments == old(appointments)
      ensures FindIndex(old(appointments), id).Some? ==>
        var k := FindIndex(old(appointments), id).value;
        var a := old(appointments)[k];
        if CheckAvailability(old(appointments), holidays, workingHours, a.barberId, newDate, newDow, ParseTime(newTime), a.duration)
        then r == Ok(Moved(a, newDate, newTime)) && appointments == old(appointments)[k := Moved(a, newDate, newTime)]
        else r == Err("Novo horário não disponível") && appointments == old(appointments)
      ensures old(NoDoubleBooking(appointments)) ==> NoDoubleBooking(appointments)
    {
      var k := FindIndex(appointments, id);
      if k.None? {
        return Err("Agendamento não encontrado");
      }
      var a := appointments[k.value];
      if !CheckAvailability(appointments, holidays, workingHours, a.barberId, newDate, newDow, ParseTime(newTime), a.duration) {
        return Err("Novo horário não disponível");
      }
      if NoDoubleBooking(appointments) {
        RescheduleKeepsNoDoubleBooking(appointments, k.value, holidays, workingHours, newDate, newDow, newTime);
      }
      var m := Moved(a, newDate, newTime);
      appointments := appointments[k.value := m];
      r := Ok(m);
    }

    /**
     * The reschedule with the new time checked as `validateAppointmentData` checks a booking's:
     * a time that is not `HH:MM` is refused, so every stored time keeps parsing.
     */
    method CorrectedRescheduleAppointment(id: string, newDate: string, newDow: DayOfWeek, newTime: string)
      returns (r: Result<Appointment>)
      modifies this`appointments
      ensures !IsPaddedTime(newTime) ==> r == Err(TimeFormatError) && appointments == old(appointments)
      ensures IsPaddedTime(newTime) && FindIndex(old(appointments), id).None? ==>
        r == Err("Agendamento não encontrado") && appointments == old(appointments)
      ensures IsPaddedTime(newTime) && FindIndex(old(appointments), id).Some? ==>
        var k := FindIndex(old(appointments), id).value;
        var a := old(appointments)[k];
        if CheckAvailability(old(appointments), holidays, workingHours, a.barberId, newDate, newDow, ParseTime(newTime), a.duration)
        then r == Ok(Moved(a, newDate, newTime)) && appointments == old(appointments)[k := Moved(a, newDate, newTime)]
        else r == Err("Novo horário não disponível") && appointments == old(appointments)
      ensures old(NoDoubleBooking(appointments)) ==> NoDoubleBooking(appointments)
      ensures old(TimesParse(appointments)) ==> TimesParse(appointments)
    {
      if !IsPaddedTime(newTime) {
        return Err(TimeFormatError);
      }
      ghost var before := appointments;
      PaddedTimeParses(newTime);
      r := RescheduleAppointment(id, newDate, newDow, newTime);
      if r.Ok? && TimesParse(before) {
        var k := FindIndex(before, id).value;
        assert appointments == before[k := Moved(before[k], newDate, newTime)];
      }
    }

    /** `getAvailableSlots`: the loop over `currentTime` from opening time in 30-minute steps. */
    method GetAvailableSlots(barberId: string, date: string, dow: DayOfWeek) returns (slots: seq<Slot>)
      ensures slots == AvailableSlots(appointments, holidays, workingHours, barberId, date, dow)
    {
      var day := workingHours[dow];
      if day.Closed? || IsHoliday(holidays, date) {
        return [];
      }
      slots := [];
      var cur := day.start;
      while cur < day.end
        invariant slots + SlotsFrom(cur, appointments, holidays, workingHours, barberId, date, dow) ==
                  SlotsFrom(day.start, appointments, holidays, workingHours, barberId, date, dow)
        decreases day.end - cur
      {
        var isBreak := IsBreakTime(day.breaks, cur);
        if !isBreak && CheckAvailability(appointments, holidays, workingHours, barberId, date, dow, Some(cur), SlotDuration) {
          slots := slots + [Slot(cur, SlotDuration)];
        }
        cur := cur + SlotDuration;
      }
    }
  }
}
