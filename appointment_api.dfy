/**
 * The server-side appointment rules: the slot generator of `getBarberAvailability`, which works
 * on time strings and removes a slot only when its string equals a booked time; the exact-time
 * conflict rule and the created record of `createAppointment`; the status whitelist of
 * `updateAppointmentStatus`; and the rules of `cancelAppointment`.
 *
 * The database is replaced by its rows: the appointment rows, and the barber and service rows the
 * queries would find (`None` when a query returns no row).
 */
module AppointmentApi {
  import opened Wrappers
  import opened Strings
  import opened Sequences
  import opened Calendar
  import opened ErrorResponses

  // ---------------------------------------------------------------- the slot cursor

  /** The hour a padded time spells. */
  function Hours(s: string): nat
    requires IsPaddedTime(s)
  {
    DigitValue(s[0]) * 10 + DigitValue(s[1])
  }

  /** The minute field a padded time spells. */
  function Minutes(s: string): nat
    requires IsPaddedTime(s)
  {
    DigitValue(s[3]) * 10 + DigitValue(s[4])
  }

  /** A zero-padded `HH:MM` cursor whose minutes are below 60, as the loop writes it. */
  predicate CursorShape(s: string)
  {
    IsPaddedTime(s) && Minutes(s) < 60
  }

  /** A clock time `HH:MM` with hours below 24 and minutes below 60. */
  predicate ClockShape(s: string)
  {
    CursorShape(s) && Hours(s) < 24
  }

  /** The minutes since midnight a padded time stands for. */
  function Value(s: string): nat
    requires IsPaddedTime(s)
  {
    Hours(s) * 60 + Minutes(s)
  }

  lemma LexLessStep(a: string, b: string)
    requires a != [] && b != []
    ensures LexLess(a, b) == if a[0] != b[0] then a[0] < b[0] else LexLess(a[1..], b[1..])
  {
  }

  /** A padded time parses to its `Value`. */
  lemma PaddedValue(s: string)
    requires IsPaddedTime(s)
    ensures ParseTime(s) == Some(Value(s))
  {
    PaddedTimeParses(s);
    TwoDigits(s[..2]);
    TwoDigits(s[3..]);
  }

  /** On padded times, JavaScript's string `<` compares hours first, then minutes. */
  lemma {:induction false} LexLessPadded(a: string, b: string)
    requires IsPaddedTime(a) && IsPaddedTime(b)
    ensures LexLess(a, b) <==> Hours(a) < Hours(b) || (Hours(a) == Hours(b) && Minutes(a) < Minutes(b))
  {
    LexLessStep(a, b);
    LexLessStep(a[1..], b[1..]);
    LexLessStep(a[2..], b[2..]);
    LexLessStep(a[3..], b[3..]);
    LexLessStep(a[4..], b[4..]);
    assert a[1..][1..] == a[2..] && b[1..][1..] == b[2..];
    assert a[2..][1..] == a[3..] && b[2..][1..] == b[3..];
    assert a[3..][1..] == a[4..] && b[3..][1..] == b[4..];
    assert a[4..][1..] == [] && b[4..][1..] == [];
  }

  /** On cursors, the string `<` is the `<` of the minutes they stand for. */
  lemma LexLessCursor(a: string, b: string)
    requires CursorShape(a) && CursorShape(b)
    ensures LexLess(a, b) <==> Value(a) < Value(b)
  {
    LexLessPadded(a, b);
  }

  /** `formatTime` of a time below 100 hours is a cursor that stands for that time. */
  lemma FormatTimeValue(m: nat)
    requires m < 6000
    ensures CursorShape(FormatTime(m)) && Value(FormatTime(m)) == m
  {
    FormatTimeFields(m);
    var r := FormatTime(m);
    assert r[..2] == r[..|r| - 3] && r[3..] == r[|r| - 2..];
    TwoDigits(r[..2]);
    TwoDigits(r[3..]);
  }

  /** A cursor is the `formatTime` of the time it stands for: the loop's strings are canonical. */
  lemma CursorIsFormatted(s: string)
    requires CursorShape(s)
    ensures FormatTime(Value(s)) == s
  {
    var m := Value(s);
    FormatTimeValue(m);
    var r := FormatTime(m);
    assert Hours(r) == Hours(s) && Minutes(r) == Minutes(s);
    assert r[0] == s[0] && r[1] == s[1] && r[3] == s[3] && r[4] == s[4];
  }

  /** The measure of the loop: minutes left before the end while the cursor is below it. */
  function Remaining(cur: string, end: string): nat
    requires IsPaddedTime(cur) && IsPaddedTime(end)
  {
    if LexLess(cur, end) && Value(cur) < Value(end) then Value(end) - Value(cur) else 0
  }

  /** Two cursors that stand for the same time are the same string. */
  lemma CursorsByValue(a: string, b: string)
    requires CursorShape(a) && CursorShape(b) && Value(a) == Value(b)
    ensures a == b
  {
    assert Hours(a) == Hours(b) && Minutes(a) == Minutes(b);
    assert a[0] == b[0] && a[1] == b[1] && a[3] == b[3] && a[4] == b[4];
  }

  /** A booked string spells minute `m` exactly as the loop writes it: zero-padded `HH:MM`. */
  predicate SpelledIn(booked: seq<string>, m: nat)
  {
    exists i :: 0 <= i < |booked| && CursorShape(booked[i]) && Value(booked[i]) == m
  }

  /** `bookedTimes.includes(cur)` for a cursor: some booked string spells its time. */
  lemma CursorBooked(cur: string, booked: seq<string>)
    requires CursorShape(cur)
    ensures cur in booked <==> SpelledIn(booked, Value(cur))
  {
    if SpelledIn(booked, Value(cur)) {
      var i :| 0 <= i < |booked| && CursorShape(booked[i]) && Value(booked[i]) == Value(cur);
      CursorsByValue(cur, booked[i]);
    }
    if cur in booked {
      var i :| 0 <= i < |booked| && booked[i] == cur;
    }
  }

  /**
   * The minutes the loop of `getBarberAvailability` offers from minute `v` below minute `e`:
   * `v`, `v + 30`, ..., except those that a booked string spells exactly.
   */
  function FreeMinutes(v: nat, e: nat, booked: seq<string>): seq<nat>
    decreases if v < e then e - v else 0
  {
    if e <= v then []
    else if SpelledIn(booked, v) then FreeMinutes(v + 30, e, booked)
    else [v] + FreeMinutes(v + 30, e, booked)
  }

  /** The minutes offered among the first `n` grid times from `v`: the loop's output after `n` turns. */
  function FreeMinutesUpTo(v: nat, n: nat, booked: seq<string>): seq<nat>
  {
    if n == 0 then []
    else if SpelledIn(booked, v + 30 * (n - 1)) then FreeMinutesUpTo(v, n - 1, booked)
    else FreeMinutesUpTo(v, n - 1, booked) + [v + 30 * (n - 1)]
  }

  lemma AppendAssoc(a: seq<nat>, b: seq<nat>, c: seq<nat>)
    ensures a + (b + c) == (a + b) + c
  {
  }

  /** What grid minute `m` contributes: itself, unless a booked string spells it. */
  function Offered(m: nat, booked: seq<string>): seq<nat>
  {
    if SpelledIn(booked, m) then [] else [m]
  }

  lemma FreeMinutesStep(m: nat, e: nat, booked: seq<string>)
    requires m < e
    ensures FreeMinutes(m, e, booked) == Offered(m, booked) + FreeMinutes(m + 30, e, booked)
  {
    if SpelledIn(booked, m) {
      assert [] + FreeMinutes(m + 30, e, booked) == FreeMinutes(m + 30, e, booked);
    }
  }

  lemma UpToStep(v: nat, k: nat, booked: seq<string>)
    requires k > 0
    ensures FreeMinutesUpTo(v, k, booked) == FreeMinutesUpTo(v, k - 1, booked) + Offered(v + 30 * (k - 1), booked)
  {
    if SpelledIn(booked, v + 30 * (k - 1)) {
      assert FreeMinutesUpTo(v, k - 1, booked) + [] == FreeMinutesUpTo(v, k - 1, booked);
    }
  }

  /** The minutes from `v` are those of the first `k` grid times followed by those from `v + 30 * k`. */
  lemma {:induction false} MinutesSplit(v: nat, e: nat, booked: seq<string>, k: nat)
    requires k == 0 || v + 30 * (k - 1) < e
    ensures FreeMinutes(v, e, booked) == FreeMinutesUpTo(v, k, booked) + FreeMinutes(v + 30 * k, e, booked)
  {
    if k > 0 {
      MinutesSplit(v, e, booked, k - 1);
      var m := v + 30 * (k - 1);
      assert m + 30 == v + 30 * k;
      FreeMinutesStep(m, e, booked);
      UpToStep(v, k, booked);
      AppendAssoc(FreeMinutesUpTo(v, k - 1, booked), Offered(m, booked), FreeMinutes(m + 30, e, booked));
    } else {
      assert [] + FreeMinutes(v, e, booked) == FreeMinutes(v, e, booked);
    }
  }

  /** Every element is a zero-padded `HH:MM` with minutes below 60. */
  predicate AllCursors(s: seq<string>)
  {
    forall i :: 0 <= i < |s| ==> CursorShape(s[i])
  }

  /** The minutes a list of cursors stands for. */
  function Values(s: seq<string>): seq<nat>
    requires AllCursors(s)
  {
    seq(|s|, i requires 0 <= i < |s| => Value(s[i]))
  }

  /** Lists of cursors standing for the same minutes are the same list: `Values` pins the strings down. */
  lemma CursorsDetermined(a: seq<string>, b: seq<string>)
    requires AllCursors(a) && AllCursors(b) && Values(a) == Values(b)
    ensures a == b
  {
    forall i | 0 <= i < |a| ensures a[i] == b[i] {
      assert Values(a)[i] == Values(b)[i];
      CursorsByValue(a[i], b[i]);
    }
  }

  /** A cursor 30 minutes on is nearer the end. */
  lemma RemainingDecreases(cur: string, next: string, end: string)
    requires CursorShape(cur) && CursorShape(next) && ClockShape(end) && LexLess(cur, end)
    requires Value(next) == Value(cur) + 30
    ensures Remaining(next, end) < Remaining(cur, end)
  {
    LexLessCursor(cur, end);
    LexLessCursor(next, end);
  }

  /** Below the end, a cursor has room for 30 more minutes within 100 hours. */
  lemma BelowEnd(cur: string, end: string)
    requires CursorShape(cur) && ClockShape(end) && LexLess(cur, end)
    ensures Value(cur) < Value(end) && Value(cur) + 30 < 6000
  {
    LexLessCursor(cur, end);
  }

  /** The step of the loop: split at the colon, add 30 minutes, zero-pad hours and minutes. */
  method AddHalfHour(cur: string) returns (next: string)
    requires CursorShape(cur) && Value(cur) + 30 < 6000
    ensures CursorShape(next) && Value(next) == Value(cur) + 30
  {
    PaddedValue(cur);
    var total := ParseTime(cur).value + 30;
    FormatTimeValue(total);
    next := FormatTime(total);
  }

  /**
   * The loop of `getBarberAvailability`, from the day's `start` while the cursor is below `end`
   * by string `<`: the result is the list of cursors standing for `FreeMinutes`.
   */
  method GenerateSlots(start: string, end: string, booked: seq<string>) returns (slots: seq<string>)
    requires CursorShape(start) && ClockShape(end)
    ensures AllCursors(slots) && Values(slots) == FreeMinutes(Value(start), Value(end), booked)
  {
    slots := [];
    var cur := start;
    ghost var n: nat := 0;
    while LexLess(cur, end)
      invariant CursorShape(cur) && Value(cur) == Value(start) + 30 * n
      invariant n == 0 || Value(start) + 30 * (n - 1) < Value(end)
      invariant AllCursors(slots) && Values(slots) == FreeMinutesUpTo(Value(start), n, booked)
      decreases Remaining(cur, end)
    {
      BelowEnd(cur, end);
      CursorBooked(cur, booked);
      if cur !in booked {
        assert Values(slots + [cur]) == Values(slots) + [Value(cur)];
        slots := slots + [cur];
      }
      var next := AddHalfHour(cur);
      RemainingDecreases(cur, next, end);
      cur, n := next, n + 1;
    }
    LexLessCursor(cur, end);
    MinutesSplit(Value(start), Value(end), booked, n);
    assert Values(slots) + [] == Values(slots);
  }

  /** On the 30-minute grid from `v`: `m` is `v`, `v + 30`, ... */
  predicate OnGrid(v: nat, m: nat)
  {
    v <= m && (m - v) % 30 == 0
  }

  lemma GridStep(v: nat, m: nat)
    requires OnGrid(v, m) && m != v
    ensures OnGrid(v + 30, m)
  {
  }

  lemma GridBack(v: nat, m: nat)
    requires OnGrid(v + 30, m)
    ensures OnGrid(v, m)
  {
  }

  predicate Increasing(s: seq<nat>)
  {
    forall i, j :: 0 <= i < j < |s| ==> s[i] < s[j]
  }

  /** A minute is offered iff it is on the grid from `v`, below `e`, and no booked string spells it. */
  lemma {:induction false} FreeMinutesMeans(v: nat, e: nat, booked: seq<string>, m: nat)
    ensures m in FreeMinutes(v, e, booked) <==> OnGrid(v, m) && m < e && !SpelledIn(booked, m)
    decreases if v < e then e - v else 0
  {
    if v < e {
      FreeMinutesMeans(v + 30, e, booked, m);
      if OnGrid(v + 30, m) {
        GridBack(v, m);
      }
      if OnGrid(v, m) && m != v {
        GridStep(v, m);
      }
    }
  }

  /** The offered minutes strictly increase. */
  lemma {:induction false} FreeMinutesIncreasing(v: nat, e: nat, booked: seq<string>)
    ensures Increasing(FreeMinutes(v, e, booked))
    decreases if v < e then e - v else 0
  {
    if v < e {
      FreeMinutesIncreasing(v + 30, e, booked);
      var rest := FreeMinutes(v + 30, e, booked);
      if !SpelledIn(booked, v) {
        forall j | 0 <= j < |rest| ensures v < rest[j] {
          FreeMinutesMeans(v + 30, e, booked, rest[j]);
        }
        var r := [v] + rest;
        forall i, j | 0 <= i < j < |r| ensures r[i] < r[j] {
          assert r[j] == rest[j - 1];
          if i > 0 {
            assert r[i] == rest[i - 1];
          }
        }
      }
    }
  }

  /**
   * What the generated slots mean: a string is offered iff it is a zero-padded `HH:MM` on the
   * 30-minute grid from the day's start, below its end by string `<`, and not itself a booked
   * string; the slots ascend by string `<`.
   */
  lemma SlotsMeans(slots: seq<string>, start: string, end: string, booked: seq<string>, s: string)
    requires CursorShape(start) && ClockShape(end)
    requires AllCursors(slots) && Values(slots) == FreeMinutes(Value(start), Value(end), booked)
    ensures s in slots <==> CursorShape(s) && OnGrid(Value(start), Value(s)) && LexLess(s, end) && s !in booked
    ensures forall i, j :: 0 <= i < j < |slots| ==> LexLess(slots[i], slots[j])
  {
    var free := FreeMinutes(Value(start), Value(end), booked);
    if s in slots {
      var i :| 0 <= i < |slots| && slots[i] == s;
      assert free[i] == Value(s);
      FreeMinutesMeans(Value(start), Value(end), booked, Value(s));
      CursorBooked(s, booked);
      LexLessCursor(s, end);
    }
    if CursorShape(s) && OnGrid(Value(start), Value(s)) && LexLess(s, end) && s !in booked {
      LexLessCursor(s, end);
      CursorBooked(s, booked);
      FreeMinutesMeans(Value(start), Value(end), booked, Value(s));
      var i :| 0 <= i < |free| && free[i] == Value(s);
      assert Values(slots)[i] == Value(slots[i]);
      CursorsByValue(slots[i], s);
    }
    FreeMinutesIncreasing(Value(start), Value(end), booked);
    forall i, j | 0 <= i < j < |slots| ensures LexLess(slots[i], slots[j]) {
      assert Values(slots)[i] == Value(slots[i]) && Values(slots)[j] == Value(slots[j]);
      LexLessCursor(slots[i], slots[j]);
    }
  }

  // ---------------------------------------------------------------- the unpadded-end finding

  /**
   * A stored end without its leading zero, such as `"9:00"`, lies above every cursor the loop can
   * form by string `<`: a cursor starts with two digits, and `'9'` ties at most the first of them.
   * The loop's condition never fails and the request never gets an answer.
   */
  lemma UnpaddedEndNeverReached(m: nat)
    ensures LexLess(FormatTime(m), "9:00")
  {
    Pad2Value(m / 60);
    var h := Pad2(m / 60);
    var r := FormatTime(m);
    assert r == h + ":" + Pad2(m % 60);
    assert r[0] == h[0] && r[1] == h[1];
    assert IsDigit(h[0]) && IsDigit(h[1]);
    if r[0] == '9' {
      assert LexLess(r[1..], ":00");
    }
  }

  /** The slot loop run while the cursor's minutes are below `e`. */
  method SlotsBelow(start: string, e: nat, booked: seq<string>) returns (slots: seq<string>)
    requires CursorShape(start) && e <= 24 * 60
    ensures AllCursors(slots) && Values(slots) == FreeMinutes(Value(start), e, booked)
  {
    slots := [];
    var cur := start;
    ghost var n: nat := 0;
    while Value(cur) < e
      invariant CursorShape(cur) && Value(cur) == Value(start) + 30 * n
      invariant n == 0 || Value(start) + 30 * (n - 1) < e
      invariant AllCursors(slots) && Values(slots) == FreeMinutesUpTo(Value(start), n, booked)
      decreases e - Value(cur)
    {
      CursorBooked(cur, booked);
      if cur !in booked {
        assert Values(slots + [cur]) == Values(slots) + [Value(cur)];
        slots := slots + [cur];
      }
      var next := AddHalfHour(cur);
      cur, n := next, n + 1;
    }
    MinutesSplit(Value(start), e, booked, n);
    assert Values(slots) + [] == Values(slots);
  }

  /**
   * The slot loop with the cursor compared with the end as minutes, so that an end written without
   * its leading zero still stops it: the slots stand for the free grid minutes below the end.
   */
  method CorrectedGenerateSlots(start: string, end: string, booked: seq<string>) returns (slots: seq<string>)
    requires CursorShape(start) && ParseTime(end).Some? && ParseTime(end).value <= 24 * 60
    ensures AllCursors(slots) && Values(slots) == FreeMinutes(Value(start), ParseTime(end).value, booked)
  {
    slots := SlotsBelow(start, ParseTime(end).value, booked);
  }

  // ---------------------------------------------------------------- the exact-time finding

  /**
   * The `TIME` column comes back as `"HH:MM:SS"`: a live booking stored as `"14:00:00"` leaves
   * the 14:00 slot on offer, because `"14:00" != "14:00:00"`.
   */
  lemma SecondsKeepBookedSlot()
    ensures FreeMinutes(840, 900, ["14:00:00"]) == [840, 870]
  {
    assert !SpelledIn(["14:00:00"], 840) && !SpelledIn(["14:00:00"], 870);
  }

  /** A stored `TIME` value: `"HH:MM"` or `"HH:MM:SS"`, zero-padded, minutes below 60. */
  predicate TimeColumn(b: string)
  {
    CursorShape(b) || (|b| == 8 && CursorShape(b[..5]) && b[5] == ':' && IsDigit(b[6]) && IsDigit(b[7]))
  }

  /** A booked time, compared as the minutes it stands for. */
  predicate BookedAt(booked: seq<string>, minutes: nat)
  {
    exists i :: 0 <= i < |booked| && ParseTime(booked[i]) == Some(minutes)
  }

  /** `appointment_time.substring(0, 5)` of each booked time. */
  function TrimSeconds(booked: seq<string>): (r: seq<string>)
    ensures |r| == |booked|
  {
    seq(|booked|, i requires 0 <= i < |booked| => if |booked[i]| <= 5 then booked[i] else booked[i][..5])
  }

  /** The generator with the booked times cut to `HH:MM` before the comparison. */
  function CorrectedFreeMinutes(v: nat, e: nat, booked: seq<string>): seq<nat>
  {
    FreeMinutes(v, e, TrimSeconds(booked))
  }

  /** A `TIME` value `"HH:MM:SS"` reads as its `"HH:MM"` prefix: `split(':')` keeps the first two fields. */
  lemma SecondsFormParses(s: string)
    requires |s| == 8 && IsPaddedTime(s[..5]) && s[5] == ':' && IsDigit(s[6]) && IsDigit(s[7])
    ensures ParseTime(s) == ParseTime(s[..5])
  {
    var p, rest := s[..5], s[3..];
    assert FirstField(s, ':') == s[..2] && RestAfter(s, ':') == Some(rest) by {
      assert ':' !in s[..2];
      SplitAt(s, ':', 2);
    }
    assert FirstField(p, ':') == s[..2] && RestAfter(p, ':') == Some(rest[..2]) by {
      assert ':' !in p[..2];
      SplitAt(p, ':', 2);
      assert p[..2] == s[..2] && p[3..] == rest[..2];
    }
    assert FirstField(rest, ':') == rest[..2] && FirstField(rest[..2], ':') == rest[..2] by {
      assert ':' !in rest[..2];
      SplitAt(rest, ':', 2);
    }
    SameFieldsSameTime(s, p);
  }

  /** `parseTime` reads only the first field and the first field after the first colon. */
  lemma SameFieldsSameTime(s: string, p: string)
    requires RestAfter(s, ':').Some? && RestAfter(p, ':').Some?
    requires FirstField(s, ':') == FirstField(p, ':')
    requires FirstField(RestAfter(s, ':').value, ':') == FirstField(RestAfter(p, ':').value, ':')
    ensures ParseTime(s) == ParseTime(p)
  {
  }

  /** Once trimmed, a stored time spells exactly the minute it parses to. */
  lemma TrimmedSpells(booked: seq<string>, m: nat)
    requires forall i :: 0 <= i < |booked| ==> TimeColumn(booked[i])
    ensures SpelledIn(TrimSeconds(booked), m) <==> BookedAt(booked, m)
  {
    var t := TrimSeconds(booked);
    forall i | 0 <= i < |booked|
      ensures CursorShape(t[i]) && ParseTime(booked[i]) == Some(Value(t[i]))
    {
      var b := booked[i];
      if CursorShape(b) {
        PaddedValue(b);
      } else {
        SecondsFormParses(b);
        PaddedValue(b[..5]);
      }
    }
  }

  /**
   * With the booked times trimmed, a minute is offered iff it is on the grid from `v`, below `e`,
   * and no live booking, stored with or without seconds, parses to it.
   */
  lemma CorrectedFreeMinutesMeans(v: nat, e: nat, booked: seq<string>, m: nat)
    requires forall i :: 0 <= i < |booked| ==> TimeColumn(booked[i])
    ensures m in CorrectedFreeMinutes(v, e, booked) <==> OnGrid(v, m) && m < e && !BookedAt(booked, m)
  {
    FreeMinutesMeans(v, e, TrimSeconds(booked), m);
    TrimmedSpells(booked, m);
  }

  /** The corrected generator does remove the 14:00 slot of a booking stored as `"14:00:00"`. */
  lemma CorrectedRemovesSecondsBooking()
    ensures CorrectedFreeMinutes(840, 900, ["14:00:00"]) == [870]
  {
    var t := TrimSeconds(["14:00:00"]);
    assert t[0] == "14:00:00"[..5] == "14:00";
    assert SpelledIn(t, 840) by {
      assert CursorShape(t[0]) && Value(t[0]) == 840;
    }
    assert !SpelledIn(t, 870);
  }

  // ---------------------------------------------------------------- rows and replies

  datatype AppointmentRow = AppointmentRow(
    id: int, clientId: int, barberId: int, serviceId: int,
    date: string, time: string, status: string, totalPrice: int)

  datatype BarberRecord = BarberRecord(name: string, isAvailable: bool)

  datatype ServiceRecord = ServiceRecord(price: int)

  /** One entry of a barber's `working_hours` object. */
  datatype DayEntry = DayEntry(closed: bool, start: string, end: string)

  /** A JSON reply: the HTTP status, the message, and the slots or created record it carries. */
  datatype Reply = Reply(status: nat, message: string, slots: seq<string>, created: Option<AppointmentRow>)

  function Plain(status: nat, message: string): Reply { Reply(status, message, [], None) }

  const CancelledStatus := "cancelado"
  const CompletedStatus := "concluido"

  /** A row of this barber on this date whose status is not `'cancelado'`. */
  predicate Live(row: AppointmentRow, barberId: int, date: string)
  {
    row.barberId == barberId && row.date == date && row.status != CancelledStatus
  }

  /** `bookedTimes`: the `appointment_time` of each live row of the barber on the date. */
  function BookedTimes(rows: seq<AppointmentRow>, barberId: int, date: string): (r: seq<string>)
    ensures forall t :: t in r <==> exists row :: row in rows && Live(row, barberId, date) && row.time == t
  {
    if rows == [] then []
    else
      var rest := BookedTimes(rows[1..], barberId, date);
      assert forall row :: row in rows <==> row == rows[0] || row in rows[1..];
      (if Live(rows[0], barberId, date) then [rows[0].time] else []) + rest
  }

  /** An open day entry has clock-shaped hours, as the stored templates do. */
  predicate DayShapeOk(day: DayEntry)
  {
    !day.closed ==> CursorShape(day.start) && ClockShape(day.end)
  }

  /** Every entry of a barber's `working_hours` is shaped as `DayShapeOk` says. */
  predicate HoursShapeOk(workingHours: map<string, DayEntry>)
  {
    forall k :: k in workingHours ==> DayShapeOk(workingHours[k])
  }

  /**
   * The `working_hours` column as the driver hands it over: SQL `NULL`; text holding the JSON of a
   * template (what the controller expects); or, for a `JSON` column read without `jsonStrings`,
   * the already decoded object.
   */
  datatype HoursColumn = NullHours | TextHours(hours: map<string, DayEntry>) | ObjectHours(hours: map<string, DayEntry>)

  /** Every template the column holds is shaped as `HoursShapeOk` says. */
  predicate ColumnShapeOk(column: HoursColumn)
  {
    !column.NullHours? ==> HoursShapeOk(column.hours)
  }

  /**
   * The message of the `SyntaxError` of `JSON.parse` on an object, which it first turns into the
   * text `[object Object]`.
   */
  const ObjectParseError := "\"[object Object]\" is not valid JSON"

  /**
   * `JSON.parse(barber.working_hours || '{}')`: `NULL` gives the empty template and text its
   * decoded template; an object is a `SyntaxError`.
   */
  function ParseHours(column: HoursColumn): (r: Result<map<string, DayEntry>>)
    ensures column.NullHours? ==> r == Ok(map[])
    ensures column.TextHours? ==> r == Ok(column.hours)
    ensures column.ObjectHours? ==> r == Err(ObjectParseError)
  {
    match column
    case NullHours => Ok(map[])
    case TextHours(h) => Ok(h)
    case ObjectHours(_) => Err(ObjectParseError)
  }

  /**
   * The template as the barber listing reads the same column: text is decoded and an object is
   * taken as it is; `NULL` is no template.
   */
  function ColumnHours(column: HoursColumn): (r: map<string, DayEntry>)
    ensures column.NullHours? ==> r == map[]
    ensures !column.NullHours? ==> r == column.hours
  {
    if column.NullHours? then map[] else column.hours
  }

  /** What `toLocaleDateString('en-US', { weekday: 'long' })` gives, Sunday first. */
  const LongWeekdays: seq<string> := ["Sunday", "Monday", "Tuesday", "Wednesday", "Thursday", "Friday", "Saturday"]
  const ShortWeekdays: seq<string> := ["Sun", "Mon", "Tue", "Wed", "Thu", "Fri", "Sat"]
  const NarrowWeekdays: seq<string> := ["S", "M", "T", "W", "T", "F", "S"]
  const InvalidDate := "Invalid Date"

  /** The style `getBarberAvailability` asks for. */
  const AvailabilityWeekdayStyle := "lowercase"

  /** The message of the `RangeError` V8 throws for a weekday style it does not know. */
  function WeekdayRangeError(style: string): (m: string)
    ensures m != []
  {
    "Value " + style + " out of range for Intl.DateTimeFormat options property weekday"
  }

  /**
   * `new Date(date).toLocaleDateString('en-US', { weekday: style })`. `weekday` is the day of the
   * week of the parsed date (0 = Sunday), `None` when `new Date(date)` is invalid, which gives
   * `"Invalid Date"` before any option is read. Otherwise a style other than `long`, `short` and
   * `narrow` is a `RangeError`.
   */
  function LocaleWeekday(weekday: Option<nat>, style: string): (r: Result<string>)
    requires weekday.Some? ==> weekday.value < 7
    ensures weekday.None? ==> r == Ok(InvalidDate)
    ensures weekday.Some? ==> (r.Ok? <==> style in {"long", "short", "narrow"})
    ensures weekday.Some? && style == "long" ==> r == Ok(LongWeekdays[weekday.value])
    ensures weekday.Some? && style !in {"long", "short", "narrow"} ==> r == Err(WeekdayRangeError(style))
  {
    if weekday.None? then Ok(InvalidDate)
    else if style == "long" then Ok(LongWeekdays[weekday.value])
    else if style == "short" then Ok(ShortWeekdays[weekday.value])
    else if style == "narrow" then Ok(NarrowWeekdays[weekday.value])
    else Err(WeekdayRangeError(style))
  }

  /**
   * The reply `next(err)` leads to: the error middleware's answer for a thrown `RangeError` or
   * `SyntaxError`, neither of which it recognises.
   */
  function NextErrorReply(name: string, message: string): (r: Reply)
    requires name == "RangeError" || name == "SyntaxError"
    ensures message != [] ==> r == Plain(500, message)
  {
    var response := HandleError(ThrownError("", name, message, None, []));
    Plain(response.status, response.message)
  }

  /**
   * The slots of the entry `workingHours[key]`: none when there is no entry or it is closed,
   * otherwise the generated cursors.
   */
  method DaySlots(workingHours: map<string, DayEntry>, key: string, booked: seq<string>) returns (slots: seq<string>)
    requires HoursShapeOk(workingHours)
    ensures AllCursors(slots)
    ensures if key in workingHours && !workingHours[key].closed
            then Values(slots) == FreeMinutes(Value(workingHours[key].start), Value(workingHours[key].end), booked)
            else slots == []
  {
    slots := [];
    if key in workingHours && !workingHours[key].closed {
      slots := GenerateSlots(workingHours[key].start, workingHours[key].end, booked);
    }
  }

  /**
   * `getBarberAvailability` as written: 400 without a date, 404 without a barber, an empty list
   * for an unavailable barber. Otherwise the `working_hours` column is parsed first: a decoded
   * object is a `SyntaxError` and the error middleware's 500, whatever the date. Then the day name
   * is asked for in the style `'lowercase'`, which `Intl` refuses: every valid date ends in a
   * `RangeError` and a 500. Only an invalid date gets through, with the key `"Invalid Date"`.
   */
  method GetBarberAvailability(barberId: int, date: string, barber: Option<BarberRecord>, rows: seq<AppointmentRow>,
                               column: HoursColumn, weekday: Option<nat>) returns (reply: Reply)
    requires weekday.Some? ==> weekday.value < 7
    requires ColumnShapeOk(column)
    ensures date == "" ==> reply == Plain(400, "Data é obrigatória")
    ensures date != "" && barber.None? ==> reply == Plain(404, "Barbeiro não encontrado")
    ensures date != "" && barber.Some? && !barber.value.isAvailable ==> reply == Plain(200, "")
    ensures date != "" && barber.Some? && barber.value.isAvailable && column.ObjectHours? ==>
      reply == Plain(500, ObjectParseError)
    ensures date != "" && barber.Some? && barber.value.isAvailable && !column.ObjectHours? && weekday.Some? ==>
      reply == Plain(500, WeekdayRangeError(AvailabilityWeekdayStyle))
    ensures date != "" && barber.Some? && barber.value.isAvailable && !column.ObjectHours? && weekday.None? ==>
      var workingHours := ColumnHours(column);
      reply.status == 200 && AllCursors(reply.slots) &&
      if InvalidDate in workingHours && !workingHours[InvalidDate].closed
      then Values(reply.slots) == FreeMinutes(Value(workingHours[InvalidDate].start), Value(workingHours[InvalidDate].end),
                                              BookedTimes(rows, barberId, date))
      else reply.slots == []
  {
    if date == "" {
      return Plain(400, "Data é obrigatória");
    }
    if barber.None? {
      return Plain(404, "Barbeiro não encontrado");
    }
    if !barber.value.isAvailable {
      return Plain(200, "");
    }
    var booked := BookedTimes(rows, barberId, date);
    var workingHours := ParseHours(column);
    if workingHours.Err? {
      return NextErrorReply("SyntaxError", workingHours.message);
    }
    assert AvailabilityWeekdayStyle !in {"long", "short", "narrow"};
    var dayOfWeek := LocaleWeekday(weekday, AvailabilityWeekdayStyle);
    if dayOfWeek.Err? {
      return NextErrorReply("RangeError", dayOfWeek.message);
    }
    var slots := DaySlots(workingHours.value, dayOfWeek.value, booked);
    reply := Reply(200, "", slots, None);
  }

  /** The template key of a day: the long English name in lower case, as the stored templates spell it. */
  function DayKey(weekday: Option<nat>): (r: string)
    requires weekday.Some? ==> weekday.value < 7
    ensures weekday.Some? ==> r == ["sunday", "monday", "tuesday", "wednesday", "thursday", "friday", "saturday"][weekday.value]
  {
    ToLower(LocaleWeekday(weekday, "long").value)
  }

  /**
   * `getBarberAvailability` with the column read as the barber listing reads it (text decoded, an
   * object taken as it is) and the day name asked for as `{ weekday: 'long' }` and lower-cased:
   * the slots of the date's own template entry, if it is open.
   */
  method CorrectedGetBarberAvailability(barberId: int, date: string, barber: Option<BarberRecord>, rows: seq<AppointmentRow>,
                                        column: HoursColumn, weekday: Option<nat>) returns (reply: Reply)
    requires weekday.Some? ==> weekday.value < 7
    requires ColumnShapeOk(column)
    ensures date == "" ==> reply == Plain(400, "Data é obrigatória")
    ensures date != "" && barber.None? ==> reply == Plain(404, "Barbeiro não encontrado")
    ensures date != "" && barber.Some? && !barber.value.isAvailable ==> reply == Plain(200, "")
    ensures date != "" && barber.Some? && barber.value.isAvailable ==>
      var key := DayKey(weekday);
      var workingHours := ColumnHours(column);
      reply.status == 200 && AllCursors(reply.slots) &&
      if key in workingHours && !workingHours[key].closed
      then Values(reply.slots) == FreeMinutes(Value(workingHours[key].start), Value(workingHours[key].end),
                                              BookedTimes(rows, barberId, date))
      else reply.slots == []
  {
    if date == "" {
      return Plain(400, "Data é obrigatória");
    }
    if barber.None? {
      return Plain(404, "Barbeiro não encontrado");
    }
    if !barber.value.isAvailable {
      return Plain(200, "");
    }
    var booked := BookedTimes(rows, barberId, date);
    var slots := DaySlots(ColumnHours(column), DayKey(weekday), booked);
    reply := Reply(200, "", slots, None);
  }

  // ---------------------------------------------------------------- createAppointment

  datatype CreateRequest = CreateRequest(barberId: int, serviceId: int, date: string, time: string)

  /** `H:MM` or `HH:MM` with minutes below 60. */
  predicate ClockText(s: string)
  {
    (|s| == 4 || |s| == 5) && AllDigits(s[..|s| - 3]) && s[|s| - 3] == ':' &&
    AllDigits(s[|s| - 2..]) && DigitsValue(s[|s| - 2..]) < 60
  }

  function ClockSeconds(s: string): nat
    requires ClockText(s)
  {
    (DigitsValue(s[..|s| - 3]) * 60 + DigitsValue(s[|s| - 2..])) * 60
  }

  /**
   * How MySQL reads a time string when it compares it with the `TIME` column: `[H]H:MM` or
   * `[H]H:MM:SS`, as seconds since midnight; `None` for every other shape.
   */
  function TimeOfDay(s: string): (r: Option<nat>)
    ensures ClockText(s) ==> r == Some(ClockSeconds(s))
    ensures r.Some? ==> ClockText(s) || (|s| >= 7 && ClockText(s[..|s| - 3]) && s[|s| - 3] == ':')
  {
    if ClockText(s) then Some(ClockSeconds(s))
    else if |s| >= 7 && ClockText(s[..|s| - 3]) && s[|s| - 3] == ':' && AllDigits(s[|s| - 2..]) &&
            DigitsValue(s[|s| - 2..]) < 60
    then Some(ClockSeconds(s[..|s| - 3]) + DigitsValue(s[|s| - 2..]))
    else None
  }

  /**
   * The conflict query: a live row of the same barber and date whose `TIME` value equals the
   * requested time, compared as times of day, not as strings.
   */
  predicate TimeTaken(rows: seq<AppointmentRow>, req: CreateRequest)
  {
    exists i :: 0 <= i < |rows| && Live(rows[i], req.barberId, req.date) &&
                TimeOfDay(rows[i].time).Some? && TimeOfDay(rows[i].time) == TimeOfDay(req.time)
  }

  /**
   * `createAppointment`: the validation errors, the barber and service rows, and the conflict
   * query, in that order; `newId` is the id the insert returns.
   */
  function CreateAppointment(validationErrors: seq<string>, req: CreateRequest, clientId: int,
                             barber: Option<BarberRecord>, service: Option<ServiceRecord>,
                             rows: seq<AppointmentRow>, newId: int): (r: Reply)
    ensures validationErrors != [] ==> r == Plain(400, "Dados inválidos")
    ensures validationErrors == [] && barber.None? ==> r == Plain(404, "Barbeiro não encontrado ou indisponível")
    ensures r.status == 409 <==>
      validationErrors == [] && barber.Some? && barber.value.isAvailable && service.Some? && TimeTaken(rows, req)
    ensures r.status == 201 <==>
      validationErrors == [] && barber.Some? && barber.value.isAvailable && service.Some? && !TimeTaken(rows, req)
    ensures r.status == 201 ==>
      r.created == Some(AppointmentRow(newId, clientId, req.barberId, req.serviceId, req.date, req.time,
                                       "agendado", service.value.price))
  {
    if validationErrors != [] then Plain(400, "Dados inválidos")
    else if barber.None? then Plain(404, "Barbeiro não encontrado ou indisponível")
    else if !barber.value.isAvailable then Plain(400, "Barbeiro não está disponível para agendamentos")
    else if service.None? then Plain(404, "Serviço não encontrado")
    else if TimeTaken(rows, req) then Plain(409, "Horário não disponível")
    else
      Reply(201, "Agendamento criado com sucesso", [],
            Some(AppointmentRow(newId, clientId, req.barberId, req.serviceId, req.date, req.time,
                                "agendado", service.value.price)))
  }

  /** No overlap test: a live 14:00 booking does not stop a 14:30 request. */
  lemma CreateIgnoresOverlap(row: AppointmentRow, clientId: int, barber: BarberRecord, service: ServiceRecord, newId: int)
    requires row.time == "14:00:00" && row.status == "agendado" && barber.isAvailable
    ensures CreateAppointment([], CreateRequest(row.barberId, 1, row.date, "14:30"), clientId,
                              Some(barber), Some(service), [row], newId).status == 201
  {
    FourteenHundred();
  }

  /** A live row stored as `"14:00:00"` blocks a request for `"14:00"`, and one for `"9:30"` a row at `"09:30:00"`. */
  lemma CreateComparesTimes(row: AppointmentRow, clientId: int, barber: BarberRecord, service: ServiceRecord, newId: int)
    requires row.status == "agendado" && barber.isAvailable
    ensures row.time == "14:00:00" ==>
      CreateAppointment([], CreateRequest(row.barberId, 1, row.date, "14:00"), clientId,
                        Some(barber), Some(service), [row], newId) == Plain(409, "Horário não disponível")
    ensures row.time == "09:30:00" ==>
      CreateAppointment([], CreateRequest(row.barberId, 1, row.date, "9:30"), clientId,
                        Some(barber), Some(service), [row], newId) == Plain(409, "Horário não disponível")
  {
    FourteenHundred();
    NineThirty();
    var rows := [row];
    assert rows[0] == row;
  }

  /** `"14:00:00"` and `"14:00"` are the same time of day, and `"14:30"` is half an hour later. */
  lemma FourteenHundred()
    ensures TimeOfDay("14:00:00") == TimeOfDay("14:00") == Some(50400)
    ensures TimeOfDay("14:30") == Some(52200)
  {
    var a, b, c := "14:00:00", "14:00", "14:30";
    assert a[..|a| - 3] == b && a[|a| - 2..] == "00";
    assert b[..|b| - 3] == "14" && b[|b| - 2..] == "00" && c[..|c| - 3] == "14" && c[|c| - 2..] == "30";
    TwoDigits("14");
    TwoDigits("00");
    TwoDigits("30");
  }

  /** `"09:30:00"` and `"9:30"` are the same time of day. */
  lemma NineThirty()
    ensures TimeOfDay("09:30:00") == TimeOfDay("9:30") == Some(34200)
  {
    var d, e := "09:30:00", "9:30";
    assert d[..|d| - 3] == "09:30" && d[|d| - 2..] == "00";
    assert e[..|e| - 3] == "9" && e[|e| - 2..] == "30" && "09:30"[..2] == "09" && "09:30"[3..] == "30";
    TwoDigits("00");
    TwoDigits("30");
    TwoDigits("09");
    OneDigit("9");
  }

  // ---------------------------------------------------------------- status updates

  const ValidStatuses: seq<string> := ["agendado", "confirmado", "em_andamento", "concluido", CancelledStatus]

  /** The first row with this id that the permission clause of the lookup lets through. */
  function FindRow(rows: seq<AppointmentRow>, id: int, clientOnly: Option<int>, barberOnly: Option<int>): (r: Option<nat>)
    ensures r.Some? ==>
      (r.value < |rows| && rows[r.value].id == id &&
       (clientOnly.Some? ==> rows[r.value].clientId == clientOnly.value) &&
       (barberOnly.Some? ==> rows[r.value].barberId == barberOnly.value))
    ensures r.None? ==> forall i :: 0 <= i < |rows| && rows[i].id == id ==>
      (clientOnly.Some? && rows[i].clientId != clientOnly.value) ||
      (barberOnly.Some? && rows[i].barberId != barberOnly.value)
  {
    FirstIndex(rows, (row: AppointmentRow) => row.id == id && (clientOnly.Some? ==> row.clientId == clientOnly.value) &&
                                              (barberOnly.Some? ==> row.barberId == barberOnly.value))
  }

  /** `UPDATE appointments SET status = ? WHERE id = ?`: only the status of the rows with that id changes. */
  function SetStatus(rows: seq<AppointmentRow>, id: int, status: string): (r: seq<AppointmentRow>)
    ensures |r| == |rows|
    ensures forall i :: 0 <= i < |rows| ==> r[i].(status := rows[i].status) == rows[i]
    ensures forall i :: 0 <= i < |rows| ==> r[i].status == if rows[i].id == id then status else rows[i].status
  {
    seq(|rows|, i requires 0 <= i < |rows| => if rows[i].id == id then rows[i].(status := status) else rows[i])
  }

  /**
   * The update is idempotent, a later update of the same rows wins, and an id no row has leaves
   * the rows as they were.
   */
  lemma SetStatusLaws(rows: seq<AppointmentRow>, id: int, s1: string, s2: string)
    ensures SetStatus(SetStatus(rows, id, s1), id, s1) == SetStatus(rows, id, s1)
    ensures SetStatus(SetStatus(rows, id, s1), id, s2) == SetStatus(rows, id, s2)
    ensures (forall i :: 0 <= i < |rows| ==> rows[i].id != id) ==> SetStatus(rows, id, s1) == rows
  {
  }

  /**
   * `updateAppointmentStatus`: the status must be in the whitelist; a barber only sees their own
   * rows; the stored rows change only on success.
   */
  function UpdateAppointmentStatus(rows: seq<AppointmentRow>, id: int, status: string,
                                   userType: string, userId: int): (r: (Reply, seq<AppointmentRow>))
    ensures status !in ValidStatuses ==> r == (Plain(400, "Status inválido"), rows)
    ensures r.0.status == 200 <==>
      status in ValidStatuses && FindRow(rows, id, None, if userType == "barbeiro" then Some(userId) else None).Some?
    ensures r.0.status == 200 ==> r.1 == SetStatus(rows, id, status)
    ensures r.0.status != 200 ==> r.1 == rows
  {
    if status !in ValidStatuses then (Plain(400, "Status inválido"), rows)
    else if FindRow(rows, id, None, if userType == "barbeiro" then Some(userId) else None).None? then
      (Plain(404, "Agendamento não encontrado"), rows)
    else (Plain(200, "Status atualizado com sucesso"), SetStatus(rows, id, status))
  }

  /**
   * `cancelAppointment`: a client only sees their own rows and a barber theirs; a row already
   * cancelled or concluded cannot be cancelled; otherwise its status becomes `'cancelado'`.
   */
  function CancelAppointment(rows: seq<AppointmentRow>, id: int, userType: string, userId: int): (r: (Reply, seq<AppointmentRow>))
    ensures var k := FindRow(rows, id, if userType == "cliente" then Some(userId) else None,
                             if userType == "barbeiro" then Some(userId) else None);
      (k.None? ==> r == (Plain(404, "Agendamento não encontrado"), rows)) &&
      (k.Some? && rows[k.value].status == CancelledStatus ==> r == (Plain(400, "Agendamento já foi cancelado"), rows)) &&
      (k.Some? && rows[k.value].status == CompletedStatus ==>
         r == (Plain(400, "Não é possível cancelar um agendamento concluído"), rows)) &&
      (r.0.status == 200 <==> k.Some? && rows[k.value].status != CancelledStatus && rows[k.value].status != CompletedStatus) &&
      (r.0.status == 200 ==> r.1 == SetStatus(rows, id, CancelledStatus))
  {
    var k := FindRow(rows, id, if userType == "cliente" then Some(userId) else None,
                     if userType == "barbeiro" then Some(userId) else None);
    if k.None? then (Plain(404, "Agendamento não encontrado"), rows)
    else if rows[k.value].status == CancelledStatus then (Plain(400, "Agendamento já foi cancelado"), rows)
    else if rows[k.value].status == CompletedStatus then (Plain(400, "Não é possível cancelar um agendamento concluído"), rows)
    else (Plain(200, "Agendamento cancelado com sucesso"), SetStatus(rows, id, CancelledStatus))
  }

  /** Cancelling twice fails the second time: once `'cancelado'`, a row can be cancelled no more. */
  lemma {:induction false} CancelIsNotRepeatable(rows: seq<AppointmentRow>, id: int, userType: string, userId: int)
    requires CancelAppointment(rows, id, userType, userId).0.status == 200
    ensures CancelAppointment(CancelAppointment(rows, id, userType, userId).1, id, userType, userId).0 ==
            Plain(400, "Agendamento já foi cancelado")
  {
    var clientOnly := if userType == "cliente" then Some(userId) else None;
    var barberOnly := if userType == "barbeiro" then Some(userId) else None;
    var k := FindRow(rows, id, clientOnly, barberOnly).value;
    var after := SetStatus(rows, id, CancelledStatus);
    var k2 := FindRow(after, id, clientOnly, barberOnly);
    assert after[k].id == id && after[k].clientId == rows[k].clientId && after[k].barberId == rows[k].barberId;
    assert k2.Some?;
    assert after[k2.value].status == CancelledStatus;
  }
}
