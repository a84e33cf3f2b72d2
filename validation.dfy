/**
 * The request validators of the appointment API: the `appointmentTime` pattern and its custom
 * opening-hours and half-hour checks, the `appointmentDate` checks, and the integer bounds on a
 * review's rating and a service's duration.
 *
 * A validator chain runs every validator of the chain (none of them bails out), so a value can
 * collect several messages; each check below returns the messages of its chain, in order.
 * Request fields are the strings the validators see (a JSON number is seen as its decimal text).
 */
module RequestValidation {
  import opened Wrappers
  import opened Strings
  import opened Calendar

  const TimeFormatMessage := "Horário deve estar no formato HH:MM"
  const TimeRangeMessage := "Horário deve estar entre 08:00 e 18:00"
  const TimeIntervalMessage := "Agendamentos são permitidos apenas em intervalos de 30 minutos"
  const DateFormatMessage := "Data deve estar no formato ISO 8601"
  const DateFutureMessage := "Data do agendamento deve ser no futuro"
  const DateSundayMessage := "Agendamentos não são permitidos aos domingos"
  const RatingMessage := "Avaliação deve ser entre 1 e 5 estrelas"
  const DurationMessage := "Duração deve ser entre 15 e 240 minutos"

  // ---------------------------------------------------------------- appointment time

  /** The hour group `[01]?[0-9]|2[0-3]`. */
  predicate HourPattern(h: string)
  {
    (|h| == 1 && IsDigit(h[0])) ||
    (|h| == 2 && (((h[0] == '0' || h[0] == '1') && IsDigit(h[1])) || (h[0] == '2' && '0' <= h[1] <= '3')))
  }

  /** The minute group `[0-5][0-9]`. */
  predicate MinutePattern(m: string)
  {
    |m| == 2 && '0' <= m[0] <= '5' && IsDigit(m[1])
  }

  /** `/^([01]?[0-9]|2[0-3]):[0-5][0-9]$/`: an hour group, a colon and a minute group, and nothing else. */
  predicate MatchesTimePattern(s: string)
  {
    match RestAfter(s, ':')
    case None => false
    case Some(rest) => HourPattern(FirstField(s, ':')) && MinutePattern(rest)
  }

  function Pow10(n: nat): (r: nat)
    ensures r >= 1
  {
    if n == 0 then 1 else 10 * Pow10(n - 1)
  }

  /** An unsigned decimal literal without exponent: digits, or digits around one point, with a digit somewhere. */
  predicate DecimalText(u: string)
  {
    match IndexOf(u, '.')
    case None => u != [] && AllDigits(u)
    case Some(i) => |u| >= 2 && AllDigits(u[..i]) && AllDigits(u[i + 1..])
  }

  /** The number a decimal literal stands for: its integer part plus its fraction. */
  function DecimalValue(u: string): real
    requires DecimalText(u)
  {
    match IndexOf(u, '.')
    case None => DigitsValue(u) as real
    case Some(i) => DigitsValue(u[..i]) as real + DigitsValue(u[i + 1..]) as real / Pow10(|u| - i - 1) as real
  }

  /**
   * `Number(s)`: white space around an optionally signed decimal literal; only white space is 0;
   * `None` is `NaN`.
   */
  function NumberOf(s: string): (r: Option<real>)
    ensures AllDigits(s) ==> r == Some(DigitsValue(s) as real)
  {
    DigitsAreTrimmed(s);
    var t := Trim(s);
    if t == [] then Some(0.0)
    else if (t[0] == '-' || t[0] == '+') && DecimalText(t[1..]) then
      Some(if t[0] == '-' then -DecimalValue(t[1..]) else DecimalValue(t[1..]))
    else if DecimalText(t) then Some(DecimalValue(t))
    else None
  }

  lemma DigitsAreTrimmed(s: string)
    ensures AllDigits(s) ==> Trim(s) == s
  {
  }

  /**
   * The custom time validator: `hours` and `minutes` are the first two `:`-fields through `Number`
   * (a missing field is `undefined`); the range test is skipped when the total is `NaN`, and the
   * interval test then fails.
   */
  function CustomTimeCheck(s: string): (r: Option<string>)
    ensures r.None? || r.value == TimeRangeMessage || r.value == TimeIntervalMessage
  {
    var hours := NumberOf(FirstField(s, ':'));
    var minutes := match RestAfter(s, ':') case None => None case Some(rest) => NumberOf(FirstField(rest, ':'));
    if hours.Some? && minutes.Some? &&
       (hours.value * 60.0 + minutes.value < 480.0 || hours.value * 60.0 + minutes.value > 1080.0) then
      Some(TimeRangeMessage)
    else if minutes != Some(0.0) && minutes != Some(30.0) then
      Some(TimeIntervalMessage)
    else
      None
  }

  /** The messages of the `appointmentTime` chain: the pattern's, then the custom validator's. */
  function TimeErrors(s: string): (r: seq<string>)
    ensures |r| <= 2
    ensures !MatchesTimePattern(s) <==> |r| >= 1 && r[0] == TimeFormatMessage
  {
    (if MatchesTimePattern(s) then [] else [TimeFormatMessage]) +
    (match CustomTimeCheck(s) case None => [] case Some(m) => [m])
  }

  /** A time the booking rules accept: a half hour from 08:00 to 18:00, both included. */
  predicate OpeningHalfHour(t: nat)
  {
    480 <= t <= 1080 && t % 30 == 0
  }

  /** A matching time spells an hour up to 23 and a minute up to 59, and `parseTime` reads it as `hours * 60 + minutes`. */
  lemma PatternFields(s: string)
    requires MatchesTimePattern(s)
    ensures var h, m := FirstField(s, ':'), RestAfter(s, ':').value;
      AllDigits(h) && AllDigits(m) && DigitsValue(h) <= 23 && DigitsValue(m) <= 59 &&
      ParseTime(s) == Some(DigitsValue(h) * 60 + DigitsValue(m)) &&
      FirstField(m, ':') == m
  {
    var h, m := FirstField(s, ':'), RestAfter(s, ':').value;
    if |h| == 1 {
      OneDigit(h);
    } else {
      TwoDigits(h);
    }
    TwoDigits(m);
    DigitsHaveNoColon(m);
  }

  /** On a matching time the custom validator tests the minutes since midnight `t`: the range first, then the half hour. */
  lemma CustomCheckOfPattern(s: string)
    requires MatchesTimePattern(s)
    ensures ParseTime(s).Some?
    ensures var t := ParseTime(s).value;
      CustomTimeCheck(s) ==
        if t < 480 || t > 1080 then Some(TimeRangeMessage)
        else if t % 30 != 0 then Some(TimeIntervalMessage)
        else None
  {
    PatternFields(s);
    var h, m := FirstField(s, ':'), RestAfter(s, ':').value;
    var hv, mv := DigitsValue(h), DigitsValue(m);
    var t := hv * 60 + mv;
    assert NumberOf(h) == Some(hv as real);
    assert NumberOf(FirstField(m, ':')) == Some(mv as real);
    assert CustomTimeCheck(s) ==
      if t < 480 || t > 1080 then Some(TimeRangeMessage)
      else if mv != 0 && mv != 30 then Some(TimeIntervalMessage)
      else None;
    HalfHourByMinutes(hv, mv);
  }

  /** A time of day is on the half hour exactly when its minutes are 0 or 30. */
  lemma HalfHourByMinutes(hv: nat, mv: nat)
    requires mv <= 59
    ensures (hv * 60 + mv) % 30 == 0 <==> mv == 0 || mv == 30
  {
    ShiftHalfHours(2 * hv, mv);
    assert hv * 60 + mv == 30 * (2 * hv) + mv;
  }

  /** Whole half hours do not change the remainder by 30. */
  lemma {:induction false} ShiftHalfHours(q: nat, a: nat)
    ensures (30 * q + a) % 30 == a % 30
  {
    if q > 0 {
      ShiftHalfHours(q - 1, a);
      assert 30 * q + a == (30 * (q - 1) + a) + 30;
    }
  }

  /** The time chain reports nothing exactly for the spellings of the half hours of opening time. */
  lemma AcceptedTimes(s: string)
    ensures TimeErrors(s) == [] <==> MatchesTimePattern(s) && ParseTime(s).Some? && OpeningHalfHour(ParseTime(s).value)
  {
    if MatchesTimePattern(s) {
      CustomCheckOfPattern(s);
    }
  }

  /** Outside opening hours only the range message is reported, even off the half hour (`"18:45"`). */
  lemma OutOfHoursReportsRange(s: string)
    requires MatchesTimePattern(s)
    requires ParseTime(s).Some? && (ParseTime(s).value < 480 || ParseTime(s).value > 1080)
    ensures TimeErrors(s) == [TimeRangeMessage]
  {
    CustomCheckOfPattern(s);
  }

  /** Every half hour of opening time, written as `formatTime` writes it, is accepted. */
  lemma {:induction false} FormattedHalfHourAccepted(t: nat)
    requires OpeningHalfHour(t)
    ensures TimeErrors(FormatTime(t)) == []
  {
    var s := FormatTime(t);
    FormattedMatchesPattern(t);
    TimeRoundTrip(t);
    AcceptedTimes(s);
  }

  /** Every time of day, written as `formatTime` writes it, matches the time pattern. */
  lemma FormattedMatchesPattern(t: nat)
    requires t < 24 * 60
    ensures MatchesTimePattern(FormatTime(t))
  {
    var s := FormatTime(t);
    FormatTimeFields(t);
    var h, m := s[..2], s[3..];
    assert AllDigits(h) && DigitsValue(h) == t / 60 && AllDigits(m) && DigitsValue(m) == t % 60;
    assert ':' !in h by {
      DigitsHaveNoColon(h);
    }
    SplitAt(s, ':', 2);
    assert HourPattern(h) by {
      TwoDigits(h);
    }
    assert MinutePattern(m) by {
      TwoDigits(m);
    }
  }

  /** Without a colon both messages appear: the pattern fails, and the missing minutes fail the interval test. */
  lemma NoColonReportsBoth(s: string)
    requires ':' !in s
    ensures TimeErrors(s) == [TimeFormatMessage, TimeIntervalMessage]
  {
  }

  /** The minute field `"00"` is the whole rest and reads as 0. */
  lemma ZeroMinutes()
    ensures FirstField("00", ':') == "00" && NumberOf("00") == Some(0.0)
  {
    DigitsHaveNoColon("00");
    TwoDigits("00");
  }

  /** An hour text that fails the hour group but reads as a number before 08:00 draws both messages. */
  lemma EarlyOddHour(h: string, v: real)
    requires ':' !in h && !HourPattern(h) && NumberOf(h) == Some(v) && v < 8.0
    ensures TimeErrors(h + ":00") == [TimeFormatMessage, TimeRangeMessage]
  {
    var s := h + ":00";
    assert s == h + [':'] + "00";
    FieldsOfJoined(h, ':', "00");
    assert !MatchesTimePattern(s);
    ZeroMinutes();
    assert CustomTimeCheck(s) == Some(TimeRangeMessage) by {
      assert NumberOf(FirstField(s, ':')) == Some(v);
      assert v * 60.0 + 0.0 < 480.0;
    }
  }

  lemma NegativeOne()
    ensures NumberOf("-1") == Some(-1.0)
  {
    assert Trim("-1") == "-1";
    assert "-1"[1..] == "1";
    OneDigit("1");
    assert DecimalText("1");
  }

  lemma SevenAndAHalf()
    ensures NumberOf("7.5") == Some(7.5)
  {
    assert Trim("7.5") == "7.5";
    assert IndexOf("7.5", '.') == Some(1);
    assert "7.5"[..1] == "7" && "7.5"[2..] == "5";
    OneDigit("7");
    OneDigit("5");
  }

  /** A negative hour fails the pattern and, being a number, also the range: `"-1:00"` is -60 minutes. */
  lemma NegativeHourReportsBoth(h: string)
    requires h == "-1"
    ensures TimeErrors(h + ":00") == [TimeFormatMessage, TimeRangeMessage]
  {
    assert h[0] == '-' && |h| == 2;
    NegativeOne();
    EarlyOddHour(h, -1.0);
  }

  /** A fractional hour fails the pattern and, being a number, also the range: `"7.5:00"` is 450 minutes. */
  lemma DecimalHourReportsBoth(h: string)
    requires h == "7.5"
    ensures TimeErrors(h + ":00") == [TimeFormatMessage, TimeRangeMessage]
  {
    assert h[0] == '7' && h[1] == '.' && h[2] == '5' && |h| == 3;
    SevenAndAHalf();
    EarlyOddHour(h, 7.5);
  }

  const UndefinedSplitMessage := "Cannot read properties of undefined (reading 'split')"
  const NotAFunctionMessage := "value.split is not a function"

  /** The `appointmentTime` of a request body: absent, a string, or a JSON number with its decimal text. */
  datatype BodyValue = Absent | Text(s: string) | JsonNumber(text: string)

  /**
   * The messages of the `appointmentTime` chain for any of these values. The pattern sees an
   * absent value as `""` and a number as its text; the custom validator then calls `value.split`,
   * which throws a `TypeError` whose message becomes the second message.
   */
  function TimeFieldErrors(v: BodyValue): (r: seq<string>)
    ensures v.Text? ==> r == TimeErrors(v.s)
    ensures v.Absent? ==> r == [TimeFormatMessage, UndefinedSplitMessage]
    ensures v.JsonNumber? && ':' !in v.text ==> r == [TimeFormatMessage, NotAFunctionMessage]
  {
    match v
    case Text(s) => TimeErrors(s)
    case Absent =>
      assert !MatchesTimePattern("");
      [TimeFormatMessage, UndefinedSplitMessage]
    case JsonNumber(text) => (if MatchesTimePattern(text) then [] else [TimeFormatMessage]) + [NotAFunctionMessage]
  }

  // ---------------------------------------------------------------- appointment date

  /** `new Date(value)`: an invalid date, or an instant with its local day of the week (0 = Sunday). */
  datatype DateValue = InvalidDate | At(instant: int, dow: DayOfWeek)

  /**
   * The messages of the `appointmentDate` chain. `isIso` is the verdict of `isISO8601` on the text;
   * an invalid date compares false with `now` and has no day of the week, so it passes the custom test.
   */
  function DateErrors(isIso: bool, date: DateValue, now: int): (r: seq<string>)
    ensures r == [] <==> isIso && (date.InvalidDate? || (date.instant > now && date.dow != 0))
    ensures date.At? && date.instant <= now ==> r[|r| - 1] == DateFutureMessage
    ensures date.At? && date.instant > now && date.dow == 0 ==> r[|r| - 1] == DateSundayMessage
    ensures !isIso <==> |r| >= 1 && r[0] == DateFormatMessage
  {
    (if isIso then [] else [DateFormatMessage]) +
    (match date
     case InvalidDate => []
     case At(instant, dow) =>
       if instant <= now then [DateFutureMessage]
       else if dow == 0 then [DateSundayMessage]
       else [])
  }

  // ---------------------------------------------------------------- integer bounds

  /** `isInt`'s default pattern `/^[-+]?[0-9]+$/` (leading zeros allowed). */
  predicate IntPattern(s: string)
  {
    s != [] && if s[0] == '+' || s[0] == '-' then |s| >= 2 && AllDigits(s[1..]) else AllDigits(s)
  }

  function Unsigned(s: string): string
    requires s != []
  {
    if s[0] == '+' || s[0] == '-' then s[1..] else s
  }

  function SignedValue(s: string): int
    requires IntPattern(s)
  {
    if s[0] == '-' then -(DigitsValue(s[1..]) as int) else DigitsValue(Unsigned(s))
  }

  /** `isInt({ min: lo, max: hi })`: the pattern, and its number between the bounds. */
  predicate IsIntIn(s: string, lo: int, hi: int)
  {
    IntPattern(s) && lo <= SignedValue(s) <= hi
  }

  /** The messages of the review `rating` chain. */
  function RatingErrors(s: string): (r: seq<string>)
    ensures r == [] <==> IsIntIn(s, 1, 5)
    ensures r != [] ==> r == [RatingMessage]
  {
    if IsIntIn(s, 1, 5) then [] else [RatingMessage]
  }

  /** The messages of the service `duration` chain. */
  function DurationErrors(s: string): (r: seq<string>)
    ensures r == [] <==> IsIntIn(s, 15, 240)
    ensures r != [] ==> r == [DurationMessage]
  {
    if IsIntIn(s, 15, 240) then [] else [DurationMessage]
  }

  function Zeros(k: nat): (r: string)
    ensures |r| == k && AllDigits(r)
  {
    if k == 0 then "" else "0" + Zeros(k - 1)
  }

  /** A signed spelling of `n`: an optional `+`, `k` leading zeros, then `n.toString()`. */
  function Spelling(plus: bool, k: nat, n: nat): string
  {
    (if plus then "+" else "") + Zeros(k) + NatToString(n)
  }

  function LeadingZeros(s: string): (k: nat)
    ensures k <= |s| && s[..k] == Zeros(k)
    ensures k < |s| ==> s[k] != '0'
  {
    if s == [] || s[0] != '0' then 0
    else
      var k := LeadingZeros(s[1..]);
      assert s[..k + 1] == ['0'] + s[1..][..k];
      k + 1
  }

  lemma {:induction false} ZerosValue(k: nat, s: string)
    requires AllDigits(s)
    ensures AllDigits(Zeros(k) + s) && DigitsValue(Zeros(k) + s) == DigitsValue(s)
  {
    if k > 0 {
      ZerosValue(k - 1, s);
      assert Zeros(k) + s == ['0'] + (Zeros(k - 1) + s);
      LeadingZeroValue(Zeros(k - 1) + s);
    } else {
      assert Zeros(k) + s == s;
    }
  }

  lemma {:induction false} NonZeroLeadValue(s: string)
    requires AllDigits(s) && s != [] && s[0] != '0'
    ensures DigitsValue(s) >= 1
  {
    if |s| > 1 {
      NonZeroLeadValue(s[..|s| - 1]);
    }
  }

  /** Digits without a leading zero are the decimal spelling of their value. */
  lemma {:induction false} CanonicalDigits(s: string)
    requires AllDigits(s) && s != [] && s[0] != '0'
    ensures NatToString(DigitsValue(s)) == s
  {
    if |s| > 1 {
      var p := s[..|s| - 1];
      CanonicalDigits(p);
      NonZeroLeadValue(p);
      assert s == p + [s[|s| - 1]];
    }
  }

  /** Every spelling of a number between the bounds passes `isInt`. */
  lemma SpellingAccepted(plus: bool, k: nat, n: nat, lo: int, hi: int)
    requires lo <= n <= hi
    ensures IsIntIn(Spelling(plus, k, n), lo, hi)
  {
    NatToStringValue(n);
    ZerosValue(k, NatToString(n));
    var d := Zeros(k) + NatToString(n);
    if plus {
      assert Spelling(plus, k, n) == "+" + d;
      PlusDigitsPattern(d);
    } else {
      assert Spelling(plus, k, n) == d;
      DigitsPattern(d);
    }
  }

  /** A non-empty digit string matches the integer pattern and stands for its value. */
  lemma DigitsPattern(d: string)
    requires AllDigits(d) && d != []
    ensures IntPattern(d) && SignedValue(d) == DigitsValue(d)
  {
    assert IsDigit(d[0]);
  }

  /** So does the same string behind a `+`. */
  lemma PlusDigitsPattern(d: string)
    requires AllDigits(d) && d != []
    ensures IntPattern("+" + d) && SignedValue("+" + d) == DigitsValue(d)
  {
    var s := "+" + d;
    assert s[0] == '+' && s[1..] == d;
  }

  /** A digit string is its leading zeros followed by the digits after them. */
  lemma ZerosPrefix(u: string)
    requires AllDigits(u)
    ensures var k := LeadingZeros(u); AllDigits(u[k..]) && u == Zeros(k) + u[k..]
  {
    var k := LeadingZeros(u);
    assert u == u[..k] + u[k..];
    forall i | 0 <= i < |u[k..]| ensures IsDigit(u[k..][i]) {
      assert u[k..][i] == u[k + i];
    }
  }

  /** After its leading zeros, a digit string of positive value goes on with a non-zero digit and keeps its value. */
  lemma AfterLeadingZeros(u: string)
    requires AllDigits(u) && DigitsValue(u) >= 1
    ensures var k := LeadingZeros(u);
      k < |u| && u[k] != '0' && AllDigits(u[k..]) && DigitsValue(u[k..]) == DigitsValue(u) && u == Zeros(k) + u[k..]
  {
    var k := LeadingZeros(u);
    var c := u[k..];
    ZerosPrefix(u);
    ZerosValue(k, c);
    assert c != [] by {
      assert DigitsValue(c) >= 1;
    }
  }

  /** A digit string of positive value is its leading zeros followed by the decimal spelling of its value. */
  lemma DigitsSpelling(u: string)
    requires AllDigits(u) && DigitsValue(u) >= 1
    ensures u == Zeros(LeadingZeros(u)) + NatToString(DigitsValue(u))
  {
    AfterLeadingZeros(u);
    CanonicalDigits(u[LeadingZeros(u)..]);
  }

  /** A string matching the pattern without a minus sign is its optional `+` followed by its digits. */
  lemma SignedSplit(s: string)
    requires IntPattern(s) && s[0] != '-'
    ensures s == (if s[0] == '+' then "+" else "") + Unsigned(s)
  {
    if s[0] == '+' {
      assert s == [s[0]] + s[1..];
    }
  }

  /** A string `isInt` accepts with a positive lower bound has no minus sign, and its digits give its value. */
  lemma PositiveIsUnsigned(s: string, lo: int, hi: int)
    requires 1 <= lo && IsIntIn(s, lo, hi)
    ensures s[0] != '-' && AllDigits(Unsigned(s)) && SignedValue(s) == DigitsValue(Unsigned(s)) >= 1
  {
  }

  /** An unsigned or `+` string whose digits are `k` zeros and the spelling of `v` is that spelling of `v`. */
  lemma SpellingOfParts(s: string, k: nat, v: nat)
    requires IntPattern(s) && s[0] != '-' && Unsigned(s) == Zeros(k) + NatToString(v)
    ensures s == Spelling(s[0] == '+', k, v)
  {
    SignedSplit(s);
    var sign: string := if s[0] == '+' then "+" else "";
    assert Spelling(s[0] == '+', k, v) == sign + (Zeros(k) + NatToString(v));
  }

  /** With a positive lower bound, every string that passes `isInt` is a spelling of its number. */
  lemma AcceptedIsSpelling(s: string, lo: int, hi: int)
    requires 1 <= lo && IsIntIn(s, lo, hi)
    ensures s[0] != '-' && s == Spelling(s[0] == '+', LeadingZeros(Unsigned(s)), SignedValue(s))
  {
    var u := Unsigned(s);
    var k, v := LeadingZeros(u), SignedValue(s);
    assert s[0] != '-' && u == Zeros(k) + NatToString(v) by {
      PositiveIsUnsigned(s, lo, hi);
      DigitsSpelling(u);
    }
    SpellingOfParts(s, k, v);
  }
}
