/** Timestamps as the bot writes and reads them: one fixed layout, `%Y-%m-%d %H:%M:%S`, and
    the clock passed in as a value. */
module DateTimeUtils {
  import opened Wrappers
  import opened Text

  datatype Date = Date(year: int, month: int, day: int)

  /** A naive local datetime, as Python's `datetime.datetime` without tzinfo, to the second. */
  datatype DateTime = DateTime(date: Date, hour: int, minute: int, second: int)

  /** The only layout timestamps are stored in. */
  const DatetimeFormat: string := "%Y-%m-%d %H:%M:%S"

  const SecondsPerDay: int := 86400

  predicate IsLeap(y: int) {
    y % 4 == 0 && (y % 100 != 0 || y % 400 == 0)
  }

  function DaysInMonth(y: int, m: int): (n: int)
    requires 1 <= m <= 12
    ensures 28 <= n <= 31
  {
    if m == 2 then (if IsLeap(y) then 29 else 28)
    else if m == 4 || m == 6 || m == 9 || m == 11 then 30
    else 31
  }

  /** Python's `date` range: years 1 to 9999 and real calendar days. */
  predicate ValidDate(d: Date) {
    1 <= d.year <= 9999 && 1 <= d.month <= 12 && 1 <= d.day <= DaysInMonth(d.year, d.month)
  }

  predicate ValidDateTime(t: DateTime) {
    ValidDate(t.date) && 0 <= t.hour < 24 && 0 <= t.minute < 60 && 0 <= t.second < 60
  }

  /** A datetime Python can represent. */
  type Instant = t: DateTime | ValidDateTime(t) witness DateTime(Date(1970, 1, 1), 0, 0, 0)

  /** Strict order on calendar days: by year, then month, then day. */
  predicate DateBefore(a: Date, b: Date) {
    a.year < b.year
    || (a.year == b.year && (a.month < b.month || (a.month == b.month && a.day < b.day)))
  }

  function SecondsOfDay(t: DateTime): int {
    t.hour * 3600 + t.minute * 60 + t.second
  }

  /** Python's `a <= b` on datetimes: by day, then by time of day. */
  predicate AtOrBefore(a: DateTime, b: DateTime) {
    DateBefore(a.date, b.date) || (a.date == b.date && SecondsOfDay(a) <= SecondsOfDay(b))
  }

  lemma DateBeforeTransitive(a: Date, b: Date, c: Date)
    requires DateBefore(a, b) && DateBefore(b, c)
    ensures DateBefore(a, c)
  {
  }

  // ---------------------------------------------------------------- formatting

  function Pad4(n: nat): (r: string)
    requires n < 10000
    ensures |r| == 4
  {
    [DigitChar(n / 10 / 10 / 10), DigitChar(n / 10 / 10 % 10), DigitChar(n / 10 % 10), DigitChar(n % 10)]
  }

  /** The decimal digit written at position `k` of the layout, for the field that owns it. */
  function DigitAt(t: Instant, k: int): (d: int)
    requires 0 <= k < 19 && !Separator(k)
    ensures 0 <= d < 10
  {
    var y := t.date.year;
    if k == 0 then y / 10 / 10 / 10 else if k == 1 then y / 10 / 10 % 10
    else if k == 2 then y / 10 % 10 else if k == 3 then y % 10
    else
      var field := if k < 7 then t.date.month else if k < 10 then t.date.day
        else if k < 13 then t.hour else if k < 16 then t.minute else t.second;
      if k % 3 == 2 then field / 10 else field % 10
  }

  function LayoutChar(t: Instant, k: int): char
    requires 0 <= k < 19
  {
    if k == 4 || k == 7 then '-' else if k == 10 then ' '
    else if k == 13 || k == 16 then ':' else DigitChar(DigitAt(t, k))
  }

  /** `strftime("%Y-%m-%d %H:%M:%S")` for the years 1000 to 9999, where `%Y` has four digits.
      Earlier years are zero-padded here; glibc's `%Y` writes them without padding. */
  function Format(t: Instant): (r: string)
    ensures |r| == 19
  {
    seq(19, k requires 0 <= k < 19 => LayoutChar(t, k))
  }

  /** `strftime("%d-%m-%y")`, used in channel names. */
  function FormatDayMonthShortYear(d: Date): (r: string)
    requires ValidDate(d)
    ensures |r| == 8
  {
    Pad2(d.day) + "-" + Pad2(d.month) + "-" + Pad2(d.year % 100)
  }

  function MonthAbbreviation(m: int): (r: string)
    requires 1 <= m <= 12
    ensures |r| == 3
  {
    ["Jan", "Feb", "Mar", "Apr", "May", "Jun", "Jul", "Aug", "Sep", "Oct", "Nov", "Dec"][m - 1]
  }

  /** `strftime("%b-%d-%Y")` in the C locale, used in Jira issue summaries. */
  function FormatMonthDayYear(d: Date): (r: string)
    requires ValidDate(d)
    ensures |r| == 11
  {
    MonthAbbreviation(d.month) + "-" + Pad2(d.day) + "-" + Pad4(d.year)
  }

  // ---------------------------------------------------------------- parsing

  predicate IsDigit(c: char) {
    '0' <= c <= '9'
  }

  function DigitValue(c: char): int
    requires IsDigit(c)
  {
    c as int - '0' as int
  }

  function Num2(s: string, i: nat): (n: int)
    requires i + 2 <= |s| && IsDigit(s[i]) && IsDigit(s[i + 1])
    ensures 0 <= n < 100
  {
    DigitValue(s[i]) * 10 + DigitValue(s[i + 1])
  }

  function Num4(s: string): (n: int)
    requires 4 <= |s| && forall k :: 0 <= k < 4 ==> IsDigit(s[k])
    ensures 0 <= n < 10000
  {
    ((DigitValue(s[0]) * 10 + DigitValue(s[1])) * 10 + DigitValue(s[2])) * 10 + DigitValue(s[3])
  }

  /** The character positions of the layout: digits everywhere except the separators. */
  predicate Separator(k: int) {
    k == 4 || k == 7 || k == 10 || k == 13 || k == 16
  }

  predicate MatchesLayout(s: string) {
    |s| == 19
    && s[4] == '-' && s[7] == '-' && s[10] == ' ' && s[13] == ':' && s[16] == ':'
    && forall k :: 0 <= k < 19 && !Separator(k) ==> IsDigit(s[k])
  }

  /** The fields a string in the layout spells, before any range check. */
  function Fields(s: string): DateTime
    requires MatchesLayout(s)
  {
    DateTime(Date(Num4(s), Num2(s, 5), Num2(s, 8)), Num2(s, 11), Num2(s, 14), Num2(s, 17))
  }

  /** `datetime.strptime(s, "%Y-%m-%d %H:%M:%S")` on the exact layout that `Format` writes:
      a string that does not spell a real datetime in that layout raises `ValueError`. */
  function Parse(s: string): (r: Result<Instant>)
    ensures r.Success? ==> MatchesLayout(s) && r.value == Fields(s)
    ensures r.Failure? ==> !MatchesLayout(s) || !ValidDateTime(Fields(s))
  {
    if !MatchesLayout(s) then Failure("time data does not match format '" + DatetimeFormat + "'")
    else
      var t := Fields(s);
      if ValidDateTime(t) then Success(t) else Failure("datetime value out of range")
  }

  /** Appending a decimal digit and taking it off again. */
  lemma DivMod10(q: int, r: int)
    requires 0 <= r < 10
    ensures (q * 10 + r) / 10 == q && (q * 10 + r) % 10 == r
  {
  }

  lemma DigitCharValue(d: int)
    requires 0 <= d < 10
    ensures IsDigit(DigitChar(d)) && DigitValue(DigitChar(d)) == d
  {
  }

  lemma ValueDigitChar(c: char)
    requires IsDigit(c)
    ensures DigitChar(DigitValue(c)) == c
  {
  }

  /** Parsing what `Format` writes gives back the same datetime. */
  lemma ParseFormat(t: Instant)
    ensures Parse(Format(t)) == Success(t)
  {
    var s := Format(t);
    forall k | 0 <= k < 19 && !Separator(k)
      ensures IsDigit(s[k]) && DigitValue(s[k]) == DigitAt(t, k)
    {
      DigitCharValue(DigitAt(t, k));
    }
    assert MatchesLayout(s);
    var y := t.date.year;
    assert y / 10 / 10 / 10 < 10;
    assert Num4(s) == y;
    assert Fields(s) == t;
  }

  /** Formatting what `Parse` accepted gives back the same string: the layout is the only one. */
  lemma FormatParse(s: string)
    requires Parse(s).Success?
    ensures Format(Parse(s).value) == s
  {
    forall k | 0 <= k < 19
      ensures Format(Parse(s).value)[k] == s[k]
    {
      if !Separator(k) {
        FormatParseDigit(s, k);
      }
    }
  }

  lemma FormatParseDigit(s: string, k: int)
    requires Parse(s).Success? && 0 <= k < 19 && !Separator(k)
    ensures DigitChar(DigitAt(Parse(s).value, k)) == s[k]
  {
    if k < 4 {
      YearDigit(s, k);
    } else {
      FieldDigit(s, k);
    }
    ValueDigitChar(s[k]);
  }

  /** The four year digits of a layout string are those of the year it spells. */
  lemma YearDigit(s: string, k: int)
    requires Parse(s).Success? && 0 <= k < 4
    ensures DigitAt(Parse(s).value, k) == DigitValue(s[k])
  {
    var a, b, c, d := DigitValue(s[0]), DigitValue(s[1]), DigitValue(s[2]), DigitValue(s[3]);
    assert Fields(s).date.year == ((a * 10 + b) * 10 + c) * 10 + d;
    DivMod10((a * 10 + b) * 10 + c, d);
    DivMod10(a * 10 + b, c);
    DivMod10(a, b);
  }

  /** The two digits of each other field of a layout string are those of the value it spells. */
  lemma FieldDigit(s: string, k: int)
    requires Parse(s).Success? && 4 < k < 19 && !Separator(k)
    ensures DigitAt(Parse(s).value, k) == DigitValue(s[k])
  {
    var t := Parse(s).value;
    if k < 7 {
      TwoDigits(s, 5, t.date.month);
    } else if k < 10 {
      TwoDigits(s, 8, t.date.day);
    } else if k < 13 {
      TwoDigits(s, 11, t.hour);
    } else if k < 16 {
      TwoDigits(s, 14, t.minute);
    } else {
      TwoDigits(s, 17, t.second);
    }
  }

  /** The tens and units of a two-digit number are its two digits. */
  lemma TwoDigits(s: string, i: nat, v: int)
    requires i + 2 <= |s| && IsDigit(s[i]) && IsDigit(s[i + 1]) && v == Num2(s, i)
    ensures v / 10 == DigitValue(s[i]) && v % 10 == DigitValue(s[i + 1])
  {
    DivMod10(DigitValue(s[i]), DigitValue(s[i + 1]));
  }

  // ---------------------------------------------------------------- the clock

  /** `DateTimeUtils.current_datetime_as_string`: the clock reading, formatted. */
  function CurrentDatetimeAsString(now: Instant): (r: string)
    ensures Parse(r) == Success(now)
  {
    ParseFormat(now);
    Format(now)
  }

  /** `DateTimeUtils.current_date`: the calendar day of the clock reading. */
  function CurrentDate(now: Instant): (d: Date)
    ensures ValidDate(d) && d == now.date
  {
    now.date
  }

  /** `DateTimeUtils.convert_string_date_to_date_only`: parse, then keep the day. */
  function ConvertStringDateToDateOnly(s: string): (r: Result<Date>)
    ensures r.Success? <==> Parse(s).Success?
    ensures r.Success? ==> r.value == Parse(s).value.date && ValidDate(r.value)
  {
    match Parse(s)
    case Success(t) => Success(t.date)
    case Failure(e) => Failure(e)
  }

  /** A formatted datetime converts back to its own calendar day. */
  lemma DateOnlyOfFormatted(t: Instant)
    ensures ConvertStringDateToDateOnly(Format(t)) == Success(t.date)
  {
    ParseFormat(t);
  }

  // ---------------------------------------------------------------- arithmetic

  function NextDay(d: Date): (r: Option<Date>)
    requires ValidDate(d)
    ensures r.Some? ==> ValidDate(r.value) && DateBefore(d, r.value)
    ensures r.None? <==> (d.year == 9999 && d.month == 12 && d.day == 31)
  {
    if d.day < DaysInMonth(d.year, d.month) then Some(Date(d.year, d.month, d.day + 1))
    else if d.month < 12 then Some(Date(d.year, d.month + 1, 1))
    else if d.year < 9999 then Some(Date(d.year + 1, 1, 1))
    else None
  }

  function PrevDay(d: Date): (r: Option<Date>)
    requires ValidDate(d)
    ensures r.Some? ==> ValidDate(r.value) && DateBefore(r.value, d)
    ensures r.None? <==> (d.year == 1 && d.month == 1 && d.day == 1)
  {
    if d.day > 1 then Some(Date(d.year, d.month, d.day - 1))
    else if d.month > 1 then Some(Date(d.year, d.month - 1, DaysInMonth(d.year, d.month - 1)))
    else if d.year > 1 then Some(Date(d.year - 1, 12, 31))
    else None
  }

  /** The day `n` days after (or, for negative `n`, before) `d`; `None` once the walk leaves
      the years 1 to 9999 (Python's `OverflowError`). */
  function ShiftDays(d: Date, n: int): (r: Option<Date>)
    requires ValidDate(d)
    ensures r.Some? ==> ValidDate(r.value)
    decreases if n < 0 then -n else n
  {
    if n == 0 then Some(d)
    else if n > 0 then
      match NextDay(d)
      case None => None
      case Some(d') => ShiftDays(d', n - 1)
    else
      match PrevDay(d)
      case None => None
      case Some(d') => ShiftDays(d', n + 1)
  }

  /** Moving forward by a positive number of days lands on a strictly later day. */
  lemma {:induction false} ShiftForwardIsLater(d: Date, n: int)
    requires ValidDate(d) && n > 0 && ShiftDays(d, n).Some?
    ensures DateBefore(d, ShiftDays(d, n).value)
    decreases n
  {
    var d' := NextDay(d).value;
    if n > 1 {
      ShiftForwardIsLater(d', n - 1);
      DateBeforeTransitive(d, d', ShiftDays(d', n - 1).value);
    }
  }

  /** `t + timedelta(seconds=secs)`; `None` when the result leaves Python's datetime range. */
  function AddSeconds(t: Instant, secs: int): (r: Option<Instant>)
    ensures r.Some? <==> ShiftDays(t.date, (SecondsOfDay(t) + secs) / SecondsPerDay).Some?
    ensures r.Some? ==> r.value.date == ShiftDays(t.date, (SecondsOfDay(t) + secs) / SecondsPerDay).value
    ensures r.Some? ==> SecondsOfDay(r.value) == (SecondsOfDay(t) + secs) % SecondsPerDay
  {
    var total := SecondsOfDay(t) + secs;
    var rest := total % SecondsPerDay;
    match ShiftDays(t.date, total / SecondsPerDay)
    case None => None
    case Some(d) => Some(DateTime(d, rest / 3600, rest % 3600 / 60, rest % 60))
  }

  /** Adding a non-negative number of seconds never goes back in time; adding a positive
      number moves strictly forward. */
  lemma AddSecondsLater(t: Instant, secs: int)
    requires secs >= 0 && AddSeconds(t, secs).Some?
    ensures AtOrBefore(t, AddSeconds(t, secs).value)
    ensures secs > 0 ==> !AtOrBefore(AddSeconds(t, secs).value, t)
  {
    var total := SecondsOfDay(t) + secs;
    var days := total / SecondsPerDay;
    if days > 0 {
      ShiftForwardIsLater(t.date, days);
    } else {
      assert days == 0;
      assert ShiftDays(t.date, 0) == Some(t.date);
    }
  }

  /** `DateTimeUtils.calculate_expiration_date_from_seconds`: the clock reading plus `expires_in`
      seconds, formatted. `expiresIn` is `None` when the value is not an integer (a missing
      `expires_in` arrives as Python's `None`), which makes `timedelta` raise `TypeError`. */
  function CalculateExpirationDateFromSeconds(now: Instant, expiresIn: Option<int>): (r: Result<string>)
    ensures r.Success? <==> expiresIn.Some? && AddSeconds(now, expiresIn.value).Some?
    ensures r.Success? ==> r.value == Format(AddSeconds(now, expiresIn.value).value)
  {
    match expiresIn
    case None => Failure("unsupported type for timedelta seconds component")
    case Some(secs) =>
      match AddSeconds(now, secs)
      case None => Failure("date value out of range")
      case Some(e) => Success(Format(e))
  }

  /** An expiry computed from a non-negative `expires_in` parses back to a moment no earlier than
      the clock reading it was computed from, and strictly later when `expires_in` is positive. */
  lemma ExpirationNotBeforeNow(now: Instant, expiresIn: int)
    requires expiresIn >= 0 && CalculateExpirationDateFromSeconds(now, Some(expiresIn)).Success?
    ensures var e := Parse(CalculateExpirationDateFromSeconds(now, Some(expiresIn)).value);
      e.Success? && AtOrBefore(now, e.value) && (expiresIn > 0 ==> !AtOrBefore(e.value, now))
  {
    var t := AddSeconds(now, expiresIn).value;
    ParseFormat(t);
    AddSecondsLater(now, expiresIn);
  }
}
