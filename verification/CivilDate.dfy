/** Civil dates and timestamps of the migration's session records. */
module CivilDate {
  import opened Protocol

  // ---------------------------------------------------------------- the calendar

  predicate Leap(year: int) { year % 4 == 0 && (year % 100 != 0 || year % 400 == 0) }

  function MonthLength(year: int, month: int): int {
    if month == 2 then (if Leap(year) then 29 else 28)
    else if month == 4 || month == 6 || month == 9 || month == 11 then 30
    else 31
  }

  datatype Date = Date(year: int, month: int, day: int) {
    /** A day of the proleptic Gregorian calendar. */
    predicate Valid() { 1 <= month <= 12 && 1 <= day <= MonthLength(year, month) }

    /** The day after. */
    function Next(): (d: Date)
      requires Valid()
      ensures d.Valid()
    {
      if day < MonthLength(year, month) then Date(year, month, day + 1)
      else if month < 12 then Date(year, month + 1, 1)
      else Date(year + 1, 1, 1)
    }

    predicate Before(other: Date) {
      || year < other.year
      || (year == other.year && month < other.month)
      || (year == other.year && month == other.month && day < other.day)
    }
  }

  const EPOCH: Date := Date(1970, 1, 1)

  // ---------------------------------------------------------------- the day number

  /** Division that truncates toward zero. */
  function TruncDiv(a: int, b: int): int
    requires b > 0
  {
    if a >= 0 then a / b else -(-a / b)
  }

  const I64_MAX: int := 0x7FFF_FFFF_FFFF_FFFF

  predicate InI64(n: int) { -I64_MAX - 1 <= n <= I64_MAX }

  function Era(adjustedYear: int): int {
    TruncDiv(if adjustedYear >= 0 then adjustedYear else adjustedYear - 399, 400)
  }

  function DayOfEra(year: int, month: int, day: int): int {
    var adjustedYear := year - if month <= 2 then 1 else 0;
    var yearOfEra := adjustedYear - Era(adjustedYear) * 400;
    var adjustedMonth := month + if month > 2 then -3 else 9;
    var dayOfYear := TruncDiv(153 * adjustedMonth + 2, 5) + day - 1;
    yearOfEra * 365 + TruncDiv(yearOfEra, 4) - TruncDiv(yearOfEra, 100) + dayOfYear
  }

  /** The day number without the bounds of the machine's integers. */
  function DayNumber(year: int, month: int, day: int): int {
    Era(year - if month <= 2 then 1 else 0) * 146_097 + DayOfEra(year, month, day) - 719_468
  }

  /** Days since the epoch, or none on overflow of a 64-bit integer. */
  function DaysFromCivil(year: int, month: int, day: int): Option<int> {
    var eras := Era(year - if month <= 2 then 1 else 0) * 146_097;
    if !InI64(eras) || !InI64(eras + DayOfEra(year, month, day)) then None
    else if !InI64(DayNumber(year, month, day)) then None
    else Some(DayNumber(year, month, day))
  }

  // ---------------------------------------------------------------- correctness of the day number

  lemma EraIsFloor(a: int)
    ensures Era(a) == a / 400
    ensures a - Era(a) * 400 == a % 400
  {
  }

  /** Days before March 1st of a year, counted by leap years. */
  function YearStart(a: int): int { 365 * a + a / 4 - a / 100 + a / 400 }

  lemma YearStartStep(a: int)
    ensures YearStart(a + 1) == YearStart(a) + if Leap(a + 1) then 366 else 365
  {
    DivStep(a, 4);
    DivStep(a, 100);
    DivStep(a, 400);
    assert (a + 1) % 400 == 0 ==> (a + 1) % 100 == 0;
    assert (a + 1) % 100 == 0 ==> (a + 1) % 4 == 0;
  }

  lemma DivStep(a: int, n: int)
    requires n > 1
    ensures (a + 1) / n == a / n + if (a + 1) % n == 0 then 1 else 0
  {
    var q, r := a / n, a % n;
    assert a == q * n + r;
    if r == n - 1 {
      assert a + 1 == (q + 1) * n by { assert (q + 1) * n == q * n + n; }
      DivOf(a + 1, n, q + 1, 0);
    } else {
      DivOf(a + 1, n, q, r + 1);
    }
  }

  lemma DivOf(a: int, n: int, q: int, r: int)
    requires n > 0 && a == q * n + r && 0 <= r < n
    ensures a / n == q && a % n == r
  {
    var q', r' := a / n, a % n;
    assert a == q' * n + r';
    var d := q - q';
    assert d * n == r' - r by { assert d * n == q * n - q' * n; }
    assert d == 0 by {
      if d >= 1 {
        MulLe(1, d, n);
      } else if d <= -1 {
        MulLe(d, -1, n);
      }
    }
  }

  lemma MulLe(a: int, b: int, n: int)
    requires a <= b && n > 0
    ensures a * n <= b * n
  {
    assert (b - a) * n >= 0;
    assert (b - a) * n == b * n - a * n;
  }

  /** The era arithmetic counts whole years from March. */
  lemma DayNumberIs(year: int, month: int, day: int)
    requires 1 <= month <= 12
    ensures var a := year - if month <= 2 then 1 else 0;
            var m := month + if month > 2 then -3 else 9;
            DayNumber(year, month, day) == YearStart(a) + (153 * m + 2) / 5 + day - 1 - 719_468
  {
    var a := year - if month <= 2 then 1 else 0;
    EraIsFloor(a);
    var e, y := a / 400, a % 400;
    assert a == 400 * e + y;
    DivOf(a, 4, 100 * e + y / 4, y % 4);
    DivOf(a, 100, 4 * e + y / 100, y % 100);
  }

  lemma EpochIsZero()
    ensures DaysFromCivil(1970, 1, 1) == Some(0)
  {
  }

  /** Days before a month, counting months from March. */
  function MonthStart(month: int): int
    requires 1 <= month <= 12
  {
    (153 * (month + if month > 2 then -3 else 9) + 2) / 5
  }

  lemma MonthStartStep(year: int, month: int)
    requires 1 <= month < 12 && month != 2
    ensures MonthStart(month + 1) == MonthStart(month) + MonthLength(year, month)
  {
    hide Leap;
    if month <= 4 {
    } else if month <= 8 {
    } else {
    }
  }

  /** The day number is the start of its year, counted from March, plus the days in it. */
  lemma DayNumberParts(year: int, month: int, day: int)
    requires 1 <= month <= 12
    ensures DayNumber(year, month, day)
            == YearStart(if month <= 2 then year - 1 else year) + MonthStart(month) + day - 1 - 719_468
  {
    DayNumberIs(year, month, day);
  }

  lemma MonthEnds(year: int, month: int)
    requires 1 <= month < 12
    ensures DayNumber(year, month + 1, 1) == DayNumber(year, month, MonthLength(year, month)) + 1
  {
    DayNumberParts(year, month, MonthLength(year, month));
    DayNumberParts(year, month + 1, 1);
    YearStartStep(year - 1);
    if month != 2 {
      MonthStartStep(year, month);
      hide MonthLength, MonthStart, YearStart, DayNumber;
    } else {
      assert MonthStart(2) == 337 && MonthStart(3) == 0;
      hide YearStart, DayNumber;
    }
  }

  lemma YearEnds(year: int)
    ensures DayNumber(year + 1, 1, 1) == DayNumber(year, 12, 31) + 1
  {
    DayNumberParts(year, 12, 31);
    DayNumberParts(year + 1, 1, 1);
  }

  lemma DaysCount(year: int, month: int, a: int, b: int)
    requires 1 <= month <= 12
    ensures DayNumber(year, month, b) == DayNumber(year, month, a) + b - a
  {
    DayNumberParts(year, month, a);
    DayNumberParts(year, month, b);
    hide MonthStart, YearStart, DayNumber;
  }

  /** From each valid date to the next, in every year, the day number grows by one. */
  lemma NextDayIsOneMore(d: Date)
    requires d.Valid()
    ensures var n := d.Next(); DayNumber(n.year, n.month, n.day) == DayNumber(d.year, d.month, d.day) + 1
  {
    hide DayNumber;
    if d.day < MonthLength(d.year, d.month) {
      DaysCount(d.year, d.month, d.day, d.day + 1);
    } else if d.month < 12 {
      MonthEnds(d.year, d.month);
    } else {
      YearEnds(d.year);
    }
  }

  /** The n-th day after the epoch, counted one by one. */
  function NthDay(n: nat): (d: Date)
    ensures d.Valid()
  {
    if n == 0 then EPOCH else NthDay(n - 1).Next()
  }

  lemma FirstDayIsZero()
    ensures DayNumber(NthDay(0).year, NthDay(0).month, NthDay(0).day) == 0
  {
    EpochIsZero();
  }

  lemma {:induction false} NthDayIsNumberN(n: nat)
    ensures var d := NthDay(n); DayNumber(d.year, d.month, d.day) == n
  {
    hide DayNumber, Date.Next, DaysFromCivil, Date.Valid;
    if n == 0 {
      FirstDayIsZero();
    } else {
      NthDayIsNumberN(n - 1);
      NextDayIsOneMore(NthDay(n - 1));
    }
  }

  lemma {:induction false} LaterInYear(d: Date, month: int)
    requires d.Valid() && d.month < month <= 12
    ensures DayNumber(d.year, d.month, d.day) < DayNumber(d.year, month, 1)
    decreases month
  {
    hide DayNumber;
    var length := MonthLength(d.year, month - 1);
    MonthEnds(d.year, month - 1);
    if d.month < month - 1 {
      LaterInYear(d, month - 1);
      DaysCount(d.year, month - 1, 1, length);
    } else {
      DaysCount(d.year, d.month, d.day, length);
    }
  }

  lemma {:induction false} LaterYear(d: Date, year: int)
    requires d.Valid() && d.year < year
    ensures DayNumber(d.year, d.month, d.day) < DayNumber(year, 1, 1)
    decreases year - d.year
  {
    hide DayNumber;
    YearEnds(year - 1);
    DaysCount(year - 1, 12, 1, 31);
    if d.year < year - 1 {
      LaterYear(d, year - 1);
      LaterInYear(Date(year - 1, 1, 1), 12);
    } else if d.month < 12 {
      LaterInYear(d, 12);
    } else {
      DaysCount(d.year, 12, d.day, 31);
    }
  }

  lemma DayNumberRises(a: Date, b: Date)
    requires a.Valid() && b.Valid() && a.Before(b)
    ensures DayNumber(a.year, a.month, a.day) < DayNumber(b.year, b.month, b.day)
  {
    hide DayNumber;
    DaysCount(b.year, b.month, 1, b.day);
    if a.year < b.year {
      LaterYear(a, b.year);
      if 1 < b.month {
        LaterInYear(Date(b.year, 1, 1), b.month);
      }
    } else if a.month < b.month {
      LaterInYear(a, b.month);
    } else {
      DaysCount(a.year, a.month, a.day, b.day);
    }
  }

  /** The day number orders valid dates as the calendar does. */
  lemma DayNumberOrders(a: Date, b: Date)
    requires a.Valid() && b.Valid()
    ensures a.Before(b) <==> DayNumber(a.year, a.month, a.day) < DayNumber(b.year, b.month, b.day)
  {
    if a.Before(b) {
      DayNumberRises(a, b);
    } else if b.Before(a) {
      DayNumberRises(b, a);
    }
  }

  // ---------------------------------------------------------------- timestamps

  predicate IsDigit(c: char) { '0' <= c <= '9' }

  predicate AllDigits(s: string) { forall i :: 0 <= i < |s| ==> IsDigit(s[i]) }

  function DigitsValue(s: string): nat
    requires AllDigits(s)
  {
    if s == "" then 0 else 10 * DigitsValue(s[..|s| - 1]) + (s[|s| - 1] as int - '0' as int)
  }

  /** An unsigned number as the source's parser reads it: digits, after an optional plus sign. */
  function ParseNumber(s: string): Option<nat> {
    var digits := if s != "" && s[0] == '+' then s[1..] else s;
    if digits == "" || !AllDigits(digits) then None else Some(DigitsValue(digits))
  }

  /** Milliseconds of a fraction: its first three digits, padded. */
  function Millis(fraction: string): nat
    requires AllDigits(fraction)
  {
    var n := if |fraction| < 3 then |fraction| else 3;
    DigitsValue(fraction[..n]) * (if n == 0 then 1_000 else if n == 1 then 100 else if n == 2 then 10 else 1)
  }

  function FractionMs(value: string): Option<nat>
    requires |value| >= 20 && value[|value| - 1] == 'Z'
  {
    if value[19] == '.' then
      var fraction := value[20..|value| - 1];
      if fraction == "" || |fraction| > 9 || !AllDigits(fraction) then None else Some(Millis(fraction))
    else if |value| == 20 then Some(0)
    else None
  }

  predicate Punctuated(value: string)
    requires |value| >= 20
  {
    value[4] == '-' && value[7] == '-' && value[10] == 'T' && value[13] == ':' && value[16] == ':'
  }

  datatype Fields = Fields(year: nat, month: nat, day: nat, hour: nat, minute: nat, second: nat) {
    predicate InRange() {
      1 <= month <= 12 && 1 <= day <= 31 && hour <= 23 && minute <= 59 && second <= 60
    }
  }

  function ReadFields(value: string): Option<Fields>
    requires |value| >= 20
  {
    var year, month, day := ParseNumber(value[0..4]), ParseNumber(value[5..7]), ParseNumber(value[8..10]);
    var hour, minute, second := ParseNumber(value[11..13]), ParseNumber(value[14..16]), ParseNumber(value[17..19]);
    if year.None? || month.None? || day.None? || hour.None? || minute.None? || second.None? then None
    else Some(Fields(year.value, month.value, day.value, hour.value, minute.value, second.value))
  }

  /** Milliseconds since the epoch of a UTC timestamp, or none when it is malformed or too early. */
  function TimestampMs(value: string): Option<nat> {
    if |value| < 20 || value[|value| - 1] != 'Z' then None else
    var fields := ReadFields(value);
    if fields.None? || !Punctuated(value) || !fields.value.InRange() then None else
    var f := fields.value;
    var millis := FractionMs(value);
    if millis.None? then None else
    var days := DaysFromCivil(f.year, f.month, f.day);
    if days.None? then None else
    var seconds := days.value * 86_400 + f.hour * 3600 + f.minute * 60 + f.second;
    if seconds < 0 then None else Some(seconds * 1000 + millis.value)
  }

  /** A moment as its fields say it; the fraction is the text after the point, if any. */
  datatype Stamp = Stamp(date: Date, hour: int, minute: int, second: int, fraction: string) {
    predicate Valid() {
      && 0 <= date.year <= 9999 && date.Valid() && 0 <= hour <= 23 && 0 <= minute <= 59 && 0 <= second <= 60
      && |fraction| <= 9 && AllDigits(fraction)
    }

    function Seconds(): int {
      DayNumber(date.year, date.month, date.day) * 86_400 + hour * 3600 + minute * 60 + second
    }

    function Instant(): int requires Valid() { Seconds() * 1000 + Millis(fraction) }

    /** Earlier, field by field, to the millisecond. */
    predicate Earlier(other: Stamp)
      requires Valid() && other.Valid()
    {
      || date.Before(other.date)
      || (date == other.date
          && (|| hour < other.hour
              || (hour == other.hour
                  && (|| minute < other.minute
                      || (minute == other.minute
                          && (|| second < other.second
                              || (second == other.second && Millis(fraction) < Millis(other.fraction))))))))
    }

    function Text(): string
      requires Valid()
    {
      Head() + (if fraction == "" then "" else "." + fraction) + "Z"
    }

    function Head(): (h: string)
      requires Valid()
      ensures |h| == 19
    {
      TwoDigits(date.year / 100) + TwoDigits(date.year % 100) + "-" + TwoDigits(date.month) + "-"
      + TwoDigits(date.day) + "T" + TwoDigits(hour) + ":" + TwoDigits(minute) + ":" + TwoDigits(second)
    }
  }

  function TwoDigits(n: int): (s: string)
    requires 0 <= n < 100
    ensures |s| == 2
  {
    [(n / 10 + '0' as int) as char, (n % 10 + '0' as int) as char]
  }

  lemma TwoDigitsRead(n: int)
    requires 0 <= n < 100
    ensures AllDigits(TwoDigits(n)) && DigitsValue(TwoDigits(n)) == n && ParseNumber(TwoDigits(n)) == Some(n)
  {
    var s := TwoDigits(n);
    assert s[..1] == [s[0]] && [s[0]][..0] == "";
    assert DigitsValue([s[0]]) == n / 10;
  }

  lemma FourDigitsRead(n: int)
    requires 0 <= n <= 9999
    ensures ParseNumber(TwoDigits(n / 100) + TwoDigits(n % 100)) == Some(n)
  {
    var a, b := TwoDigits(n / 100), TwoDigits(n % 100);
    var s := a + b;
    TwoDigitsRead(n / 100);
    TwoDigitsRead(n % 100);
    assert s[..3] == a + [b[0]] && (a + [b[0]])[..2] == a;
    assert DigitsValue(a + [b[0]]) == 10 * (n / 100) + n % 100 / 10;
    assert AllDigits(s);
  }

  function TenTo(n: nat): nat { if n == 0 then 1 else 10 * TenTo(n - 1) }

  lemma Scale(a: nat, k: nat, t: nat, kt: nat)
    requires kt == k * t
    ensures a * kt == k * (a * t)
  {
  }

  /** More digits make a number more precise. */
  lemma {:induction false} DigitsRefine(s: string, n: nat)
    requires AllDigits(s) && n <= |s|
    ensures DigitsValue(s[..n]) * TenTo(|s| - n) <= DigitsValue(s) < (DigitsValue(s[..n]) + 1) * TenTo(|s| - n)
  {
    if n == |s| {
      assert s[..n] == s;
    } else {
      var init := s[..|s| - 1];
      DigitsRefine(init, n);
      assert init[..n] == s[..n];
      assert DigitsValue(s) == 10 * DigitsValue(init) + (s[|s| - 1] as int - '0' as int) && IsDigit(s[|s| - 1]);
      hide DigitsValue;
      var a, t, tt := DigitsValue(s[..n]), TenTo(|s| - 1 - n), TenTo(|s| - n);
      assert tt == 10 * t;
      hide TenTo;
      Scale(a, 10, t, tt);
      Scale(a + 1, 10, t, tt);
    }
  }

  /** A fraction of a second is read as whole milliseconds, rounded down. */
  lemma MillisAre(fraction: string)
    requires AllDigits(fraction)
    ensures Millis(fraction) * TenTo(|fraction|) <= 1_000 * DigitsValue(fraction)
    ensures 1_000 * DigitsValue(fraction) < (Millis(fraction) + 1) * TenTo(|fraction|)
  {
    hide DigitsValue;
    if |fraction| < 3 {
      assert fraction[..|fraction|] == fraction;
      assert TenTo(0) == 1 && TenTo(1) == 10 && TenTo(2) == 100;
    } else {
      DigitsRefine(fraction, 3);
      var a, t, tt := DigitsValue(fraction[..3]), TenTo(|fraction| - 3), TenTo(|fraction|);
      assert tt == 10 * TenTo(|fraction| - 1) && TenTo(|fraction| - 1) == 10 * TenTo(|fraction| - 2);
      assert TenTo(|fraction| - 2) == 10 * t;
      hide TenTo;
      Scale(a, 1_000, t, tt);
      Scale(a + 1, 1_000, t, tt);
    }
  }

  lemma MillisBelow(fraction: string)
    requires AllDigits(fraction)
    ensures Millis(fraction) <= 999
  {
    var n := if |fraction| < 3 then |fraction| else 3;
    DigitsBelow(fraction[..n]);
  }

  lemma {:induction false} DigitsBelow(s: string)
    requires AllDigits(s) && |s| <= 3
    ensures DigitsValue(s) < (if |s| == 0 then 1 else if |s| == 1 then 10 else if |s| == 2 then 100 else 1000)
  {
    if s != "" {
      DigitsBelow(s[..|s| - 1]);
    }
  }

  lemma DaysFit(d: Date)
    requires d.Valid() && 0 <= d.year <= 9999
    ensures DaysFromCivil(d.year, d.month, d.day) == Some(DayNumber(d.year, d.month, d.day))
  {
  }

  lemma DaysAlwaysFit(year: nat, month: nat, day: nat)
    requires year <= 9_999 && 1 <= month <= 12 && 1 <= day <= 31
    ensures DaysFromCivil(year, month, day) == Some(DayNumber(year, month, day))
  {
  }

  lemma {:induction false} DigitsUnder(s: string)
    requires AllDigits(s)
    ensures DigitsValue(s) < TenTo(|s|)
  {
    if s != "" {
      DigitsUnder(s[..|s| - 1]);
    }
  }

  lemma FourDigitsUnder(s: string)
    requires |s| <= 4 && ParseNumber(s).Some?
    ensures ParseNumber(s).value <= 9_999
  {
    var digits := if s != "" && s[0] == '+' then s[1..] else s;
    DigitsUnder(digits);
    assert TenTo(0) == 1 && TenTo(1) == 10 && TenTo(2) == 100 && TenTo(3) == 1_000 && TenTo(4) == 10_000;
  }

  /** The text has a number in each of the six places, between the right marks, and no more than a fraction
      of one to nine digits after them. */
  ghost predicate HasShape(value: string) {
    && |value| >= 20 && value[|value| - 1] == 'Z'
    && value[4] == '-' && value[7] == '-' && value[10] == 'T' && value[13] == ':' && value[16] == ':'
    && ReadFields(value).Some?
    && (|value| == 20
        || (value[19] == '.' && 22 <= |value| <= 30 && AllDigits(value[20..|value| - 1])))
  }

  /** A timestamp is read exactly if it has the shape, its fields are in range, and it is not before the
      epoch; no date of four digits overflows. */
  lemma ReadExactly(value: string)
    ensures TimestampMs(value).Some? <==>
              && HasShape(value)
              && var f := ReadFields(value).value;
              && 1 <= f.month <= 12 && 1 <= f.day <= 31 && f.hour <= 23 && f.minute <= 59 && f.second <= 60
              && DayNumber(f.year, f.month, f.day) * 86_400 + f.hour * 3_600 + f.minute * 60 + f.second >= 0
    ensures TimestampMs(value).Some? ==>
              var f := ReadFields(value).value;
              TimestampMs(value).value
              == (DayNumber(f.year, f.month, f.day) * 86_400 + f.hour * 3_600 + f.minute * 60 + f.second) * 1_000
                 + if |value| == 20 then 0 else Millis(value[20..|value| - 1])
  {
    hide DayNumber, DaysFromCivil, ParseNumber, Millis;
    if |value| >= 20 && value[|value| - 1] == 'Z' && ReadFields(value).Some? {
      var f := ReadFields(value).value;
      FourDigitsUnder(value[0..4]);
      if f.InRange() {
        DaysAlwaysFit(f.year, f.month, f.day);
      }
    }
  }

  lemma HeadReads(s: Stamp)
    requires s.Valid()
    ensures var h := s.Head();
            && h[0..4] == TwoDigits(s.date.year / 100) + TwoDigits(s.date.year % 100)
            && h[5..7] == TwoDigits(s.date.month) && h[8..10] == TwoDigits(s.date.day)
            && h[11..13] == TwoDigits(s.hour) && h[14..16] == TwoDigits(s.minute) && h[17..19] == TwoDigits(s.second)
            && h[4] == '-' && h[7] == '-' && h[10] == 'T' && h[13] == ':' && h[16] == ':'
  {
    hide TwoDigits;
  }

  lemma TextFields(s: Stamp)
    requires s.Valid()
    ensures var text := s.Text();
            && |text| >= 20 && text[|text| - 1] == 'Z' && Punctuated(text)
            && ReadFields(text) == Some(Fields(s.date.year, s.date.month, s.date.day, s.hour, s.minute, s.second))
  {
    HeadReads(s);
    FourDigitsRead(s.date.year);
    TwoDigitsRead(s.date.month);
    TwoDigitsRead(s.date.day);
    TwoDigitsRead(s.hour);
    TwoDigitsRead(s.minute);
    TwoDigitsRead(s.second);
    TextParts(s);
    hide Stamp.Text, Stamp.Head, TwoDigits, ParseNumber, Millis, DigitsValue, FractionMs, AllDigits;
  }

  lemma FromParts(value: string, f: Fields, millis: nat, days: int)
    requires |value| >= 20 && value[|value| - 1] == 'Z' && Punctuated(value)
    requires ReadFields(value) == Some(f) && f.InRange()
    requires FractionMs(value) == Some(millis) && DaysFromCivil(f.year, f.month, f.day) == Some(days)
    ensures TimestampMs(value)
            == (var seconds := days * 86_400 + f.hour * 3600 + f.minute * 60 + f.second;
                if seconds < 0 then None else Some(seconds * 1000 + millis))
  {
    hide ReadFields, Punctuated, DaysFromCivil, FractionMs;
  }

  lemma TextFraction(s: Stamp)
    requires s.Valid()
    ensures var text := s.Text();
            |text| >= 20 && text[|text| - 1] == 'Z' && FractionMs(text) == Some(Millis(s.fraction))
  {
    TextParts(s);
  }

  /** Reading back a written timestamp gives its instant, or none when it lies before the epoch. */
  lemma TextReadsBack(s: Stamp)
    requires s.Valid()
    ensures TimestampMs(s.Text()) == if s.Seconds() < 0 then None else Some(s.Instant())
  {
    hide Stamp.Text, Stamp.Head, Stamp.Valid, Date.Valid, ReadFields, Punctuated, DayNumber, DaysFromCivil, Millis,
         FractionMs, TimestampMs, AllDigits;
    TextFields(s);
    TextFraction(s);
    FieldsInRange(s);
    ValidDate(s);
    DaysFit(s.date);
    var days := DayNumber(s.date.year, s.date.month, s.date.day);
    FromParts(s.Text(), Fields(s.date.year, s.date.month, s.date.day, s.hour, s.minute, s.second),
              Millis(s.fraction), days);
  }

  lemma ValidDate(s: Stamp)
    requires s.Valid()
    ensures s.date.Valid() && 0 <= s.date.year <= 9999
  {
  }

  lemma FieldsInRange(s: Stamp)
    requires s.Valid()
    ensures 1 <= s.date.month <= 12 && 1 <= s.date.day <= 31
    ensures 0 <= s.hour <= 23 && 0 <= s.minute <= 59 && 0 <= s.second <= 60 && AllDigits(s.fraction)
  {
  }

  lemma TextParts(s: Stamp)
    requires s.Valid()
    ensures var text, head := s.Text(), s.Head();
            && |text| >= 20 && text[|text| - 1] == 'Z' && (forall i :: 0 <= i < 19 ==> text[i] == head[i])
            && text[0..4] == head[0..4] && text[5..7] == head[5..7] && text[8..10] == head[8..10]
            && text[11..13] == head[11..13] && text[14..16] == head[14..16] && text[17..19] == head[17..19]
            && FractionMs(text) == Some(Millis(s.fraction))
  {
    hide Stamp.Head;
    var text := s.Text();
    if s.fraction != "" {
      assert text[20..|text| - 1] == s.fraction;
    } else {
      assert s.fraction[..0] == "";
    }
  }

  lemma SecondsOrder(a: Stamp, b: Stamp)
    requires a.Valid() && b.Valid() && a.second <= 59 && a.Earlier(b)
    ensures a.Instant() < b.Instant()
  {
    DayNumberOrders(a.date, b.date);
    MillisBelow(a.fraction);
    hide DayNumber, Millis, Date.Valid;
  }

  lemma NoneEarlier(a: Stamp, b: Stamp)
    requires a.Valid() && b.Valid() && !a.Earlier(b) && !b.Earlier(a)
    ensures a.Instant() == b.Instant()
  {
    hide DayNumber, Millis, Date.Valid;
  }

  /** Of two written timestamps at or after the epoch, the one that reads lower is the earlier one,
      leap seconds apart. */
  lemma TimestampsOrder(a: Stamp, b: Stamp)
    requires a.Valid() && b.Valid() && a.Seconds() >= 0 && b.Seconds() >= 0
    requires a.second <= 59 && b.second <= 59
    ensures TimestampMs(a.Text()).Some? && TimestampMs(b.Text()).Some?
    ensures a.Earlier(b) <==> TimestampMs(a.Text()).value < TimestampMs(b.Text()).value
  {
    TextReadsBack(a);
    TextReadsBack(b);
    if a.Earlier(b) {
      SecondsOrder(a, b);
    } else if b.Earlier(a) {
      SecondsOrder(b, a);
    } else {
      NoneEarlier(a, b);
    }
  }

  lemma EarlierSeconds(a: Stamp, b: Stamp)
    requires a.Valid() && b.Valid() && a.Earlier(b)
    ensures a.Seconds() < b.Seconds()
            || (a.Seconds() == b.Seconds() && (a.second == 60 || Millis(a.fraction) < Millis(b.fraction)))
  {
    DayNumberOrders(a.date, b.date);
    hide DayNumber, Millis, Date.Valid;
  }

  /** Leap seconds included: an earlier timestamp reads lower except when it is a leap second that
      reads as the very second of the later one, with a fraction that is no smaller. */
  lemma OrderExactly(a: Stamp, b: Stamp)
    requires a.Valid() && b.Valid() && a.Seconds() >= 0 && b.Seconds() >= 0 && a.Earlier(b)
    ensures TimestampMs(a.Text()).Some? && TimestampMs(b.Text()).Some?
    ensures TimestampMs(a.Text()).value < TimestampMs(b.Text()).value
            <==> !(a.Seconds() == b.Seconds() && Millis(b.fraction) <= Millis(a.fraction))
    ensures a.Seconds() == b.Seconds() && Millis(b.fraction) <= Millis(a.fraction) ==> a.second == 60
  {
    hide TimestampMs, DayNumber, Millis, Stamp.Text, Stamp.Earlier, Stamp.Seconds;
    TextReadsBack(a);
    TextReadsBack(b);
    EarlierSeconds(a, b);
    MillisBelow(a.fraction);
    MillisBelow(b.fraction);
  }

  /** The first second of the next minute. */
  function NextMinute(s: Stamp): Stamp
    requires s.Valid()
  {
    if s.minute < 59 then Stamp(s.date, s.hour, s.minute + 1, 0, s.fraction)
    else if s.hour < 23 then Stamp(s.date, s.hour + 1, 0, 0, s.fraction)
    else Stamp(s.date.Next(), 0, 0, 0, s.fraction)
  }

  /** A leap second, in whatever minute, reads as the first second of the next: this is where the order
      stops. */
  lemma LeapSecondTies(s: Stamp)
    requires s.Valid() && s.second == 60 && s.date.year <= 9998
    ensures NextMinute(s).Valid() && TimestampMs(s.Text()) == TimestampMs(NextMinute(s).Text())
  {
    hide TimestampMs, DayNumber, Millis, Stamp.Text;
    TextReadsBack(s);
    TextReadsBack(NextMinute(s));
    NextDayIsOneMore(s.date);
  }

  lemma DaysInRange(year: int, month: int, day: int)
    requires 0 <= year <= 9999 && 1 <= month <= 12 && 1 <= day <= 31
    ensures DaysFromCivil(year, month, day) == Some(DayNumber(year, month, day))
  {
  }

  /** A day past the end of its month is read as so many days into the next one. */
  lemma PastMonthEnd(year: int, month: int, day: int)
    requires 0 <= year <= 9999 && 1 <= month <= 12 && MonthLength(year, month) < day <= 31
    ensures month < 12
    ensures DaysFromCivil(year, month, day) == DaysFromCivil(year, month + 1, day - MonthLength(year, month))
  {
    var length := MonthLength(year, month);
    DaysInRange(year, month, day);
    DaysInRange(year, month + 1, day - length);
    hide DaysFromCivil, DayNumber;
    MonthEnds(year, month);
    DaysCount(year, month, length, day);
    DaysCount(year, month + 1, 1, day - length);
  }

  lemma MidnightReads(value: string, year: string, month: string, day: string, f: Fields)
    requires value == year + "-" + month + "-" + day + "T00:00:00Z" && |year| == 4 && |month| == |day| == 2
    requires ParseNumber(year) == Some(f.year) && ParseNumber(month) == Some(f.month) && ParseNumber(day) == Some(f.day)
    requires ParseNumber("00") == Some(0) && f.hour == f.minute == f.second == 0
    ensures |value| == 20 && value[19] == 'Z' && Punctuated(value) && FractionMs(value) == Some(0)
    ensures ReadFields(value) == Some(f)
  {
    hide ParseNumber;
    assert value[0..4] == year && value[5..7] == month && value[8..10] == day;
    assert value[11..13] == "00" && value[14..16] == "00" && value[17..19] == "00";
  }

  /** So the thirty-first of February 2021 is the third of March. */
  lemma LastOfFebruary()
    ensures var february, march :=
              "2021" + "-" + "02" + "-" + "31" + "T00:00:00Z", "2021" + "-" + "03" + "-" + "03" + "T00:00:00Z";
            TimestampMs(february).Some? && TimestampMs(february) == TimestampMs(march)
  {
    hide ParseNumber, DaysFromCivil, DayNumber, ReadFields, Punctuated, FractionMs, TimestampMs;
    var february, march :=
      "2021" + "-" + "02" + "-" + "31" + "T00:00:00Z", "2021" + "-" + "03" + "-" + "03" + "T00:00:00Z";
    var f, m := Fields(2021, 2, 31, 0, 0, 0), Fields(2021, 3, 3, 0, 0, 0);
    NumbersRead();
    MidnightReads(february, "2021", "02", "31", f);
    MidnightReads(march, "2021", "03", "03", m);
    PastMonthEnd(2021, 2, 31);
    DaysInRange(2021, 3, 3);
    AfterEpoch();
    FromParts(february, f, 0, 18_689);
    FromParts(march, m, 0, 18_689);
  }

  lemma AfterEpoch()
    ensures DayNumber(2021, 3, 3) == 18_689
  {
  }

  lemma NumbersRead()
    ensures ParseNumber("2021") == Some(2021) && ParseNumber("02") == Some(2) && ParseNumber("31") == Some(31)
    ensures ParseNumber("03") == Some(3) && ParseNumber("00") == Some(0)
  {
    FourDigitsRead(2021);
    TwoDigitsRead(2);
    TwoDigitsRead(31);
    TwoDigitsRead(3);
    TwoDigitsRead(0);
    assert TwoDigits(20) + TwoDigits(21) == "2021" && TwoDigits(2) == "02" && TwoDigits(31) == "31";
    assert TwoDigits(3) == "03" && TwoDigits(0) == "00";
  }
}
