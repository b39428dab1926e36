/**
  Gregorian day arithmetic for the validity dates of certificates
  (section 4.1.2.5 of RFC 5280), with the machine's truncating division.
*/
module Calendar {
  const SECONDS_PER_DAY: int := 86400
  const MAX_INT64: int := 0x7fff_ffff_ffff_ffff

  /** Division of C++: towards zero. */
  function Quotient(a: int, b: int): int
    requires b > 0
  {
    if a >= 0 then a / b else -((-a) / b)
  }

  /** The remainder that goes with it. */
  function Remainder(a: int, b: int): int
    requires b > 0
  {
    a - b * Quotient(a, b)
  }

  predicate IsLeapYear(year: int) {
    (Remainder(year, 4) == 0 && Remainder(year, 100) != 0) || Remainder(year, 400) == 0
  }

  function DaysInMonth(year: int, month: int): int {
    if month < 1 || month > 12 then 0
    else [31, 28, 31, 30, 31, 30, 31, 31, 30, 31, 30, 31][month - 1] + if month == 2 && IsLeapYear(year) then 1 else 0
  }

  function DaysFromCivil(year: int, month: int, day: int): int {
    var adjustedYear := year - if month <= 2 then 1 else 0;
    var era := Quotient(if adjustedYear >= 0 then adjustedYear else adjustedYear - 399, 400);
    var yearOfEra := adjustedYear - era * 400;
    var adjustedMonth := if month > 2 then month - 3 else month + 9;
    var dayOfYear := Quotient(153 * adjustedMonth + 2, 5) + day - 1;
    var dayOfEra := yearOfEra * 365 + Quotient(yearOfEra, 4) - Quotient(yearOfEra, 100) + dayOfYear;
    era * 146097 + dayOfEra - 719468
  }

  datatype Date = Date(year: int, month: int, day: int)

  predicate ValidDate(d: Date) {
    1 <= d.month <= 12 && 1 <= d.day <= DaysInMonth(d.year, d.month)
  }

  function DayNumber(d: Date): int {
    DaysFromCivil(d.year, d.month, d.day)
  }

  /** The day after a valid date, by the calendar's own rules. */
  function NextDay(d: Date): Date {
    if d.day < DaysInMonth(d.year, d.month) then Date(d.year, d.month, d.day + 1)
    else if d.month < 12 then Date(d.year, d.month + 1, 1)
    else Date(d.year + 1, 1, 1)
  }

  // -----------------------------------------------------------------
  // The day number without truncation
  // -----------------------------------------------------------------

  /** Days before the first of March of a year: a leap day ends each year that has one. */
  function MarchDays(y: int): int {
    y * 365 + y / 4 - y / 100 + y / 400
  }

  /** Days from the first of March to the first of a month, counted from March. */
  function MonthDays(m: int): int {
    (153 * m + 2) / 5
  }

  lemma EraIsFloor(y: int)
    ensures Quotient(if y >= 0 then y else y - 399, 400) == y / 400
  {
    if y < 0 {
      var k := y / 400;
      assert 400 * k <= y < 400 * k + 400;
      assert -(y - 399) == 399 - y;
    }
  }

  /** The era and the year of the era put together again. */
  lemma DayNumberClosed(year: int, month: int, day: int)
    requires 1 <= month <= 12
    ensures var y, m := (if month <= 2 then year - 1 else year), (if month <= 2 then month + 9 else month - 3);
      DaysFromCivil(year, month, day) == MarchDays(y) + MonthDays(m) + day - 1 - 719468
  {
    var y := if month <= 2 then year - 1 else year;
    EraIsFloor(y);
    var era, yoe := y / 400, y % 400;
    assert y == era * 400 + yoe;
    assert y / 4 == era * 100 + yoe / 4;
    assert y / 100 == era * 4 + yoe / 100;
  }

  lemma LeapByFloor(year: int)
    ensures IsLeapYear(year) <==> (year % 4 == 0 && year % 100 != 0) || year % 400 == 0
  {
    RemainderZero(year, 4);
    RemainderZero(year, 100);
    RemainderZero(year, 400);
  }

  lemma RemainderZero(a: int, b: int)
    requires b > 0
    ensures Remainder(a, b) == 0 <==> a % b == 0
  {
    if a < 0 {
      var q := (-a) / b;
      assert -a == b * q + (-a) % b;
      if a % b == 0 { Multiple(a / b, b, -a); } else if (-a) % b == 0 { Multiple(q, b, a); }
    }
  }

  lemma Multiple(k: int, b: int, x: int)
    requires b > 0 && (x == -(b * k) || x == b * k)
    ensures x % b == 0
  {
    var j := if x == b * k then k else -k;
    assert x == b * j;
    assert (b * j) % b == 0 by { MultipleMod(b, j); }
  }

  lemma MultipleMod(b: int, j: int)
    requires b > 0
    ensures (b * j) % b == 0
  {
    var q, r := (b * j) / b, (b * j) % b;
    Spread(b, j, q);
    if q < j { Grows(b, j - q); } else if q > j { Grows(b, q - j); }
  }

  lemma Spread(b: int, j: int, q: int)
    ensures b * j - b * q == b * (j - q) && b * q - b * j == b * (q - j)
  {
  }

  lemma Grows(b: int, k: int)
    requires b > 0 && k >= 1
    ensures b * k >= b
  {
  }

  /** A March year has a leap day at its end exactly when the next calendar year is a leap year. */
  lemma MarchYearLength(y: int)
    ensures MarchDays(y + 1) - MarchDays(y) == if IsLeapYear(y + 1) then 366 else 365
  {
    LeapByFloor(y + 1);
    var n := y + 1;
    assert n / 4 - y / 4 == if n % 4 == 0 then 1 else 0;
    assert n / 100 - y / 100 == if n % 100 == 0 then 1 else 0;
    assert n / 400 - y / 400 == if n % 400 == 0 then 1 else 0;
    if n % 400 == 0 { assert n % 100 == 0 && n % 4 == 0; }
    if n % 100 == 0 { assert n % 4 == 0; }
  }

  /** Theorem: the day after a valid day is valid and has the next number, in every year. */
  lemma NextDayAddsOne(d: Date)
    requires ValidDate(d)
    ensures ValidDate(NextDay(d)) && DayNumber(NextDay(d)) == DayNumber(d) + 1
  {
    hide DaysFromCivil;
    hide MarchDays;
    hide MonthDays;
    hide IsLeapYear;
    hide DaysInMonth;
    var n := NextDay(d);
    NextDayValid(d);
    DayNumberClosed(d.year, d.month, d.day);
    DayNumberClosed(n.year, n.month, n.day);
    if d.month == 2 { MarchYearLength(d.year - 1); }
    MonthLengths(d.year, d.month);
  }

  lemma NextDayValid(d: Date)
    requires ValidDate(d)
    ensures ValidDate(NextDay(d)) && 1 <= NextDay(d).month <= 12
  {
  }

  /** The month table agrees with the formula; February is whatever is left of its March year. */
  lemma MonthLengths(year: int, month: int)
    requires 1 <= month <= 12
    ensures month > 2 && month < 12 ==> MonthDays(month - 2) - MonthDays(month - 3) == DaysInMonth(year, month)
    ensures month == 12 ==> MonthDays(10) - MonthDays(9) == DaysInMonth(year, month)
    ensures month == 1 ==> MonthDays(11) - MonthDays(10) == DaysInMonth(year, month)
    ensures month == 2 ==>
      MonthDays(0) - MonthDays(11) + (if IsLeapYear(year) then 366 else 365) == DaysInMonth(year, month)
  {
    hide IsLeapYear;
  }

  /** The count starts at 1970-01-01. */
  lemma Epoch()
    ensures DaysFromCivil(1970, 1, 1) == 0
  {
  }

  // -----------------------------------------------------------------
  // Calendar order
  // -----------------------------------------------------------------

  predicate Earlier(a: Date, b: Date) {
    a.year < b.year || (a.year == b.year && (a.month < b.month || (a.month == b.month && a.day < b.day)))
  }

  lemma MarchMonotone(y: int, z: int)
    requires y <= z
    ensures MarchDays(y) + 365 * (z - y) <= MarchDays(z)
    decreases z - y
  {
    if y < z {
      MarchYearLength(y);
      MarchMonotone(y + 1, z);
    }
  }

  /** Within a month the days are consecutive. */
  lemma DaysInLine(year: int, month: int, day: int)
    requires 1 <= month <= 12
    ensures DaysFromCivil(year, month, day) == DaysFromCivil(year, month, 1) + day - 1
  {
    DayNumberClosed(year, month, day);
    DayNumberClosed(year, month, 1);
    hide DaysFromCivil;
  }

  lemma MonthNotEmpty(year: int, month: int)
    requires 1 <= month <= 12
    ensures DaysInMonth(year, month) >= 1
  {
    hide IsLeapYear;
  }

  /** The days of a month come before the first of the next. */
  lemma NextMonth(year: int, month: int)
    requires 1 <= month < 12
    ensures DaysFromCivil(year, month, 1) + DaysInMonth(year, month) == DaysFromCivil(year, month + 1, 1)
  {
    MonthNotEmpty(year, month);
    NextDayAddsOne(Date(year, month, DaysInMonth(year, month)));
    DaysInLine(year, month, DaysInMonth(year, month));
    hide DaysFromCivil;
    hide DaysInMonth;
  }

  lemma {:induction false} MonthsInOrder(year: int, month: int, later: int)
    requires 1 <= month < later <= 12
    ensures DaysFromCivil(year, month, 1) + DaysInMonth(year, month) <= DaysFromCivil(year, later, 1)
    decreases later - month
  {
    hide DaysFromCivil;
    hide DaysInMonth;
    NextMonth(year, month);
    if month + 1 < later {
      MonthNotEmpty(year, month + 1);
      MonthsInOrder(year, month + 1, later);
    }
  }

  /** The days of a calendar year lie between its first of January and the next. */
  lemma WithinYear(d: Date)
    requires ValidDate(d)
    ensures DaysFromCivil(d.year, 1, 1) <= DayNumber(d) < DaysFromCivil(d.year + 1, 1, 1)
  {
    hide DaysFromCivil;
    DaysInLine(d.year, d.month, d.day);
    MonthNotEmpty(d.year, 1);
    if d.month > 1 { MonthsInOrder(d.year, 1, d.month); }
    MonthNotEmpty(d.year, 12);
    if d.month < 12 { MonthsInOrder(d.year, d.month, 12); }
    NextDayAddsOne(Date(d.year, 12, DaysInMonth(d.year, 12)));
    DaysInLine(d.year, 12, DaysInMonth(d.year, 12));
    hide IsLeapYear;
  }

  lemma WithinMonths(a: Date, b: Date)
    requires ValidDate(a) && ValidDate(b) && a.year == b.year && a.month < b.month
    ensures DayNumber(a) < DayNumber(b)
  {
    hide DaysFromCivil;
    hide DaysInMonth;
    DaysInLine(a.year, a.month, a.day);
    DaysInLine(b.year, b.month, b.day);
    MonthsInOrder(a.year, a.month, b.month);
  }

  lemma YearsInOrder(y: int, z: int)
    requires y < z
    ensures DaysFromCivil(y + 1, 1, 1) <= DaysFromCivil(z, 1, 1)
  {
    DayNumberClosed(y + 1, 1, 1);
    DayNumberClosed(z, 1, 1);
    MarchMonotone(y, z - 1);
  }

  /** Theorem: day numbers order valid dates as the calendar does. */
  lemma DayOrder(a: Date, b: Date)
    requires ValidDate(a) && ValidDate(b)
    ensures Earlier(a, b) <==> DayNumber(a) < DayNumber(b)
  {
    if Earlier(a, b) { EarlierLess(a, b); }
    else if a != b { EarlierLess(b, a); }
  }

  lemma EarlierLess(a: Date, b: Date)
    requires ValidDate(a) && ValidDate(b) && Earlier(a, b)
    ensures DayNumber(a) < DayNumber(b)
  {
    hide DaysFromCivil;
    hide DaysInMonth;
    if a.year < b.year {
      WithinYear(a);
      WithinYear(b);
      YearsInOrder(a.year, b.year);
    } else if a.month < b.month {
      WithinMonths(a, b);
    } else {
      DaysInLine(a.year, a.month, a.day);
      DaysInLine(b.year, b.month, b.day);
    }
  }

  // -----------------------------------------------------------------
  // Times
  // -----------------------------------------------------------------

  datatype Time = Time(date: Date, hour: int, min: int, sec: int)

  predicate Accepted(t: Time) {
    t.date.year >= 1970 && ValidDate(t.date) && 0 <= t.hour <= 23 && 0 <= t.min <= 59 && 0 <= t.sec <= 59 &&
    DayNumber(t.date) <= (MAX_INT64 - 86399) / 86400
  }

  method X509TimeToUnix(t: Time) returns (ok: bool, unix: int)
    ensures ok == Accepted(t)
    ensures ok ==> unix == UnixTime(t) && 0 <= unix <= MAX_INT64
  {
    unix := 0;
    var d := t.date;
    if d.year < 1970 || d.month < 1 || d.month > 12 || d.day < 1 || d.day > DaysInMonth(d.year, d.month) ||
       t.hour < 0 || t.hour > 23 || t.min < 0 || t.min > 59 || t.sec < 0 || t.sec > 59 {
      return false, 0;
    }
    var days := DaysFromCivil(d.year, d.month, d.day);
    if days > (MAX_INT64 - 86399) / 86400 { return false, 0; }
    NotBeforeEpoch(d);
    unix := days * SECONDS_PER_DAY + t.hour * 3600 + t.min * 60 + t.sec;
    return true, unix;
  }

  function UnixTime(t: Time): int {
    DayNumber(t.date) * SECONDS_PER_DAY + t.hour * 3600 + t.min * 60 + t.sec
  }

  lemma NotBeforeEpoch(d: Date)
    requires ValidDate(d) && d.year >= 1970
    ensures DayNumber(d) >= 0
  {
    Epoch();
    WithinYear(d);
    if d.year > 1970 { YearsInOrder(1969, d.year); }
  }

  predicate EarlierTime(a: Time, b: Time) {
    Earlier(a.date, b.date) ||
    (a.date == b.date &&
     (a.hour < b.hour || (a.hour == b.hour && (a.min < b.min || (a.min == b.min && a.sec < b.sec)))))
  }

  lemma FirstSecond(t: Time)
    requires Accepted(t)
    ensures UnixTime(t) == 0 <==> t == Time(Date(1970, 1, 1), 0, 0, 0)
  {
    hide DaysFromCivil;
    Epoch();
    var first := Date(1970, 1, 1);
    NotBeforeEpoch(t.date);
    if t.date != first { EarlierLess(first, t.date); }
  }

  /** Theorem: on accepted times the conversion is strictly increasing in calendar order, and begins with 1970. */
  lemma UnixOrder(a: Time, b: Time)
    requires Accepted(a) && Accepted(b)
    ensures EarlierTime(a, b) <==> UnixTime(a) < UnixTime(b)
    ensures UnixTime(a) == 0 <==> a == Time(Date(1970, 1, 1), 0, 0, 0)
  {
    FirstSecond(a);
    DayOrder(a.date, b.date);
    DayOrder(b.date, a.date);
    if a.date != b.date { assert Earlier(a.date, b.date) || Earlier(b.date, a.date); }
  }
}
