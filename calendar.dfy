/** The day arithmetic behind JavaScript's `Date` constructor and `setDate`,
    as ECMAScript defines it (sections "Days in Year", "Month from a Time
    Value" and "MakeDay" of ECMA-262), on the local time line. A day is counted
    from 1 January 1970; an instant is milliseconds from its midnight. */
module Calendar {

  const DayMs: int := 86400000

  predicate InLeapYear(y: int) {
    y % 4 == 0 && (y % 100 != 0 || y % 400 == 0)
  }

  /** The day number of 1 January of year `y`. */
  function DayFromYear(y: int): int {
    365 * (y - 1970) + (y - 1969) / 4 - (y - 1901) / 100 + (y - 1601) / 400
  }

  function DaysInYear(y: int): (n: int)
    ensures n == 365 || n == 366
  {
    if InLeapYear(y) then 366 else 365
  }

  /** The three leap-day counts of `DayFromYear`, from one year to the next:
      each steps up exactly when the year is a multiple of its divisor. */
  lemma FourStep(y: int)
    ensures (y - 1968) / 4 == (y - 1969) / 4 + (if y % 4 == 0 then 1 else 0)
  {
  }

  lemma HundredStep(y: int)
    ensures (y - 1900) / 100 == (y - 1901) / 100 + (if y % 100 == 0 then 1 else 0)
  {
  }

  lemma FourHundredStep(y: int)
    ensures (y - 1600) / 400 == (y - 1601) / 400 + (if y % 400 == 0 then 1 else 0)
  {
  }

  /** The leap rule as a count: a multiple of 400 is a multiple of 100, and
      a multiple of 100 a multiple of 4. */
  lemma LeapCount(y: int)
    ensures DaysInYear(y) == 365 + (if y % 4 == 0 then 1 else 0)
      - (if y % 100 == 0 then 1 else 0) + (if y % 400 == 0 then 1 else 0)
  {
    if y % 400 == 0 {
      MultipleOf100(y, 4 * (y / 400));
    }
    if y % 100 == 0 {
      MultipleOf4(y, 25 * (y / 100));
    }
  }

  lemma MultipleOf4(y: int, k: int)
    requires y == 4 * k
    ensures y % 4 == 0
  {
  }

  lemma MultipleOf100(y: int, k: int)
    requires y == 100 * k
    ensures y % 100 == 0
  {
  }

  /** Consecutive years are `DaysInYear` apart. */
  lemma NextYear(y: int)
    ensures DayFromYear(y + 1) == DayFromYear(y) + DaysInYear(y)
  {
    FourStep(y);
    HundredStep(y);
    FourHundredStep(y);
    LeapCount(y);
    assert DayFromYear(y + 1) == 365 * (y - 1969) + (y - 1968) / 4 - (y - 1900) / 100 + (y - 1600) / 400;
  }

  /** Days in month `m` (0 = January) of year `y`. */
  function DaysInMonth(y: int, m: int): (n: int)
    requires 0 <= m < 12
    ensures 28 <= n <= 31
  {
    if m == 1 then (if InLeapYear(y) then 29 else 28)
    else if m == 3 || m == 5 || m == 8 || m == 10 then 30
    else 31
  }

  /** The day of the year on which month `m` starts. */
  function MonthStart(y: int, m: int): (d: int)
    requires 0 <= m < 12
    ensures 0 <= d <= 334 + 1
  {
    var leap := if InLeapYear(y) then 1 else 0;
    if m == 0 then 0
    else if m == 1 then 31
    else if m == 2 then 59 + leap
    else if m == 3 then 90 + leap
    else if m == 4 then 120 + leap
    else if m == 5 then 151 + leap
    else if m == 6 then 181 + leap
    else if m == 7 then 212 + leap
    else if m == 8 then 243 + leap
    else if m == 9 then 273 + leap
    else if m == 10 then 304 + leap
    else 334 + leap
  }

  /** `MakeDay(year, month, date)`: the month is first brought into 0..11 by
      carrying whole years, and the date counts on from the 1st, so date 0 is
      the last day of the month before and dates past the end spill over. */
  function MakeDay(y: int, m: int, d: int): int {
    var ym := y + m / 12;
    var mn := m % 12;
    DayFromYear(ym) + MonthStart(ym, mn) + d - 1
  }

  /** Within a year, each month starts its predecessor's length later, and
      December ends the year. */
  lemma MonthStartStep(y: int, m: int)
    requires 0 <= m < 12
    ensures m < 11 ==> MonthStart(y, m + 1) == MonthStart(y, m) + DaysInMonth(y, m)
    ensures m == 11 ==> MonthStart(y, m) + DaysInMonth(y, m) == DaysInYear(y)
  {
  }

  /** The 1st of the next month is the length of this month after the 1st of this one. */
  lemma MonthStep(y: int, m: int)
    requires 0 <= m < 12
    ensures MakeDay(y, m + 1, 1) == MakeDay(y, m, 1) + DaysInMonth(y, m)
  {
    MonthStartStep(y, m);
    assert m / 12 == 0 && m % 12 == m;
    assert MakeDay(y, m, 1) == DayFromYear(y) + MonthStart(y, m);
    if m == 11 {
      NextYear(y);
      assert (m + 1) / 12 == 1 && (m + 1) % 12 == 0;
      assert MakeDay(y, m + 1, 1) == DayFromYear(y + 1) + MonthStart(y + 1, 0);
    } else {
      assert (m + 1) / 12 == 0 && (m + 1) % 12 == m + 1;
      assert MakeDay(y, m + 1, 1) == DayFromYear(y) + MonthStart(y, m + 1);
    }
  }

  /** Later months of a year (up to the following January) start later. */
  lemma {:induction false} MonthMono(y: int, a: int, b: int)
    requires 0 <= a <= b <= 12
    ensures MakeDay(y, a, 1) + 28 * (b - a) <= MakeDay(y, b, 1)
    decreases b - a
  {
    if a < b {
      MonthStep(y, a);
      MonthMono(y, a + 1, b);
    }
  }

  /** `new Date(y, m, d, h, mi, s, ms)` on the local time line. */
  function LocalTime(y: int, m: int, d: int, h: int, mi: int, s: int, ms: int): int {
    MakeDay(y, m, d) * DayMs + h * 3600000 + mi * 60000 + s * 1000 + ms
  }

  /** The day number of an instant. */
  function Day(t: int): int { t / DayMs }

  /** `getDay()`: 0 for Sunday; 1 January 1970 was a Thursday. */
  function WeekDay(t: int): (w: int)
    ensures 0 <= w < 7
  {
    (Day(t) + 4) % 7
  }

  /** A calendar reading of "now": `getFullYear()`, `getMonth()` (0..11),
      `getDate()` and the milliseconds since local midnight. */
  datatype Now = Now(year: int, month: int, date: int, ms: int)

  predicate ValidNow(n: Now) {
    0 <= n.month < 12 && 1 <= n.date <= DaysInMonth(n.year, n.month) && 0 <= n.ms < DayMs
  }

  function Instant(n: Now): int {
    MakeDay(n.year, n.month, n.date) * DayMs + n.ms
  }

  /** Date `d` of a month is `d - 1` days after its 1st. */
  lemma DateOffset(y: int, m: int, d: int)
    ensures MakeDay(y, m, d) == MakeDay(y, m, 1) + d - 1
  {
  }

  /** An instant `t` milliseconds into day `day` lies on that day. */
  lemma DayOfDayStart(day: int, t: int)
    requires 0 <= t < DayMs
    ensures Day(day * DayMs + t) == day
    ensures (day * DayMs + t) % DayMs == t
  {
  }

  /** Going back to the Monday of the week (`getDay() - 1` days, or 6 on a
      Sunday) always lands on weekday 1. */
  lemma {:induction false} BackToMonday(day: int)
    ensures var w := (day + 4) % 7;
      (day - (if w == 0 then 6 else w - 1) + 4) % 7 == 1
  {
    var w := (day + 4) % 7;
    var q := (day + 4) / 7;
    assert day + 4 == 7 * q + w;
    if w == 0 {
      assert day - 6 + 4 == 7 * (q - 1) + 1;
    } else {
      assert day - (w - 1) + 4 == 7 * q + 1;
    }
  }

  /** Later years start later: a whole year lies before any later year. */
  lemma {:induction false} YearsInOrder(a: int, b: int)
    requires a < b
    ensures DayFromYear(a) + DaysInYear(a) <= DayFromYear(b)
    decreases b - a
  {
    NextYear(a);
    if a + 1 < b {
      YearsInOrder(a + 1, b);
    }
  }

  /** A month lies wholly before any later month of its year. */
  lemma {:induction false} MonthsInOrder(y: int, a: int, b: int)
    requires 0 <= a < b < 12
    ensures MonthStart(y, a) + DaysInMonth(y, a) <= MonthStart(y, b)
    decreases b - a
  {
    MonthStartStep(y, a);
    if a + 1 < b {
      MonthsInOrder(y, a + 1, b);
      MonthStartStep(y, a + 1);
    }
  }

  /** The day number of a valid reading, and where it lies in its year. */
  lemma DayOfReading(n: Now)
    requires ValidNow(n)
    ensures Day(Instant(n)) == DayFromYear(n.year) + MonthStart(n.year, n.month) + n.date - 1
    ensures MonthStart(n.year, n.month) + n.date - 1 < DaysInYear(n.year)
  {
    assert n.month / 12 == 0 && n.month % 12 == n.month;
    DayOfDayStart(MakeDay(n.year, n.month, n.date), n.ms);
    MonthStartStep(n.year, 11);
    if n.month < 11 {
      MonthsInOrder(n.year, n.month, 11);
    }
  }

  /** Two valid readings fall on the same day exactly when their year, month
      and date agree. */
  lemma SameDayIffSameDate(a: Now, b: Now)
    requires ValidNow(a) && ValidNow(b)
    ensures Day(Instant(a)) == Day(Instant(b)) <==>
      a.year == b.year && a.month == b.month && a.date == b.date
  {
    DayOfReading(a);
    DayOfReading(b);
    if a.year < b.year {
      YearsInOrder(a.year, b.year);
    } else if b.year < a.year {
      YearsInOrder(b.year, a.year);
    } else if a.month < b.month {
      MonthsInOrder(a.year, a.month, b.month);
    } else if b.month < a.month {
      MonthsInOrder(a.year, b.month, a.month);
    }
  }
}
