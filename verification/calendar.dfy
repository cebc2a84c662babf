/** Proleptic Gregorian calendar arithmetic standing in for JavaScript's `Date`.
    Months count from 0 (January) to 11 (December), as `getMonth()` does. Time zones are
    not modelled: every date string and every clock reading is read in one zone. */
module Calendar {

  datatype CivilDay = CivilDay(year: int, month: int, day: int)

  predicate IsLeapYear(y: int) {
    y % 4 == 0 && (y % 100 != 0 || y % 400 == 0)
  }

  function DaysInMonth(year: int, month: int): (n: int)
    requires 0 <= month < 12
    ensures 28 <= n <= 31
  {
    if month == 1 then (if IsLeapYear(year) then 29 else 28)
    else if month == 3 || month == 5 || month == 8 || month == 10 then 30
    else 31
  }

  /** A calendar day that exists. */
  type Date = d: CivilDay | 0 <= d.month < 12 && 1 <= d.day <= DaysInMonth(d.year, d.month)
    witness CivilDay(1970, 0, 1)

  /** Milliseconds in a day. */
  const DayMs: int := 86_400_000

  type TimeOfDay = t: int | 0 <= t < 86_400_000

  /** A clock reading (`new Date()`): a calendar day and the milliseconds since its midnight. */
  datatype Moment = Moment(date: Date, time: TimeOfDay)

  /** The moment a date-only string such as "2025-11-01" denotes: midnight of that day. */
  function Midnight(d: Date): Moment {
    Moment(d, 0)
  }

  function LeapYearsThrough(n: int): int {
    n / 4 - n / 100 + n / 400
  }

  function DaysBeforeYear(y: int): int {
    365 * y + LeapYearsThrough(y - 1)
  }

  function CumulativeDays(m: int): int
    requires 0 <= m < 12
  {
    [0, 31, 59, 90, 120, 151, 181, 212, 243, 273, 304, 334][m]
  }

  function DaysBeforeMonth(y: int, m: int): int
    requires 0 <= m < 12
  {
    CumulativeDays(m) + (if m >= 2 && IsLeapYear(y) then 1 else 0)
  }

  /** Days elapsed from a fixed origin to `d`; differences of day numbers count days. */
  function DayNumber(d: Date): int {
    DaysBeforeYear(d.year) + DaysBeforeMonth(d.year, d.month) + d.day - 1
  }

  /** Milliseconds from the origin to `m` (what subtracting two `Date`s measures). */
  function EpochMs(m: Moment): int {
    DayNumber(m.date) * 86_400_000 + m.time
  }

  /** The month of `d` counted continuously across years: `12 * year + month`. */
  function MonthIndex(d: Date): int {
    12 * d.year + d.month
  }

  /** Day number of the first day of the month with index `k`. */
  function MonthStart(k: int): int {
    DaysBeforeYear(k / 12) + DaysBeforeMonth(k / 12, k % 12)
  }

  /** Length of the month with index `k`. */
  function MonthLength(k: int): int {
    DaysInMonth(k / 12, k % 12)
  }

  /** `new Date(year, month, day)` for a day that exists in every month: a month outside
      0..11 rolls over into a neighbouring year. */
  function MakeDate(year: int, month: int, day: int): (d: Date)
    requires 1 <= day <= 28
    ensures MonthIndex(d) == 12 * year + month && d.day == day
    ensures 0 <= month < 12 ==> d == CivilDay(year, month, day)
  {
    CivilDay(year + month / 12, month % 12, day)
  }

  /** The calendar day before `d` (`setDate(getDate() - 1)`). */
  function PrevDay(d: Date): (p: Date)
    ensures DayNumber(p) == DayNumber(d) - 1
  {
    if d.day > 1 then CivilDay(d.year, d.month, d.day - 1)
    else
      var k := MonthIndex(d) - 1;
      DayNumberFromMonthStart(d);
      LastDayOfMonth(k)
  }

  /** The last day of the month with index `k`: the day before the next month starts. */
  function LastDayOfMonth(k: int): (p: Date)
    ensures MonthIndex(p) == k
    ensures DayNumber(p) == MonthStart(k + 1) - 1
  {
    var p := CivilDay(k / 12, k % 12, MonthLength(k));
    assert MonthIndex(p) == k;
    DayNumberFromMonthStart(p);
    MonthStartStep(k);
    p
  }

  /** The calendar day `n` days before `d`. */
  function DaysBefore(d: Date, n: nat): (p: Date)
    ensures DayNumber(p) == DayNumber(d) - n
    decreases n
  {
    if n == 0 then d else PrevDay(DaysBefore(d, n - 1))
  }

  lemma LeapYearsStep(y: int)
    ensures LeapYearsThrough(y) - LeapYearsThrough(y - 1) == if IsLeapYear(y) then 1 else 0
  {
    DivStep(y, 4);
    DivStep(y, 100);
    DivStep(y, 400);
    if y % 100 == 0 {
      DividesFactor(y, 4, 25);
    }
    if y % 400 == 0 {
      DividesFactor(y, 100, 4);
    }
  }

  /** A multiple of `k * m` is a multiple of `k`. */
  lemma DividesFactor(y: int, k: int, m: int)
    requires k > 0 && m > 0 && y % (k * m) == 0
    ensures y % k == 0
  {
    var q := y / (k * m);
    assert y == (k * m) * q;
    assert y == k * (m * q) + 0;
    DivUnique(y, k, m * q, 0);
  }

  /** Going from `y - 1` to `y` raises the quotient by `k` exactly when `k` divides `y`. */
  lemma DivStep(y: int, k: int)
    requires k > 0
    ensures y / k - (y - 1) / k == if y % k == 0 then 1 else 0
  {
    var q, r := (y - 1) / k, (y - 1) % k;
    assert y - 1 == k * q + r && 0 <= r < k;
    if r == k - 1 {
      assert y == k * (q + 1);
      DivUnique(y, k, q + 1, 0);
    } else {
      assert y == k * q + (r + 1);
      DivUnique(y, k, q, r + 1);
    }
  }

  /** Euclidean division has one quotient and one remainder. */
  lemma DivUnique(y: int, k: int, q: int, r: int)
    requires k > 0 && 0 <= r < k && y == k * q + r
    ensures y / k == q && y % k == r
  {
    var q', r' := y / k, y % k;
    assert y == k * q' + r' && 0 <= r' < k;
    MulSign(k, q' - q);
    assert k * (q' - q) == r - r';
  }

  lemma MulSign(k: int, d: int)
    requires k > 0
    ensures d >= 1 ==> k * d >= k
    ensures d <= -1 ==> k * d <= -k
  {
    if d >= 1 {
      MulMonotone(k, 1, d);
    }
    if d <= -1 {
      MulMonotone(k, d, -1);
    }
  }

  lemma MulMonotone(k: int, a: int, b: int)
    requires k > 0 && a <= b
    ensures k * a <= k * b
  {
    assert k * b - k * a == k * (b - a);
  }

  /** A year has 366 days when it is a leap year and 365 otherwise. */
  lemma YearLength(y: int)
    ensures DaysBeforeYear(y + 1) - DaysBeforeYear(y) == if IsLeapYear(y) then 366 else 365
  {
    LeapYearsStep(y);
  }

  /** Consecutive months are adjacent: month `k + 1` starts right after month `k` ends. */
  lemma MonthStartStep(k: int)
    ensures MonthStart(k + 1) == MonthStart(k) + MonthLength(k)
  {
    var y, m := k / 12, k % 12;
    if m < 11 {
      assert (k + 1) / 12 == y && (k + 1) % 12 == m + 1;
    } else {
      assert (k + 1) / 12 == y + 1 && (k + 1) % 12 == 0;
      YearLength(y);
    }
  }

  lemma DayNumberFromMonthStart(d: Date)
    ensures DayNumber(d) == MonthStart(MonthIndex(d)) + d.day - 1
  {
    assert MonthIndex(d) / 12 == d.year && MonthIndex(d) % 12 == d.month;
  }

  lemma MonthLengthAtLeast28(k: int)
    ensures MonthLength(k) >= 28
  {
  }

  lemma {:induction false} MonthStartGrows(j: int, k: int)
    requires j <= k
    ensures MonthStart(j) + 28 * (k - j) <= MonthStart(k)
    decreases k - j
  {
    if j < k {
      MonthStartGrows(j, k - 1);
      MonthStartStep(k - 1);
      MonthLengthAtLeast28(k - 1);
      GrowStep(MonthStart(j), MonthStart(k - 1), MonthLength(k - 1), MonthStart(k), k - 1 - j);
    }
  }

  lemma GrowStep(first: int, last: int, length: int, next: int, n: int)
    requires first + 28 * n <= last && length >= 28 && next == last + length
    ensures first + 28 * (n + 1) <= next
  {
  }

  /** Every day of an earlier calendar month comes before every day of a later one. */
  lemma LaterMonthLaterDay(a: Date, b: Date)
    requires MonthIndex(a) < MonthIndex(b)
    ensures DayNumber(a) < DayNumber(b)
  {
    DayWithinMonth(a);
    DayWithinMonth(b);
    MonthStartGrows(MonthIndex(a) + 1, MonthIndex(b));
  }

  /** A day lies between the start of its month and the start of the next. */
  lemma DayWithinMonth(d: Date)
    ensures MonthStart(MonthIndex(d)) <= DayNumber(d) < MonthStart(MonthIndex(d) + 1)
  {
    DayNumberFromMonthStart(d);
    MonthLengthOf(d);
    MonthStartStep(MonthIndex(d));
  }

  /** The length of a date's month, by index. */
  lemma MonthLengthOf(d: Date)
    ensures MonthLength(MonthIndex(d)) == DaysInMonth(d.year, d.month)
  {
    assert MonthIndex(d) / 12 == d.year && MonthIndex(d) % 12 == d.month;
  }

  /** Within one month, day numbers differ by the difference of the days of the month. */
  lemma SameMonthDayDifference(a: Date, b: Date)
    requires MonthIndex(a) == MonthIndex(b)
    ensures DayNumber(b) - DayNumber(a) == b.day - a.day
  {
    DayNumberFromMonthStart(a);
    DayNumberFromMonthStart(b);
  }

  /** From a day of one month to a day of the next: the rest of the first month plus the day. */
  lemma NextMonthDayDifference(a: Date, b: Date)
    requires MonthIndex(b) == MonthIndex(a) + 1
    ensures DayNumber(b) - DayNumber(a) == DaysInMonth(a.year, a.month) - a.day + b.day
  {
    DayNumberFromMonthStart(a);
    DayNumberFromMonthStart(b);
    MonthLengthOf(a);
    MonthStartStep(MonthIndex(a));
  }

  /** Two dates are in the same month of the same year exactly when their month indices agree. */
  lemma MonthIndexSameMonth(a: Date, b: Date)
    ensures MonthIndex(a) == MonthIndex(b) <==> a.year == b.year && a.month == b.month
  {
  }

  /** Day numbers identify dates. */
  lemma DayNumberInjective(a: Date, b: Date)
    requires DayNumber(a) == DayNumber(b)
    ensures a == b
  {
    if MonthIndex(a) < MonthIndex(b) {
      LaterMonthLaterDay(a, b);
    } else if MonthIndex(b) < MonthIndex(a) {
      LaterMonthLaterDay(b, a);
    } else {
      SameMonthIndex(a, b);
      SameMonthDayDifference(a, b);
    }
  }

  /** A month index names one year and month. */
  lemma SameMonthIndex(a: Date, b: Date)
    requires MonthIndex(a) == MonthIndex(b)
    ensures a.year == b.year && a.month == b.month
  {
  }

  /** Euclidean division by the length of a day recovers the whole-day part of a millisecond count. */
  lemma WholeDays(days: int, ms: int)
    requires 0 <= ms < 86_400_000
    ensures (days * 86_400_000 + ms) / 86_400_000 == days
  {
  }
}
