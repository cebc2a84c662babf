/** Calendar arithmetic of `src/utils/dateUtils.js`, with the clock passed in as `now`. */
module DateUtils {
  import opened Wrappers
  import opened Calendar
  import opened Text

  /** `Math.ceil(ms / DAY)` for a millisecond difference. */
  function CeilDays(ms: int): int {
    -((-ms) / 86_400_000)
  }

  /** `Math.floor(ms / DAY)` for a millisecond difference. */
  function FloorDays(ms: int): int {
    ms / 86_400_000
  }

  /** The due date `daysUntilDue` aims at: this month's occurrence when the due day is still
      ahead, otherwise next month's (December rolls into January of the next year). */
  function NextDueDate(dueDay: int, today: Date): (d: Date)
    requires 1 <= dueDay <= 28
    ensures d.day == dueDay
    ensures MonthIndex(d) == if dueDay > today.day then MonthIndex(today) else MonthIndex(today) + 1
  {
    if dueDay > today.day then MakeDate(today.year, today.month, dueDay)
    else MakeDate(today.year, today.month + 1, dueDay)
  }

  /** `daysUntilDue`: whole days, rounded up, from now to the next due date. */
  function DaysUntilDue(dueDay: int, now: Moment): (r: int)
    requires 1 <= dueDay <= 28
    ensures dueDay > now.date.day ==> r == dueDay - now.date.day
    ensures dueDay <= now.date.day ==> r == DaysInMonth(now.date.year, now.date.month) - now.date.day + dueDay
    ensures dueDay <= now.date.day ==> r >= 1
    ensures dueDay == now.date.day ==> r == DaysInMonth(now.date.year, now.date.month)
  {
    var nextDue := NextDueDate(dueDay, now.date);
    WholeDays(DayNumber(now.date) - DayNumber(nextDue), now.time);
    NextDueDistance(dueDay, now.date);
    CeilDays(EpochMs(Midnight(nextDue)) - EpochMs(now))
  }

  lemma NextDueDistance(dueDay: int, today: Date)
    requires 1 <= dueDay <= 28
    ensures var d := DayNumber(NextDueDate(dueDay, today)) - DayNumber(today);
      if dueDay > today.day then d == dueDay - today.day
      else d == DaysInMonth(today.year, today.month) - today.day + dueDay
  {
    var nextDue := NextDueDate(dueDay, today);
    if dueDay > today.day {
      SameMonthDayDifference(today, nextDue);
    } else {
      NextMonthDayDifference(today, nextDue);
    }
  }

  /** `daysOverdue`: whole days, rounded down and never negative, since the due date that
      applies now. The applicable due date is this month's, or last month's while this month's
      is still ahead; in January the source keeps this month's date, which lies ahead. */
  function DaysOverdue(lastPayment: Option<Date>, dueDay: int, now: Moment): (r: int)
    requires 1 <= dueDay <= 28
    ensures r >= 0
    ensures PaidThisMonth(lastPayment, now.date) ==> r == 0
    ensures !PaidThisMonth(lastPayment, now.date) && now.date.day >= dueDay ==> r == now.date.day - dueDay
    ensures !PaidThisMonth(lastPayment, now.date) && now.date.day < dueDay && now.date.month > 0 ==>
      r == DaysInMonth(now.date.year, now.date.month - 1) - dueDay + now.date.day
    ensures !PaidThisMonth(lastPayment, now.date) && now.date.day < dueDay && now.date.month == 0 ==> r == 0
  {
    var today := now.date;
    if lastPayment.Some? && lastPayment.value.month == today.month && lastPayment.value.year == today.year then 0
    else
      var days := FloorDays(EpochMs(now) - EpochMs(Midnight(OverdueReference(dueDay, now))));
      DaysSinceReference(dueDay, now);
      if days > 0 then days else 0
  }

  /** The due date `daysOverdue` counts from: this month's, unless it is still ahead and the
      month is not January, in which case last month's. */
  function OverdueReference(dueDay: int, now: Moment): (d: Date)
    requires 1 <= dueDay <= 28
    ensures d.day == dueDay
    ensures MonthIndex(d) == if now.date.day < dueDay && now.date.month > 0
      then MonthIndex(now.date) - 1 else MonthIndex(now.date)
  {
    var today := now.date;
    var thisMonthDue := MakeDate(today.year, today.month, dueDay);
    SameMonthDayDifference(thisMonthDue, today);
    if EpochMs(now) < EpochMs(Midnight(thisMonthDue)) && today.month > 0
    then MakeDate(today.year, today.month - 1, dueDay)
    else thisMonthDue
  }

  lemma DaysSinceReference(dueDay: int, now: Moment)
    requires 1 <= dueDay <= 28
    ensures var days := FloorDays(EpochMs(now) - EpochMs(Midnight(OverdueReference(dueDay, now))));
      && (now.date.day >= dueDay ==> days == now.date.day - dueDay)
      && (now.date.day < dueDay && now.date.month > 0 ==>
            days == DaysInMonth(now.date.year, now.date.month - 1) - dueDay + now.date.day)
      && (now.date.day < dueDay && now.date.month == 0 ==> days < 0)
  {
    var today := now.date;
    var reference := OverdueReference(dueDay, now);
    WholeDays(DayNumber(today) - DayNumber(reference), now.time);
    if today.day < dueDay && today.month > 0 {
      PreviousDueDistance(dueDay, today);
      assert reference == MakeDate(today.year, today.month - 1, dueDay);
    } else {
      SameMonthDayDifference(reference, today);
    }
  }

  lemma PreviousDueDistance(dueDay: int, today: Date)
    requires 1 <= dueDay <= 28 && today.month > 0
    ensures DayNumber(today) - DayNumber(MakeDate(today.year, today.month - 1, dueDay))
      == DaysInMonth(today.year, today.month - 1) - dueDay + today.day
  {
    NextMonthDayDifference(MakeDate(today.year, today.month - 1, dueDay), today);
  }

  /** The last payment fell in today's month and year. */
  predicate PaidThisMonth(lastPayment: Option<Date>, today: Date) {
    lastPayment.Some? && MonthIndex(lastPayment.value) == MonthIndex(today)
  }

  /** In January, before the due day, an unpaid customer is never overdue: the reference date
      stays in the future instead of falling back to December. */
  lemma JanuaryFallback(lastPayment: Option<Date>, dueDay: int, now: Moment)
    requires 1 <= dueDay <= 28
    requires now.date.month == 0 && now.date.day < dueDay
    ensures DaysOverdue(lastPayment, dueDay, now) == 0
  {
  }

  function MonthNames(): seq<string> {
    ["January", "February", "March", "April", "May", "June",
     "July", "August", "September", "October", "November", "December"]
  }

  /** `getMonthName`: the English name of a month index; `undefined` outside 0..11. */
  function MonthName(monthIndex: int): (r: Option<string>)
    ensures r.Some? <==> 0 <= monthIndex < 12
    ensures r.Some? ==> |r.value| >= 3
  {
    if 0 <= monthIndex < 12 then Some(MonthNames()[monthIndex]) else None
  }

  /** Different months have different names. */
  lemma MonthNamesDistinct(i: int, j: int)
    requires 0 <= i < 12 && 0 <= j < 12 && i != j
    ensures MonthName(i) != MonthName(j)
  {
    var names := MonthNames();
    assert names[i] != names[j] by {
      assert |names[i]| != |names[j]| || names[i][0] != names[j][0] || names[i][1] != names[j][1] || names[i][2] != names[j][2];
    }
  }

  /** `getAgeInMonths`: calendar months between the start and now, ignoring days; negative
      when the start lies in a later month. */
  function AgeInMonths(start: Date, now: Date): (r: int)
    ensures r == MonthIndex(now) - MonthIndex(start)
  {
    (now.year - start.year) * 12 + (now.month - start.month)
  }

  /** Ages add up along a chain of dates. */
  lemma AgeAdditive(a: Date, b: Date, c: Date)
    ensures AgeInMonths(a, c) == AgeInMonths(a, b) + AgeInMonths(b, c)
  {
  }

  /** The days of the month never matter: two dates in the same months have the same age. */
  lemma AgeIgnoresDays(start: Date, now: Date, start': Date, now': Date)
    requires start.year == start'.year && start.month == start'.month
    requires now.year == now'.year && now.month == now'.month
    ensures AgeInMonths(start, now) == AgeInMonths(start', now')
  {
  }

  /** A start in a later month than now gives a negative age. */
  lemma AgeNegativeForFutureStart(start: Date, now: Date)
    requires MonthIndex(start) > MonthIndex(now)
    ensures AgeInMonths(start, now) < 0
  {
  }

  /** `getQuarter`: 1 to 4, the quarter whose three months contain the date's month. */
  function Quarter(d: Date): (q: int)
    ensures 1 <= q <= 4
    ensures 3 * (q - 1) <= d.month < 3 * q
  {
    d.month / 3 + 1
  }

  /** How far in the past a moment lies, in the unit `formatRelativeTime` chooses. */
  datatype RelativeAge =
    | JustNow
    | MinutesAgo(minutes: int)
    | HoursAgo(hours: int)
    | DaysAgo(days: int)
    | MonthsAgo(months: int)
    | YearsAgo(years: int)

  /** The unit choice of `formatRelativeTime`: minutes below an hour, hours below a day, days
      below 30 days, 30-day months below 365 days, then 365-day years. */
  function RelativeAgeOf(past: Moment, now: Moment): (r: RelativeAge)
    ensures var ms := EpochMs(now) - EpochMs(past);
      && (r.JustNow? <==> ms < 60_000)
      && (r.MinutesAgo? ==> 1 <= r.minutes < 60 && r.minutes * 60_000 <= ms < (r.minutes + 1) * 60_000)
      && (r.HoursAgo? ==> 1 <= r.hours < 24 && r.hours * 3_600_000 <= ms < (r.hours + 1) * 3_600_000)
      && (r.DaysAgo? ==> 1 <= r.days < 30 && r.days * 86_400_000 <= ms < (r.days + 1) * 86_400_000)
      && (r.MonthsAgo? ==> 1 <= r.months <= 12 && 30 * 86_400_000 <= ms < 365 * 86_400_000)
      && (r.MonthsAgo? ==> r.months * 30 * 86_400_000 <= ms < (r.months + 1) * 30 * 86_400_000)
      && (r.YearsAgo? ==> r.years >= 1 && 365 * 86_400_000 <= ms)
      && (r.YearsAgo? ==> r.years * 365 * 86_400_000 <= ms < (r.years + 1) * 365 * 86_400_000)
  {
    var ms := EpochMs(now) - EpochMs(past);
    var mins := ms / 60_000;
    var hours := ms / 3_600_000;
    var days := ms / 86_400_000;
    if mins < 1 then JustNow
    else if mins < 60 then MinutesAgo(mins)
    else if hours < 24 then HoursAgo(hours)
    else if days < 30 then DaysAgo(days)
    else if days < 365 then MonthsAgo(days / 30)
    else YearsAgo(days / 365)
  }

  /** `formatRelativeTime`: the age as English text. */
  function FormatRelativeTime(past: Moment, now: Moment): (text: string)
    ensures text == "just now" <==> EpochMs(now) - EpochMs(past) < 60_000
  {
    match RelativeAgeOf(past, now)
    case JustNow => "just now"
    case MinutesAgo(n) => IntToDecimal(n) + " minutes ago"
    case HoursAgo(n) => IntToDecimal(n) + " hours ago"
    case DaysAgo(n) => IntToDecimal(n) + " days ago"
    case MonthsAgo(n) => IntToDecimal(n) + " months ago"
    case YearsAgo(n) => IntToDecimal(n) + " years ago"
  }

  /** One row of `getPaymentSchedule`. */
  datatype ScheduleEntry = ScheduleEntry(
    monthName: string,
    year: int,
    dueDate: Date,
    amount: int,
    isPast: bool,
    isThisMonth: bool)

  /** Entry `i`: the month `i` months after the current one, counted across year ends. */
  function ScheduleEntryAt(dueDay: int, monthlyFee: int, now: Moment, i: nat): (e: ScheduleEntry)
    requires 1 <= dueDay <= 28
    ensures MonthIndex(e.dueDate) == MonthIndex(now.date) + i
    ensures e.dueDate.day == dueDay && e.year == e.dueDate.year && e.amount == monthlyFee
    ensures Some(e.monthName) == MonthName(e.dueDate.month)
    ensures e.isThisMonth <==> i == 0
    ensures e.isPast <==> EpochMs(Midnight(e.dueDate)) < EpochMs(now)
  {
    var startMonth := now.date.month;
    var startYear := now.date.year;
    var month := (startMonth + i) % 12;
    var year := startYear + (startMonth + i) / 12;
    var dueDate := MakeDate(year, month, dueDay);
    assert dueDate == CivilDay(year, month, dueDay);
    ScheduleEntry(
      MonthName(month).value,
      year,
      dueDate,
      monthlyFee,
      EpochMs(Midnight(dueDate)) < EpochMs(now),
      month == startMonth && year == startYear)
  }

  /** `getPaymentSchedule`: six entries for consecutive months starting with the current one,
      each due on the customer's due day for the monthly fee. Only the first entry is in the
      current month, and only it can already be past. */
  function PaymentSchedule(dueDay: int, monthlyFee: int, now: Moment): (r: seq<ScheduleEntry>)
    requires 1 <= dueDay <= 28
    ensures |r| == 6
    ensures forall i :: 0 <= i < 6 ==> MonthIndex(r[i].dueDate) == MonthIndex(now.date) + i
    ensures forall i :: 0 <= i < 6 ==> r[i].dueDate.day == dueDay && r[i].year == r[i].dueDate.year
    ensures forall i :: 0 <= i < 6 ==> r[i].amount == monthlyFee
    ensures forall i :: 0 <= i < 6 ==> Some(r[i].monthName) == MonthName(r[i].dueDate.month)
    ensures forall i :: 0 <= i < 6 ==> (r[i].isThisMonth <==> i == 0)
    ensures forall i :: 1 <= i < 6 ==> !r[i].isPast
    ensures r[0].isPast <==> dueDay < now.date.day || (dueDay == now.date.day && now.time > 0)
  {
    var r := seq(6, i requires 0 <= i < 6 => ScheduleEntryAt(dueDay, monthlyFee, now, i));
    ScheduleTiming(dueDay, monthlyFee, now, r);
    r
  }

  lemma ScheduleTiming(dueDay: int, monthlyFee: int, now: Moment, r: seq<ScheduleEntry>)
    requires 1 <= dueDay <= 28
    requires r == seq(6, i requires 0 <= i < 6 => ScheduleEntryAt(dueDay, monthlyFee, now, i))
    ensures forall i :: 1 <= i < 6 ==> !r[i].isPast
    ensures r[0].isPast <==> dueDay < now.date.day || (dueDay == now.date.day && now.time > 0)
  {
    forall i | 1 <= i < 6
      ensures !r[i].isPast
    {
      LaterMonthLaterDay(now.date, r[i].dueDate);
    }
    SameMonthDayDifference(now.date, r[0].dueDate);
  }

  /** The schedule crosses into the next year after December. */
  lemma ScheduleWrapsAfterDecember(dueDay: int, monthlyFee: int, now: Moment)
    requires 1 <= dueDay <= 28
    requires now.date.month == 11
    ensures var r := PaymentSchedule(dueDay, monthlyFee, now);
      r[1].dueDate.month == 0 && r[1].year == now.date.year + 1
  {
    var r := PaymentSchedule(dueDay, monthlyFee, now);
    assert MonthIndex(r[1].dueDate) == 12 * (now.date.year + 1);
  }
}
