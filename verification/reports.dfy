/** The figures of the reports page (`src/pages/Reports.jsx`): revenue and average payment,
    the date-range selection of payments, and the per-customer summary. */
module Reports {
  import opened Wrappers
  import opened Seqs
  import opened Calendar
  import opened Records
  import opened Ratios
  import Store
  import PaymentsPage

  /** The headline figures. `avgPayment` divides the completed revenue by the number of
      payments of every status. */
  datatype ReportMetrics = ReportMetrics(
    totalRevenue: int,
    totalCustomers: nat,
    activeCustomers: nat,
    avgPayment: Ratio,
    totalPayments: nat)

  function IsCompleted(p: Payment): bool { p.status == PaymentCompleted }
  function IsActive(c: Customer): bool { c.status == AccountActive }

  function GetReportMetrics(customers: seq<Customer>, payments: seq<Payment>): (m: ReportMetrics)
    ensures m.totalRevenue == SumWhere(payments, PaymentStatusOf, PaymentCompleted, AmountOf)
    ensures m.totalCustomers == |customers| && m.totalPayments == |payments|
    ensures m.activeCustomers == CountWhere(customers, CustomerStatusOf, AccountActive)
    ensures |payments| > 0 ==> m.avgPayment.num * |payments| == m.totalRevenue * m.avgPayment.den
    ensures |payments| == 0 ==> m.avgPayment == Zero
  {
    var totalRevenue := Sum(Filter(payments, IsCompleted), AmountOf);
    FilterSumWhere(payments, IsCompleted, PaymentStatusOf, PaymentCompleted, AmountOf);
    FilterCountWhere(customers, IsActive, CustomerStatusOf, AccountActive);
    var avg := if |payments| > 0 then Divide(totalRevenue, |payments|) else Zero;
    ReportMetrics(totalRevenue, |customers|, Count(customers, IsActive), avg, |payments|)
  }

  /** A payment that is not completed adds nothing to the revenue but still counts in the
      divisor of the average. */
  lemma UncompletedPaymentDilutesAverage(customers: seq<Customer>, payments: seq<Payment>, p: Payment)
    requires p.status != PaymentCompleted
    ensures GetReportMetrics(customers, payments + [p]).totalRevenue == GetReportMetrics(customers, payments).totalRevenue
    ensures GetReportMetrics(customers, payments + [p]).totalPayments == |payments| + 1
  {
    assert (payments + [p])[..|payments|] == payments;
  }

  /** The range drop-down. An incomplete custom range and any other value select
      everything. */
  datatype DateRange = AllTime | Today | Week | Month | Year | Custom(from: Option<Date>, to: Option<Date>) | OtherRange

  /** `new Date(p.date) >= new Date(now - days * 24h)`: the payment's midnight is no earlier
      than the same clock time `days` days ago. */
  predicate WithinLastDays(p: Payment, now: Moment, days: int) {
    EpochMs(Midnight(p.date)) >= EpochMs(now) - days * DayMs
  }

  /** Which payments a range selects, stated per payment. */
  predicate InRange(p: Payment, range: DateRange, now: Moment) {
    match range
    case Today => p.date == now.date
    case Week => WithinLastDays(p, now, 7)
    case Month => WithinLastDays(p, now, 30)
    case Year => WithinLastDays(p, now, 365)
    case Custom(from, to) =>
      from.Some? && to.Some? ==> DayNumber(from.value) <= DayNumber(p.date) <= DayNumber(to.value)
    case _ => true
  }

  function InRangeBy(range: DateRange, now: Moment): Payment -> bool {
    p => InRange(p, range, now)
  }

  /** `getFilteredPayments`: 'all' first, then a complete custom range, then the ranges
      measured back from `now`; anything else keeps every payment. */
  function RangeFilter(payments: seq<Payment>, range: DateRange, now: Moment): (r: seq<Payment>)
    ensures r == Filter(payments, InRangeBy(range, now))
  {
    var inRange := InRangeBy(range, now);
    if range.AllTime? then
      FilterKeepsAll(payments, inRange);
      payments
    else if range.Custom? && range.from.Some? && range.to.Some? then
      var between := (p: Payment) => DayNumber(p.date) >= DayNumber(range.from.value) && DayNumber(p.date) <= DayNumber(range.to.value);
      FilterSamePredicate(payments, between, inRange);
      Filter(payments, between)
    else if range.Today? then
      var sameDay := (p: Payment) => p.date == now.date;
      FilterSamePredicate(payments, sameDay, inRange);
      Filter(payments, sameDay)
    else if range.Week? || range.Month? || range.Year? then
      var days := if range.Week? then 7 else if range.Month? then 30 else 365;
      var recent := (p: Payment) => WithinLastDays(p, now, days);
      FilterSamePredicate(payments, recent, inRange);
      Filter(payments, recent)
    else
      FilterKeepsAll(payments, inRange);
      payments
  }

  /** A window of `days` days keeps a payment dated less than `days` days ago, and one
      dated exactly `days` days ago only when `now` is exactly midnight. */
  lemma WindowInDays(p: Payment, now: Moment, days: int)
    ensures WithinLastDays(p, now, days) <==>
      DayNumber(p.date) > DayNumber(now.date) - days
      || (DayNumber(p.date) == DayNumber(now.date) - days && now.time == 0)
  {
    var a := DayNumber(p.date);
    var b := DayNumber(now.date) - days;
    if a > b {
      assert a * DayMs >= (b + 1) * DayMs;
    } else if a < b {
      assert a * DayMs <= (b - 1) * DayMs;
    }
  }

  /** The windows nest: whatever today's range lists, the week lists; whatever the week
      lists, the month lists; whatever the month lists, the year lists. */
  lemma RangesNest(payments: seq<Payment>, now: Moment)
    ensures |RangeFilter(payments, Today, now)| <= |RangeFilter(payments, Week, now)|
    ensures |RangeFilter(payments, Week, now)| <= |RangeFilter(payments, Month, now)|
    ensures |RangeFilter(payments, Month, now)| <= |RangeFilter(payments, Year, now)|
    ensures |RangeFilter(payments, Year, now)| <= |payments|
  {
    forall p | InRange(p, Today, now) ensures InRange(p, Week, now) {
      WindowInDays(p, now, 7);
    }
    forall p | InRange(p, Week, now) ensures InRange(p, Month, now) {
      WindowInDays(p, now, 7);
      WindowInDays(p, now, 30);
    }
    forall p | InRange(p, Month, now) ensures InRange(p, Year, now) {
      WindowInDays(p, now, 30);
      WindowInDays(p, now, 365);
    }
    FilterMonotone(payments, InRangeBy(Today, now), InRangeBy(Week, now));
    FilterMonotone(payments, InRangeBy(Week, now), InRangeBy(Month, now));
    FilterMonotone(payments, InRangeBy(Month, now), InRangeBy(Year, now));
  }

  /** A custom range with a bound missing lists every payment. */
  lemma IncompleteCustomRangeListsAll(payments: seq<Payment>, from: Option<Date>, to: Option<Date>, now: Moment)
    requires from.None? || to.None?
    ensures RangeFilter(payments, Custom(from, to), now) == payments
  {
    FilterKeepsAll(payments, InRangeBy(Custom(from, to), now));
  }

  function PayerId(p: Payment): int { p.customerId }

  /** A row of the customer summary: every payment referring to the customer, whatever its
      status, counted and added up. */
  datatype CustomerSummary = CustomerSummary(customer: Customer, paymentCount: nat, totalPaid: int)

  function RefersTo(id: int): Payment -> bool {
    (p: Payment) => p.customerId == id
  }

  function Summarize(c: Customer, payments: seq<Payment>): (s: CustomerSummary)
    ensures s.customer == c
    ensures s.paymentCount == CountWhere(payments, PayerId, c.id)
    ensures s.totalPaid == SumWhere(payments, PayerId, c.id, AmountOf)
  {
    var mine := Filter(payments, RefersTo(c.id));
    FilterCountWhere(payments, RefersTo(c.id), PayerId, c.id);
    FilterSumWhere(payments, RefersTo(c.id), PayerId, c.id, AmountOf);
    CustomerSummary(c, |mine|, Sum(mine, AmountOf))
  }

  /** The row a customer should get, stated directly over the payments. */
  function SummaryRow(c: Customer, payments: seq<Payment>): CustomerSummary {
    CustomerSummary(c, CountWhere(payments, PayerId, c.id), SumWhere(payments, PayerId, c.id, AmountOf))
  }

  /** The customer table (and the full report): one summary per customer, in store order. */
  function CustomerSummaries(customers: seq<Customer>, payments: seq<Payment>): (r: seq<CustomerSummary>)
    ensures |r| == |customers|
    ensures forall i :: 0 <= i < |r| ==> r[i] == SummaryRow(customers[i], payments)
  {
    seq(|customers|, i requires 0 <= i < |customers| => Summarize(customers[i], payments))
  }

  /** A payment recorded through the form counts for the selected customer: one more
      payment and its amount more in that customer's row. */
  lemma FormPaymentCounted(db: Store.Db, form: PaymentsPage.PaymentForm, id: int, now: Moment, c: Customer)
    requires form.customerId == Some(c.id)
    requires PaymentsPage.SubmitPayment(db, form, id, now).Recorded?
    ensures var after := PaymentsPage.SubmitPayment(db, form, id, now).db.payments;
      && Summarize(c, after).paymentCount == Summarize(c, db.payments).paymentCount + 1
      && Summarize(c, after).totalPaid == Summarize(c, db.payments).totalPaid + form.amount.value
  {
    var r := PaymentsPage.SubmitPayment(db, form, id, now);
    var p := r.payment;
    assert r.db.payments == db.payments + [p];
    assert (db.payments + [p])[..|db.payments|] == db.payments;
  }

  /** Payments referring to no customer appear in no row of the summary. */
  lemma OrphanPaymentInNoRow(customers: seq<Customer>, payments: seq<Payment>, p: Payment)
    requires forall i :: 0 <= i < |customers| ==> customers[i].id != p.customerId
    ensures CustomerSummaries(customers, payments + [p]) == CustomerSummaries(customers, payments)
  {
    assert (payments + [p])[..|payments|] == payments;
  }
}
