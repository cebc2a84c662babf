/** The analytics aggregators: revenue, customer, payment-method, cohort, per-plan collection,
    top-period and churn figures computed from the store's records. */
module Analytics {
  import opened Wrappers
  import opened Seqs
  import opened Calendar
  import opened Records
  import opened Grouping
  import opened Ratios

  /** A date filter written as "same month and same year" selects one continuous month index. */
  lemma MonthFilterIsMonthIndex(p: Payment -> bool, year: int, month: int)
    requires 0 <= month < 12
    requires forall x :: p(x) <==> x.date.month == month && x.date.year == year
    ensures forall x :: p(x) <==> PaymentMonth(x) == 12 * year + month
  {
    forall x
      ensures p(x) <==> PaymentMonth(x) == 12 * year + month
    {
      if PaymentMonth(x) == 12 * year + month {
        assert x.date.year == year;
      }
    }
  }

  // ----- getRevenueMetrics -----

  datatype RevenueMetrics = RevenueMetrics(
    thisMonth: int,
    lastMonth: int,
    growth: Ratio,
    growthUp: bool,
    average: Ratio)

  /** This month's and last month's takings, the month-on-month growth in percent (0 when
      last month took nothing) and the average payment this month. Last month of January is
      December of the previous year. The direction compares the two-decimal growth text with
      0, so a fall of less than 0.005 percent, printed "-0.00", still reads 'up'. */
  function GetRevenueMetrics(payments: seq<Payment>, today: Date): (r: RevenueMetrics)
    ensures r.thisMonth == SumWhere(payments, PaymentMonth, MonthIndex(today), AmountOf)
    ensures r.lastMonth == SumWhere(payments, PaymentMonth, MonthIndex(today) - 1, AmountOf)
    ensures r.growthUp <==> r.lastMonth <= 0 || 20000 * (r.thisMonth - r.lastMonth) + r.lastMonth > 0
    ensures r.thisMonth >= r.lastMonth ==> r.growthUp
    ensures r.lastMonth <= 0 ==> r.growth == Zero
    ensures r.lastMonth > 0 ==> r.growth.num * r.lastMonth == 100 * (r.thisMonth - r.lastMonth) * r.growth.den
    ensures var n := CountWhere(payments, PaymentMonth, MonthIndex(today));
      && (n == 0 ==> r.average == Zero)
      && (n > 0 ==> r.average.num * n == r.thisMonth * r.average.den)
  {
    var month := today.month;
    var year := today.year;
    var lastMonth := if month == 0 then 11 else month - 1;
    var lastMonthYear := if month == 0 then year - 1 else year;
    var thisMonthPayments := PaymentsIn(payments, year, month);
    var thisTotal := Sum(thisMonthPayments, AmountOf);
    var lastTotal := Sum(PaymentsIn(payments, lastMonthYear, lastMonth), AmountOf);
    var growth := Growth(thisTotal, lastTotal);
    assert 12 * lastMonthYear + lastMonth == MonthIndex(today) - 1;
    RevenueMetrics(
      thisTotal,
      lastTotal,
      growth,
      PrintsNonNegative(growth),
      Mean(thisTotal, |thisMonthPayments|))
  }

  /** `((current - previous) / previous) * 100`, or 0 when `previous` is not positive; the
      growth is non-negative exactly when takings did not fall, and above -0.005 exactly
      when takings fell by less than a 20000th of last month's. */
  function Growth(current: int, previous: int): (g: Ratio)
    ensures previous <= 0 ==> g == Zero
    ensures previous > 0 ==> g.num * previous == 100 * (current - previous) * g.den
    ensures g.num >= 0 <==> previous <= 0 || current >= previous
    ensures PrintsNonNegative(g) <==> previous <= 0 || 20000 * (current - previous) + previous > 0
  {
    if previous > 0 then
      var g := Divide(100 * (current - previous), previous);
      GrowthThreshold(g, current, previous);
      g
    else Zero
  }

  /** `g.toFixed(2) >= 0`: the text of `g` rounded to two decimals is not below zero. That
      holds for every `g` above -0.005, whose negative values print as "-0.00"; -0.005 itself
      rounds away from zero to "-0.01". */
  predicate PrintsNonNegative(g: Ratio) {
    200 * g.num > -g.den
  }

  lemma GrowthThreshold(g: Ratio, current: int, previous: int)
    requires previous > 0 && g.num * previous == 100 * (current - previous) * g.den
    ensures PrintsNonNegative(g) <==> 20000 * (current - previous) + previous > 0
  {
    var d := 20000 * (current - previous) + previous;
    assert (200 * g.num + g.den) * previous == d * g.den;
    MulSignPositive(200 * g.num + g.den, previous, d, g.den);
  }

  /** With positive `b` and `d`, `a * b == c * d` makes `a` and `c` agree in sign. */
  lemma MulSignPositive(a: int, b: int, c: int, d: int)
    requires b > 0 && d > 0 && a * b == c * d
    ensures a > 0 <==> c > 0
  {
    if a > 0 {
      assert a * b > 0;
    } else {
      assert a * b <= 0;
    }
    if c > 0 {
      assert c * d > 0;
    } else {
      assert c * d <= 0;
    }
  }

  /** `total / n`, or 0 for no payments. */
  function Mean(total: int, n: nat): (a: Ratio)
    ensures n == 0 ==> a == Zero
    ensures n > 0 ==> a.num * n == total * a.den
  {
    if n > 0 then Divide(total, n) else Zero
  }

  /** The payments dated in one calendar month (`getMonth() === month && getFullYear() === year`). */
  function PaymentsIn(payments: seq<Payment>, year: int, month: int): (r: seq<Payment>)
    requires 0 <= month < 12
    ensures Sum(r, AmountOf) == SumWhere(payments, PaymentMonth, 12 * year + month, AmountOf)
    ensures |r| == CountWhere(payments, PaymentMonth, 12 * year + month)
  {
    var inMonth := (p: Payment) => p.date.month == month && p.date.year == year;
    MonthFilterIsMonthIndex(inMonth, year, month);
    FilterSumWhere(payments, inMonth, PaymentMonth, 12 * year + month, AmountOf);
    FilterCountWhere(payments, inMonth, PaymentMonth, 12 * year + month);
    Filter(payments, inMonth)
  }

  /** Recording a payment dated today raises this month's takings by its amount and leaves
      last month's alone. */
  lemma NewPaymentCountsThisMonth(payments: seq<Payment>, p: Payment, today: Date)
    requires p.date == today
    ensures GetRevenueMetrics(payments + [p], today).thisMonth == GetRevenueMetrics(payments, today).thisMonth + p.amount
    ensures GetRevenueMetrics(payments + [p], today).lastMonth == GetRevenueMetrics(payments, today).lastMonth
  {
    SumWhereConcat(payments, [p], PaymentMonth, MonthIndex(today), AmountOf);
    SumWhereConcat(payments, [p], PaymentMonth, MonthIndex(today) - 1, AmountOf);
    assert [p][..0] == [];
  }

  // ----- getCustomerMetrics -----

  datatype CustomerMetrics = CustomerMetrics(
    total: nat,
    active: nat,
    inactive: nat,
    suspended: nat,
    activePercentage: Ratio)

  /** Head counts by account status and the active share in percent (0 without customers).
      Statuses other than the three known ones are counted in the total only. */
  function GetCustomerMetrics(customers: seq<Customer>): (r: CustomerMetrics)
    ensures r.total == |customers|
    ensures r.active == CountWhere(customers, CustomerStatusOf, AccountActive)
    ensures r.inactive == CountWhere(customers, CustomerStatusOf, AccountInactive)
    ensures r.suspended == CountWhere(customers, CustomerStatusOf, AccountSuspended)
    ensures r.active + r.inactive + r.suspended <= r.total
    ensures r.total == 0 ==> r.activePercentage == Zero
    ensures r.total > 0 ==> r.activePercentage.num * r.total == 100 * r.active * r.activePercentage.den
  {
    var isActive := (c: Customer) => c.status == AccountActive;
    var isInactive := (c: Customer) => c.status == AccountInactive;
    var isSuspended := (c: Customer) => c.status == AccountSuspended;
    var active := Count(customers, isActive);
    FilterCountWhere(customers, isActive, CustomerStatusOf, AccountActive);
    FilterCountWhere(customers, isInactive, CustomerStatusOf, AccountInactive);
    FilterCountWhere(customers, isSuspended, CustomerStatusOf, AccountSuspended);
    ThreeCountsBounded(customers, CustomerStatusOf, AccountActive, AccountInactive, AccountSuspended);
    CustomerMetrics(
      |customers|,
      active,
      Count(customers, isInactive),
      Count(customers, isSuspended),
      if |customers| > 0 then Divide(100 * active, |customers|) else Zero)
  }

  // ----- getPaymentMethodDistribution -----

  /** One payment method's share of all takings; `percentage` is not finite when all
      takings sum to 0. */
  datatype MethodShare = MethodShare(payMethod: string, amount: int, count: nat, percentage: Percentage)

  function ShareCount(s: MethodShare): int { s.count }
  function ShareAmount(s: MethodShare): int { s.amount }
  function SharePercentNum(s: MethodShare): int {
    match s.percentage
    case Finite(q) => q.num
    case _ => 0
  }

  /** Takings per payment method, one entry per method in order of first appearance. */
  function GetPaymentMethodDistribution(payments: seq<Payment>): (r: seq<MethodShare>)
    ensures |r| == |Distinct(MapSeq(payments, MethodOf))|
    ensures forall i :: 0 <= i < |r| ==> r[i].payMethod == Distinct(MapSeq(payments, MethodOf))[i]
    ensures forall i :: 0 <= i < |r| ==> r[i].amount == SumWhere(payments, MethodOf, r[i].payMethod, AmountOf)
    ensures forall i :: 0 <= i < |r| ==> r[i].count == CountWhere(payments, MethodOf, r[i].payMethod)
    ensures forall i :: 0 <= i < |r| ==> (r[i].percentage.Finite? <==> Sum(payments, AmountOf) != 0)
  {
    MethodTableKeys(payments);
    MethodTableFigures(payments);
    MethodTable(payments)
  }

  /** One entry per group of the method tally, in the tally's order. */
  function MethodTable(payments: seq<Payment>): seq<MethodShare> {
    MapSeq(Tally(payments, MethodOf, AmountOf), (g: Group<string>) => ShareOf(payments, Sum(payments, AmountOf), g))
  }

  lemma MethodTableKeys(payments: seq<Payment>)
    ensures var r := MethodTable(payments);
      && |r| == |Distinct(MapSeq(payments, MethodOf))|
      && forall i :: 0 <= i < |r| ==> r[i].payMethod == Distinct(MapSeq(payments, MethodOf))[i]
  {
    var distribution := Tally(payments, MethodOf, AmountOf);
    var r := MethodTable(payments);
    assert forall i :: 0 <= i < |r| ==> r[i].payMethod == Keys(distribution)[i];
  }

  lemma MethodTableFigures(payments: seq<Payment>)
    ensures var r := MethodTable(payments);
      && (forall i :: 0 <= i < |r| ==> r[i].amount == SumWhere(payments, MethodOf, r[i].payMethod, AmountOf))
      && (forall i :: 0 <= i < |r| ==> r[i].count == CountWhere(payments, MethodOf, r[i].payMethod))
      && (forall i :: 0 <= i < |r| ==> (r[i].percentage.Finite? <==> Sum(payments, AmountOf) != 0))
  {
  }

  /** The entry of one method's group: its total, its payment count and its share of all
      takings. */
  function ShareOf(payments: seq<Payment>, total: int, g: Group<string>): (e: MethodShare)
    ensures e.payMethod == g.key && e.amount == g.total
    ensures e.count == CountWhere(payments, MethodOf, g.key)
    ensures e.percentage.Finite? <==> total != 0
  {
    MethodShare(g.key, g.total, CountWhere(payments, MethodOf, g.key), Share(g.total, total))
  }

  /** Every payment is counted under exactly one method. */
  lemma DistributionCountsAddUp(payments: seq<Payment>)
    ensures Sum(GetPaymentMethodDistribution(payments), ShareCount) == |payments|
  {
    var r := GetPaymentMethodDistribution(payments);
    var ones := Tally(payments, MethodOf, OnePayment);
    forall i | 0 <= i < |r|
      ensures ShareCount(r[i]) == TotalOf(ones[i])
    {
      CountIsSumOfOnes(payments, MethodOf, r[i].payMethod, OnePayment);
    }
    SumPointwise(r, ShareCount, ones, TotalOf);
    TallySum(payments, MethodOf, OnePayment);
    LengthIsSumOfOnes(payments, OnePayment);
  }

  /** The per-method amounts add up to all takings. */
  lemma DistributionAmountsAddUp(payments: seq<Payment>)
    ensures Sum(GetPaymentMethodDistribution(payments), ShareAmount) == Sum(payments, AmountOf)
  {
    var r := GetPaymentMethodDistribution(payments);
    var groups := Tally(payments, MethodOf, AmountOf);
    SumPointwise(r, ShareAmount, groups, TotalOf);
    TallySum(payments, MethodOf, AmountOf);
  }

  /** When takings are not 0 every percentage has the same denominator and the percentages
      add up to exactly 100. */
  lemma DistributionPercentagesAddUp(payments: seq<Payment>)
    requires Sum(payments, AmountOf) != 0
    ensures var total := Sum(payments, AmountOf);
      var r := GetPaymentMethodDistribution(payments);
      && (forall i :: 0 <= i < |r| ==> r[i].percentage.Finite? && r[i].percentage.value.den == Abs(total))
      && Sum(r, SharePercentNum) == 100 * Abs(total)
  {
    var total := Sum(payments, AmountOf);
    var r := GetPaymentMethodDistribution(payments);
    var sign := if total > 0 then 1 else -1;
    var scaled := (s: MethodShare) => 100 * sign * s.amount;
    forall i | 0 <= i < |r|
      ensures r[i].percentage.Finite? && r[i].percentage.value.den == Abs(total)
      ensures SharePercentNum(r[i]) == scaled(r[i])
    {
      DistributionEntryShare(payments, i);
      ShareOfNonzero(r[i].amount, total);
    }
    SumPointwise(r, SharePercentNum, r, scaled);
    SumScale(r, ShareAmount, scaled, 100 * sign);
    DistributionAmountsAddUp(payments);
    SignTimesTotal(total, sign);
  }

  lemma DistributionEntryShare(payments: seq<Payment>, i: int)
    requires 0 <= i < |GetPaymentMethodDistribution(payments)|
    ensures var r := GetPaymentMethodDistribution(payments);
      r[i].percentage == Share(r[i].amount, Sum(payments, AmountOf))
  {
  }

  /** A percentage of a non-zero whole, written over the whole's magnitude. */
  lemma ShareOfNonzero(part: int, whole: int)
    requires whole != 0
    ensures Share(part, whole).Finite?
    ensures Share(part, whole).value.den == Abs(whole)
    ensures Share(part, whole).value.num == 100 * (if whole > 0 then 1 else -1) * part
  {
  }

  lemma SignTimesTotal(total: int, sign: int)
    requires sign == if total > 0 then 1 else -1
    requires total != 0
    ensures 100 * sign * total == 100 * Abs(total)
  {
  }

  function Abs(x: int): nat { if x < 0 then -x else x }

  /** Scaling every term scales the sum. */
  lemma {:induction false} SumScale<T>(s: seq<T>, f: T -> int, g: T -> int, k: int)
    requires forall x :: g(x) == k * f(x)
    ensures Sum(s, g) == k * Sum(s, f)
    decreases |s|
  {
    if |s| > 0 {
      SumScale(s[..|s| - 1], f, g, k);
    }
  }

  // ----- getCustomerCohorts -----

  /** Age bands by days since creation: under 30, under 90, under 365, and the rest. */
  datatype Cohort = VeryNew | Recent | Established | Loyal

  /** The band of one customer. Whole days are floored; a missing creation stamp makes the
      source's day count NaN, which fails every comparison and lands in the last band. */
  function CohortOf(c: Customer, now: Moment): (k: Cohort)
    ensures c.createdAt.None? ==> k == Loyal
    ensures c.createdAt.Some? ==> var ms := EpochMs(now) - EpochMs(c.createdAt.value);
      && (k == VeryNew <==> ms < 30 * DayMs)
      && (k == Recent <==> 30 * DayMs <= ms < 90 * DayMs)
      && (k == Established <==> 90 * DayMs <= ms < 365 * DayMs)
      && (k == Loyal <==> 365 * DayMs <= ms)
  {
    match c.createdAt
    case None => Loyal
    case Some(created) =>
      var daysOld := (EpochMs(now) - EpochMs(created)) / 86_400_000;
      if daysOld < 30 then VeryNew
      else if daysOld < 90 then Recent
      else if daysOld < 365 then Established
      else Loyal
  }

  function CohortKey(now: Moment): Customer -> Cohort {
    c => CohortOf(c, now)
  }

  datatype CohortCounts = CohortCounts(veryNew: nat, recent: nat, established: nat, loyal: nat, total: nat)

  /** The `forEach` that pushes each customer into its band. */
  function CohortFold(customers: seq<Customer>, now: Moment): CohortCounts
    decreases |customers|
  {
    if |customers| == 0 then CohortCounts(0, 0, 0, 0, 0)
    else
      var r := CohortFold(customers[..|customers| - 1], now);
      var r' := r.(total := r.total + 1);
      match CohortOf(customers[|customers| - 1], now)
      case VeryNew => r'.(veryNew := r.veryNew + 1)
      case Recent => r'.(recent := r.recent + 1)
      case Established => r'.(established := r.established + 1)
      case Loyal => r'.(loyal := r.loyal + 1)
  }

  /** Band sizes; every customer is in exactly one band. */
  function GetCustomerCohorts(customers: seq<Customer>, now: Moment): (r: CohortCounts)
    ensures r.total == |customers|
    ensures r.veryNew == CountWhere(customers, CohortKey(now), VeryNew)
    ensures r.recent == CountWhere(customers, CohortKey(now), Recent)
    ensures r.established == CountWhere(customers, CohortKey(now), Established)
    ensures r.loyal == CountWhere(customers, CohortKey(now), Loyal)
    ensures r.veryNew + r.recent + r.established + r.loyal == r.total
  {
    CohortFoldCounts(customers, now);
    CohortFold(customers, now)
  }

  lemma {:induction false} CohortFoldCounts(customers: seq<Customer>, now: Moment)
    ensures var r := CohortFold(customers, now);
      && r.total == |customers|
      && r.veryNew == CountWhere(customers, CohortKey(now), VeryNew)
      && r.recent == CountWhere(customers, CohortKey(now), Recent)
      && r.established == CountWhere(customers, CohortKey(now), Established)
      && r.loyal == CountWhere(customers, CohortKey(now), Loyal)
      && r.veryNew + r.recent + r.established + r.loyal == r.total
    decreases |customers|
  {
    if |customers| > 0 {
      CohortFoldCounts(customers[..|customers| - 1], now);
    }
  }

  // ----- getCollectionRateByPlan -----

  /** The plan of the first customer a payment refers to, if any. */
  function PayerPlan(customers: seq<Customer>, p: Payment): Option<string> {
    match FindCustomer(customers, p.customerId)
    case None => None
    case Some(c) => Some(c.plan)
  }

  /** A payment's month together with its payer's plan. */
  function PayerKey(customers: seq<Customer>): Payment -> (int, Option<string>) {
    p => (PaymentMonth(p), PayerPlan(customers, p))
  }

  datatype PlanCollection = PlanCollection(
    plan: string,
    customers: nat,
    expectedRevenue: int,
    collectedRevenue: int,
    rate: Ratio,
    gap: int)

  /** One plan's row: what its active customers owe per month, what was paid this month by
      payers on that plan (whatever their status), the rate in percent (0 when nothing is
      expected) and the gap, which goes negative when more is collected than expected. */
  function PlanCollectionOf(plan: string, payments: seq<Payment>, customers: seq<Customer>, today: Date): (r: PlanCollection)
    ensures r.plan == plan
    ensures r.customers == CountWhere(customers, PlanAndStatus, (plan, AccountActive))
    ensures r.expectedRevenue == SumWhere(customers, PlanAndStatus, (plan, AccountActive), FeeOf)
    ensures r.collectedRevenue == SumWhere(payments, PayerKey(customers), (MonthIndex(today), Some(plan)), AmountOf)
    ensures r.expectedRevenue <= 0 ==> r.rate == Zero
    ensures r.expectedRevenue > 0 ==> r.rate.num * r.expectedRevenue == 100 * r.collectedRevenue * r.rate.den
    ensures r.gap + r.collectedRevenue == r.expectedRevenue
    ensures r == PlanRow(plan, r.customers, r.expectedRevenue, r.collectedRevenue)
  {
    var month := today.month;
    var year := today.year;
    var onPlan := (c: Customer) => c.plan == plan && c.status == AccountActive;
    var planCustomers := Filter(customers, onPlan);
    var expected := Sum(planCustomers, FeeOf);
    var paidOnPlan := (p: Payment) =>
      var customer := FindCustomer(customers, p.customerId);
      customer.Some? && customer.value.plan == plan && p.date.month == month && p.date.year == year;
    var collected := Sum(Filter(payments, paidOnPlan), AmountOf);
    FilterSumWhere(customers, onPlan, PlanAndStatus, (plan, AccountActive), FeeOf);
    FilterCountWhere(customers, onPlan, PlanAndStatus, (plan, AccountActive));
    PaidOnPlanIsKey(customers, paidOnPlan, plan, today);
    FilterSumWhere(payments, paidOnPlan, PayerKey(customers), (MonthIndex(today), Some(plan)), AmountOf);
    PlanRow(plan, |planCustomers|, expected, collected)
  }

  /** A row from its count and its two amounts: the rate and the gap follow from them. */
  function PlanRow(plan: string, customers: nat, expected: int, collected: int): PlanCollection {
    PlanCollection(
      plan,
      customers,
      expected,
      collected,
      if expected > 0 then Divide(100 * collected, expected) else Zero,
      expected - collected)
  }

  lemma PaidOnPlanIsKey(customers: seq<Customer>, paidOnPlan: Payment -> bool, plan: string, today: Date)
    requires forall p :: paidOnPlan(p) <==> var customer := FindCustomer(customers, p.customerId);
      customer.Some? && customer.value.plan == plan && p.date.month == today.month && p.date.year == today.year
    ensures forall p :: paidOnPlan(p) <==> PayerKey(customers)(p) == (MonthIndex(today), Some(plan))
  {
    forall p
      ensures paidOnPlan(p) <==> PayerKey(customers)(p) == (MonthIndex(today), Some(plan))
    {
      if PaymentMonth(p) == MonthIndex(today) {
        assert p.date.year == today.year;
      }
    }
  }

  /** The three named plans, in the order the source lists them. */
  function GetCollectionRateByPlan(payments: seq<Payment>, customers: seq<Customer>, today: Date): (r: seq<PlanCollection>)
    ensures |r| == 3
    ensures r[0].plan == PlanPremium && r[1].plan == PlanStandard && r[2].plan == PlanBasic
    ensures forall i :: 0 <= i < 3 ==> r[i] == PlanCollectionOf(r[i].plan, payments, customers, today)
  {
    var plans := [PlanPremium, PlanStandard, PlanBasic];
    seq(3, i requires 0 <= i < 3 => PlanCollectionOf(plans[i], payments, customers, today))
  }

  /** When every payment of this month has a payer on one of the three plans, the rows'
      collected amounts add up to this month's takings. */
  lemma CollectionCoversMonth(payments: seq<Payment>, customers: seq<Customer>, today: Date)
    requires forall i :: 0 <= i < |payments| && PaymentMonth(payments[i]) == MonthIndex(today) ==>
      PayerPlan(customers, payments[i]) in {Some(PlanPremium), Some(PlanStandard), Some(PlanBasic)}
    ensures var r := GetCollectionRateByPlan(payments, customers, today);
      r[0].collectedRevenue + r[1].collectedRevenue + r[2].collectedRevenue
        == GetRevenueMetrics(payments, today).thisMonth
  {
    PlansPartitionMonth(payments, customers, MonthIndex(today));
  }

  lemma {:induction false} PlansPartitionMonth(payments: seq<Payment>, customers: seq<Customer>, k: int)
    requires forall i :: 0 <= i < |payments| && PaymentMonth(payments[i]) == k ==>
      PayerPlan(customers, payments[i]) in {Some(PlanPremium), Some(PlanStandard), Some(PlanBasic)}
    ensures SumWhere(payments, PayerKey(customers), (k, Some(PlanPremium)), AmountOf)
      + SumWhere(payments, PayerKey(customers), (k, Some(PlanStandard)), AmountOf)
      + SumWhere(payments, PayerKey(customers), (k, Some(PlanBasic)), AmountOf)
      == SumWhere(payments, PaymentMonth, k, AmountOf)
    decreases |payments|
  {
    if |payments| > 0 {
      PlansPartitionMonth(payments[..|payments| - 1], customers, k);
    }
  }

  /** A payment that refers to no customer is collected under no plan. */
  lemma OrphanPaymentIgnored(payments: seq<Payment>, customers: seq<Customer>, p: Payment, today: Date)
    requires forall i :: 0 <= i < |customers| ==> customers[i].id != p.customerId
    ensures GetCollectionRateByPlan(payments + [p], customers, today) == GetCollectionRateByPlan(payments, customers, today)
  {
    var before := GetCollectionRateByPlan(payments, customers, today);
    var after := GetCollectionRateByPlan(payments + [p], customers, today);
    forall i | 0 <= i < 3 ensures after[i] == before[i] {
      OrphanPlanRowUnchanged(payments, customers, p, today, before[i].plan);
    }
  }

  lemma OrphanPlanRowUnchanged(payments: seq<Payment>, customers: seq<Customer>, p: Payment, today: Date, plan: string)
    requires forall i :: 0 <= i < |customers| ==> customers[i].id != p.customerId
    ensures PlanCollectionOf(plan, payments + [p], customers, today) == PlanCollectionOf(plan, payments, customers, today)
  {
    var key := (MonthIndex(today), Some(plan));
    SumWhereConcat(payments, [p], PayerKey(customers), key, AmountOf);
    assert SumWhere([p], PayerKey(customers), key, AmountOf) == 0 by {
      assert [p][..0] == [];
      assert PayerPlan(customers, p).None?;
    }
  }

  // ----- getTopPeriods -----

  /** A calendar month as the source's `YYYY-MM` key; `month` counts from 1. */
  datatype Period = Period(year: int, month: int)

  function PeriodOf(p: Payment): Period {
    Period(p.date.year, p.date.month + 1)
  }

  function Min(a: int, b: int): int { if a < b then a else b }

  /** Takings per month, best month first (ties keep first-seen order), at most five. */
  function GetTopPeriods(payments: seq<Payment>): (r: seq<Group<Period>>)
    ensures |r| == Min(5, |Distinct(MapSeq(payments, PeriodOf))|)
    ensures SortedDescending(r)
    ensures r <= SortDescending(Tally(payments, PeriodOf, AmountOf))
    ensures forall i :: 0 <= i < |r| ==> r[i] in Tally(payments, PeriodOf, AmountOf)
    ensures forall i :: 0 <= i < |r| ==> r[i].total == SumWhere(payments, PeriodOf, r[i].key, AmountOf)
    ensures forall g :: g in Tally(payments, PeriodOf, AmountOf) && g !in r ==>
      forall i :: 0 <= i < |r| ==> r[i].total >= g.total
  {
    var months := Tally(payments, PeriodOf, AmountOf);
    var sorted := SortDescending(months);
    TopOfSorted(months, sorted, 5);
    var r := sorted[..Min(5, |sorted|)];
    TallyMembers(payments, PeriodOf, AmountOf, r);
    r
  }

  /** The first `n` of a descending permutation of `gs` are members of `gs` that no left-out
      member beats. */
  lemma TopOfSorted<K>(gs: seq<Group<K>>, sorted: seq<Group<K>>, n: nat)
    requires multiset(sorted) == multiset(gs) && SortedDescending(sorted)
    ensures var r := sorted[..Min(n, |sorted|)];
      && (forall i :: 0 <= i < |r| ==> r[i] in gs)
      && (forall g :: g in gs && g !in r ==> forall i :: 0 <= i < |r| ==> r[i].total >= g.total)
  {
    var r := sorted[..Min(n, |sorted|)];
    forall i | 0 <= i < |r|
      ensures r[i] in gs
    {
      assert r[i] in multiset(sorted);
    }
    forall g | g in gs && g !in r
      ensures forall i :: 0 <= i < |r| ==> r[i].total >= g.total
    {
      assert g in multiset(sorted);
      var j :| 0 <= j < |sorted| && sorted[j] == g;
      assert j >= |r|;
    }
  }

  /** With at most five months of payments the top list is every month, and its totals add
      up to all takings. */
  lemma TopPeriodsCoverFewMonths(payments: seq<Payment>)
    requires |Distinct(MapSeq(payments, PeriodOf))| <= 5
    ensures SumTotals(GetTopPeriods(payments)) == Sum(payments, AmountOf)
  {
    TopPeriodsAreAllMonths(payments);
    SortDescendingSum(Tally(payments, PeriodOf, AmountOf));
    TallySum(payments, PeriodOf, AmountOf);
  }

  lemma TopPeriodsAreAllMonths(payments: seq<Payment>)
    requires |Distinct(MapSeq(payments, PeriodOf))| <= 5
    ensures GetTopPeriods(payments) == SortDescending(Tally(payments, PeriodOf, AmountOf))
  {
    var months := Tally(payments, PeriodOf, AmountOf);
    var sorted := SortDescending(months);
    var r := GetTopPeriods(payments);
    assert |r| == |sorted| by {
      assert |Keys(months)| == |months|;
    }
    assert r == sorted[..|r|];
  }

  // ----- getChurnRate -----

  /** Active, has paid before, and the last payment's date (at midnight) is more than thirty
      days before now. A customer who never paid has no date to compare and is not at risk. */
  predicate AtRisk(c: Customer, now: Moment) {
    c.status == AccountActive
    && match c.lastPaymentDate
       case None => false
       case Some(d) => EpochMs(Midnight(d)) < EpochMs(now) - 30 * DayMs
  }

  function RiskKey(now: Moment): Customer -> bool {
    c => AtRisk(c, now)
  }

  datatype Churn = Churn(atRisk: nat, churnRate: Ratio, highChurn: bool)

  /** How many customers are at risk, as a percentage of all customers, and whether that
      percentage exceeds 10. */
  function GetChurnRate(customers: seq<Customer>, now: Moment): (r: Churn)
    ensures r.atRisk == CountWhere(customers, RiskKey(now), true)
    ensures r.atRisk <= |customers|
    ensures |customers| == 0 ==> r.churnRate == Zero
    ensures |customers| > 0 ==> r.churnRate.num * |customers| == 100 * r.atRisk * r.churnRate.den
    ensures r.highChurn <==> 10 * r.atRisk > |customers|
  {
    var thirtyDaysAgo := EpochMs(now) - 30 * 24 * 60 * 60 * 1000;
    var isRecentlyInactive := (c: Customer) =>
      if c.status != AccountActive then false
      else match c.lastPaymentDate
        case None => false
        case Some(d) => EpochMs(Midnight(d)) < thirtyDaysAgo;
    var atRisk := Count(customers, isRecentlyInactive);
    FilterCountWhere(customers, isRecentlyInactive, RiskKey(now), true);
    var churnRate := if |customers| > 0 then Divide(100 * atRisk, |customers|) else Zero;
    Churn(atRisk, churnRate, churnRate.num > 10 * churnRate.den)
  }

  /** At risk in calendar terms: the last payment was more than thirty days ago, or exactly
      thirty days ago and now is past midnight. */
  lemma AtRiskByDays(c: Customer, now: Moment)
    ensures AtRisk(c, now) <==> (
      && c.status == AccountActive
      && c.lastPaymentDate.Some?
      && var gap := DayNumber(now.date) - DayNumber(c.lastPaymentDate.value);
         gap > 30 || (gap == 30 && now.time > 0))
  {
  }
}
