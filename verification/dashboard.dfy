/** The figures of the dashboard (`src/pages/Dashboard.jsx`): money collected and expected,
    the overdue accounts, the collection rate, and the two charts. */
module Dashboard {
  import opened Seqs
  import opened Calendar
  import opened Records
  import opened Helpers
  import opened Ratios

  /** The dashboard's figures. `pie` is the revenue chart (collected, pending, overdue) and
      `planCounts` the plan chart (Premium, Standard, Basic). */
  datatype DashboardMetrics = DashboardMetrics(
    totalCollected: int,
    activeCustomers: nat,
    expectedRevenue: int,
    pendingAmount: int,
    overdueCount: nat,
    overdueAmount: int,
    collectionRate: Ratio,
    pie: seq<int>,
    planCounts: seq<nat>)

  function IsCompleted(p: Payment): bool { p.status == PaymentCompleted }
  function IsActive(c: Customer): bool { c.status == AccountActive }
  function IsOverdueOn(today: Date): Customer -> bool {
    c => CalculateStatus(c, today) == Overdue
  }
  function HasPlan(plan: string): Customer -> bool {
    (c: Customer) => c.plan == plan
  }

  /** The dashboard on `today`. The collected total is over all completed payments ever,
      while the expected revenue is one month of fees of the active accounts, so the
      'pending' figure is their difference and may be negative. */
  function GetDashboard(customers: seq<Customer>, payments: seq<Payment>, today: Date): (m: DashboardMetrics)
    ensures m.totalCollected == SumWhere(payments, PaymentStatusOf, PaymentCompleted, AmountOf)
    ensures m.activeCustomers == CountWhere(customers, CustomerStatusOf, AccountActive)
    ensures m.expectedRevenue == SumWhere(customers, CustomerStatusOf, AccountActive, FeeOf)
    ensures m.pendingAmount + m.totalCollected == m.expectedRevenue
    ensures m.overdueCount == CountWhere(customers, StatusKey(today), Overdue)
    ensures m.overdueAmount == SumWhere(customers, StatusKey(today), Overdue, FeeOf)
    ensures m.expectedRevenue > 0 ==> m.collectionRate.num * m.expectedRevenue == 100 * m.totalCollected * m.collectionRate.den
    ensures m.expectedRevenue <= 0 ==> m.collectionRate == Zero
    ensures |m.pie| == 3 && m.pie[0] == m.totalCollected && m.pie[2] == m.overdueAmount
    ensures m.pie[0] + m.pie[1] + m.pie[2] == m.expectedRevenue
    ensures |m.planCounts| == 3
    ensures m.planCounts[0] == CountWhere(customers, PlanOf, PlanPremium)
    ensures m.planCounts[1] == CountWhere(customers, PlanOf, PlanStandard)
    ensures m.planCounts[2] == CountWhere(customers, PlanOf, PlanBasic)
    ensures m.planCounts[0] + m.planCounts[1] + m.planCounts[2] <= |customers|
  {
    var totalCollected := Sum(Filter(payments, IsCompleted), AmountOf);
    var active := Filter(customers, IsActive);
    var expectedRevenue := Sum(active, FeeOf);
    var pendingAmount := expectedRevenue - totalCollected;
    var overdue := Filter(customers, IsOverdueOn(today));
    var overdueAmount := Sum(overdue, FeeOf);
    var rate := PercentOrZero(totalCollected, expectedRevenue);
    var planCounts := [Count(customers, HasPlan(PlanPremium)), Count(customers, HasPlan(PlanStandard)),
      Count(customers, HasPlan(PlanBasic))];
    FilterSumWhere(payments, IsCompleted, PaymentStatusOf, PaymentCompleted, AmountOf);
    FilterSumWhere(customers, IsActive, CustomerStatusOf, AccountActive, FeeOf);
    FilterCountWhere(customers, IsActive, CustomerStatusOf, AccountActive);
    FilterSumWhere(customers, IsOverdueOn(today), StatusKey(today), Overdue, FeeOf);
    FilterCountWhere(customers, IsOverdueOn(today), StatusKey(today), Overdue);
    FilterCountWhere(customers, HasPlan(PlanPremium), PlanOf, PlanPremium);
    FilterCountWhere(customers, HasPlan(PlanStandard), PlanOf, PlanStandard);
    FilterCountWhere(customers, HasPlan(PlanBasic), PlanOf, PlanBasic);
    ThreeCountsBounded(customers, PlanOf, PlanPremium, PlanStandard, PlanBasic);
    DashboardMetrics(totalCollected, |active|, expectedRevenue, pendingAmount, |overdue|, overdueAmount, rate,
      [totalCollected, pendingAmount - overdueAmount, overdueAmount], planCounts)
  }

  /** When every account is active and no fee is negative, the overdue fees are part of
      the expected revenue. */
  lemma {:induction false} OverdueWithinExpected(customers: seq<Customer>, today: Date)
    requires forall i :: 0 <= i < |customers| ==> customers[i].status == AccountActive && customers[i].monthlyFee >= 0
    ensures SumWhere(customers, StatusKey(today), Overdue, FeeOf) <= SumWhere(customers, CustomerStatusOf, AccountActive, FeeOf)
    decreases |customers|
  {
    if |customers| > 0 {
      OverdueWithinExpected(customers[..|customers| - 1], today);
    }
  }

  /** An inactive account still falls overdue, so its fee is in the overdue figure but not
      in the expected revenue: with a single such customer and no payments, the chart's
      'Pending' slice is minus that fee. */
  lemma InactiveOverdueMakesPendingSliceNegative(c: Customer, today: Date)
    requires c.status == AccountInactive && c.lastPaymentDate.None? && today.day > c.dueDay
    requires c.monthlyFee > 0
    ensures GetDashboard([c], [], today).overdueAmount == c.monthlyFee
    ensures GetDashboard([c], [], today).expectedRevenue == 0
    ensures GetDashboard([c], [], today).pie[1] == -c.monthlyFee
  {
    assert [c][..0] == [];
    assert CalculateStatus(c, today) == Overdue;
  }

  /** A collection rate of 100 means the collected total equals the expected revenue. */
  lemma FullCollection(customers: seq<Customer>, payments: seq<Payment>, today: Date)
    ensures var m := GetDashboard(customers, payments, today);
      m.expectedRevenue > 0 ==>
        (m.collectionRate.num == 100 * m.collectionRate.den <==> m.totalCollected == m.expectedRevenue)
  {
    var m := GetDashboard(customers, payments, today);
    if m.expectedRevenue > 0 {
      HundredPercent(m.collectionRate.num, m.collectionRate.den, m.expectedRevenue, m.totalCollected);
    }
  }

  lemma HundredPercent(num: int, den: int, expected: int, collected: int)
    requires den > 0 && expected > 0
    requires num * expected == 100 * collected * den
    ensures num == 100 * den <==> collected == expected
  {
    if num == 100 * den {
      assert 100 * den * expected == 100 * collected * den;
      assert den * (expected - collected) == 0;
    }
  }
}
