/** The rules of the payments page (`src/pages/Payments.jsx`): the filter chain, the summary
    totals, the form validation, and how a recorded payment refers to its customer. */
module PaymentsPage {
  import opened Wrappers
  import opened Seqs
  import opened Calendar
  import opened Text
  import opened Records
  import Store

  /** The four filters; 'all' and an absent date switch a stage off. */
  datatype PaymentFilters = PaymentFilters(payMethod: string, status: string, startDate: Option<Date>, endDate: Option<Date>)

  /** `new Date(p.date) >= new Date(startDate)`: both are midnights, so this compares days. */
  predicate OnOrAfterDay(p: Payment, start: Date) {
    DayNumber(p.date) >= DayNumber(start)
  }

  predicate OnOrBeforeDay(p: Payment, end: Date) {
    DayNumber(p.date) <= DayNumber(end)
  }

  /** A payment passes every stage that is switched on. */
  predicate PassesFilters(p: Payment, f: PaymentFilters) {
    && (f.payMethod != "all" ==> p.payMethod == f.payMethod)
    && (f.status != "all" ==> p.status == f.status)
    && (f.startDate.Some? ==> OnOrAfterDay(p, f.startDate.value))
    && (f.endDate.Some? ==> OnOrBeforeDay(p, f.endDate.value))
  }

  function PassesBy(f: PaymentFilters): Payment -> bool {
    p => PassesFilters(p, f)
  }

  /** `filteredPayments`: method, then status, then start date, then end date, each stage
      applied only when set. The chain keeps exactly the payments passing every set stage,
      in store order. */
  function FilteredPayments(payments: seq<Payment>, f: PaymentFilters): (r: seq<Payment>)
    ensures r == Filter(payments, PassesBy(f))
    ensures IsSubsequence(r, payments)
    ensures forall i :: 0 <= i < |r| ==> PassesFilters(r[i], f)
    ensures forall p :: p in payments && PassesFilters(p, f) ==> p in r
  {
    var byMethod := (p: Payment) => p.payMethod == f.payMethod;
    var byStatus := (p: Payment) => p.status == f.status;
    var byStart := (p: Payment) => f.startDate.Some? && OnOrAfterDay(p, f.startDate.value);
    var byEnd := (p: Payment) => f.endDate.Some? && OnOrBeforeDay(p, f.endDate.value);
    var filtered := payments;
    var filtered := FilterIf(filtered, f.payMethod != "all", byMethod);
    var filtered := FilterIf(filtered, f.status != "all", byStatus);
    var filtered := FilterIf(filtered, f.startDate.Some?, byStart);
    var filtered := FilterIf(filtered, f.endDate.Some?, byEnd);
    FourStageChain(payments, f.payMethod != "all", byMethod, f.status != "all", byStatus,
      f.startDate.Some?, byStart, f.endDate.Some?, byEnd, PassesBy(f));
    FilterIsSubsequence(payments, PassesBy(f));
    forall p | p in payments && PassesFilters(p, f)
      ensures p in Filter(payments, PassesBy(f))
    {
      FilterMembership(payments, PassesBy(f), p);
    }
    filtered
  }

  /** With every stage off, every payment is listed. */
  lemma NoFiltersShowAll(payments: seq<Payment>)
    ensures FilteredPayments(payments, PaymentFilters("all", "all", None, None)) == payments
  {
    FilterKeepsAll(payments, PassesBy(PaymentFilters("all", "all", None, None)));
  }

  /** A start date after the end date lists nothing. */
  lemma EmptyDateRange(payments: seq<Payment>, f: PaymentFilters)
    requires f.startDate.Some? && f.endDate.Some?
    requires DayNumber(f.startDate.value) > DayNumber(f.endDate.value)
    ensures FilteredPayments(payments, f) == []
  {
    FilterKeepsNone(payments, PassesBy(f));
  }

  /** Filtering the listed payments again with the same filters changes nothing. */
  lemma FilterAgainChangesNothing(payments: seq<Payment>, f: PaymentFilters)
    ensures FilteredPayments(FilteredPayments(payments, f), f) == FilteredPayments(payments, f)
  {
    FilterIdempotent(payments, PassesBy(f));
  }

  function IsCompleted(p: Payment): bool { p.status == PaymentCompleted }
  function IsPending(p: Payment): bool { p.status == PaymentPending }

  /** The 'Total Collected' card: the completed amounts among the listed payments. */
  function TotalCollected(listed: seq<Payment>): (t: int)
    ensures t == SumWhere(listed, PaymentStatusOf, PaymentCompleted, AmountOf)
  {
    FilterSumWhere(listed, IsCompleted, PaymentStatusOf, PaymentCompleted, AmountOf);
    Sum(Filter(listed, IsCompleted), AmountOf)
  }

  /** The 'Pending' card: the pending amounts among the listed payments. */
  function TotalPending(listed: seq<Payment>): (t: int)
    ensures t == SumWhere(listed, PaymentStatusOf, PaymentPending, AmountOf)
  {
    FilterSumWhere(listed, IsPending, PaymentStatusOf, PaymentPending, AmountOf);
    Sum(Filter(listed, IsPending), AmountOf)
  }

  /** One more listed payment moves exactly the card of its own status, by its amount; a
      failed payment moves neither. */
  lemma TotalsAfterOneMore(listed: seq<Payment>, p: Payment)
    ensures TotalCollected(listed + [p]) == TotalCollected(listed) + (if p.status == PaymentCompleted then p.amount else 0)
    ensures TotalPending(listed + [p]) == TotalPending(listed) + (if p.status == PaymentPending then p.amount else 0)
  {
    SumWhereConcat(listed, [p], PaymentStatusOf, PaymentCompleted, AmountOf);
    SumWhereConcat(listed, [p], PaymentStatusOf, PaymentPending, AmountOf);
    assert SumWhere([p], PaymentStatusOf, PaymentCompleted, AmountOf) == (if p.status == PaymentCompleted then p.amount else 0) by {
      assert [p][..0] == [];
    }
    assert SumWhere([p], PaymentStatusOf, PaymentPending, AmountOf) == (if p.status == PaymentPending then p.amount else 0) by {
      assert [p][..0] == [];
    }
  }

  function InMonthOf(today: Date): Payment -> bool {
    (p: Payment) => MonthIndex(p.date) == MonthIndex(today)
  }

  /** The 'This Month' card: all payments (not only the listed ones) dated in the calendar
      month of today, whatever their status. */
  function ThisMonthCount(payments: seq<Payment>, today: Date): (n: nat)
    ensures n == CountWhere(payments, PaymentMonth, MonthIndex(today))
    ensures n <= |payments|
  {
    FilterCountWhere(payments, InMonthOf(today), PaymentMonth, MonthIndex(today));
    Count(payments, InMonthOf(today))
  }

  /** One more payment raises the 'This Month' card exactly when it is dated this month,
      whatever its status: a failed payment counts too. */
  lemma ThisMonthAfterOneMore(payments: seq<Payment>, p: Payment, today: Date)
    ensures ThisMonthCount(payments + [p], today) == ThisMonthCount(payments, today) + (if MonthIndex(p.date) == MonthIndex(today) then 1 else 0)
  {
    assert (payments + [p])[..|payments|] == payments;
  }

  /** The payment form: the selected customer (none while 'Select Customer' is shown), the
      amount input (absent while empty), and the other fields as entered. */
  datatype PaymentForm = PaymentForm(
    customerId: Option<int>,
    amount: Option<int>,
    date: Date,
    payMethod: string,
    referenceId: string,
    status: string)

  /** What a submission of the payment form leads to. */
  datatype PaymentSubmit = NoCustomer | InvalidAmount | Recorded(db: Store.Db, payment: Payment)

  /** `handleSubmit`: no customer selected, or an amount that is empty or not positive,
      stops with an error message; otherwise the store records the payment. */
  function SubmitPayment(db: Store.Db, form: PaymentForm, id: int, now: Moment): (r: PaymentSubmit)
    ensures r == NoCustomer <==> form.customerId.None?
    ensures r == InvalidAmount <==> form.customerId.Some? && (form.amount.None? || form.amount.value <= 0)
    ensures r.Recorded? ==> r.payment.amount > 0 && r.payment.customerId == form.customerId.value
    ensures r.Recorded? ==> r.payment.amount == form.amount.value && r.payment.date == form.date
    ensures r.Recorded? ==> r.payment.payMethod == form.payMethod && r.payment.status == form.status
    ensures r.Recorded? ==> r.payment.referenceId == form.referenceId && r.payment.id == id
    ensures r.Recorded? ==> r.db.payments == db.payments + [r.payment] && r.db.reminders == db.reminders
    ensures r.Recorded? ==> |r.db.customers| == |db.customers|
    ensures r.Recorded? ==> forall i :: 0 <= i < |db.customers| && db.customers[i].id != form.customerId.value ==>
      r.db.customers[i] == db.customers[i]
    ensures r.Recorded? ==> forall i :: 0 <= i < |db.customers| && db.customers[i].id == form.customerId.value ==>
      r.db.customers[i].lastPaymentDate == Some(form.date)
  {
    if form.customerId.None? then NoCustomer
    else if form.amount.None? || form.amount.value <= 0 then InvalidAmount
    else
      var data := Payment(0, form.customerId.value, "", form.amount.value, form.date, form.payMethod,
        form.status, form.referenceId, None);
      var (db', p) := Store.AddPayment(db, data, id, now);
      Recorded(db', p)
  }

  /** A loosely typed field value: the form keeps what a `<select>` delivers, text. */
  datatype FieldValue = Num(n: int) | Text(s: string)

  /** `stored === id` with a numeric `id`: text never equals a number. */
  predicate StrictlyEqualsId(stored: FieldValue, id: int) {
    stored == Num(id)
  }

  /** The customer reference a form payment is stored with, as written: the option's value
      text, because `addPayment` spreads the form data unchanged. */
  function AsWrittenStoredCustomerId(selected: int): (v: FieldValue)
    ensures v.Text? && ParseIntPrefix(v.s) == Some(selected)
  {
    ParseDecimalRoundTrip(selected);
    Text(IntToDecimal(selected))
  }

  /** As written, a payment recorded through the form is found by `addPayment` (which
      parses the text) yet matched by no strict-equality lookup: the per-customer totals
      of the reports and the collection by plan never count it. */
  lemma AsWrittenFormPaymentUnmatched(selected: int, c: Customer)
    requires c.id == selected
    ensures ParseIntPrefix(AsWrittenStoredCustomerId(selected).s) == Some(c.id)
    ensures !StrictlyEqualsId(AsWrittenStoredCustomerId(selected), c.id)
  {
  }

  /** The corrected reference: the parsed number, which is what `SubmitPayment` stores. */
  function StoredCustomerId(selected: int): (v: FieldValue)
    ensures StrictlyEqualsId(v, selected)
    ensures forall other :: StrictlyEqualsId(v, other) ==> other == selected
  {
    Num(selected)
  }
}
