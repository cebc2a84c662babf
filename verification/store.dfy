/** The store's operations as pure transforms of its three lists. The identifier and the
    clock the source reads (`Date.now()`, `new Date()`) are parameters. */
module Store {
  import opened Wrappers
  import opened Seqs
  import opened Calendar
  import opened Records

  datatype Db = Db(customers: seq<Customer>, payments: seq<Payment>, reminders: seq<Reminder>)

  // ----- customers -----

  /** `addCustomer`: appends the draft under identifier `id`, stamped `now`, with its
      account status forced to active whatever the draft carried. */
  function AddCustomer(customers: seq<Customer>, draft: Customer, id: int, now: Moment): (r: (seq<Customer>, Customer))
    ensures r.0 == customers + [r.1]
    ensures r.1.id == id && r.1.status == AccountActive && r.1.createdAt == Some(now)
    ensures r.1.name == draft.name && r.1.phone == draft.phone && r.1.plan == draft.plan
    ensures r.1.monthlyFee == draft.monthlyFee && r.1.dueDay == draft.dueDay && r.1.startDate == draft.startDate
    ensures r.1.lastPaymentDate == draft.lastPaymentDate && r.1.updatedAt == draft.updatedAt
  {
    var added := draft.(id := id, createdAt := Some(now), status := AccountActive);
    (customers + [added], added)
  }

  /** The fields an update may carry; absent fields keep their value. */
  datatype CustomerPatch = CustomerPatch(
    name: Option<string>,
    phone: Option<string>,
    plan: Option<string>,
    monthlyFee: Option<int>,
    status: Option<string>,
    dueDay: Option<int>,
    startDate: Option<Date>,
    lastPaymentDate: Option<Date>)

  const NoChange: CustomerPatch := CustomerPatch(None, None, None, None, None, None, None, None)

  /** `{ ...c, ...updates, updatedAt: now }`. */
  function Merge(c: Customer, patch: CustomerPatch, now: Moment): (m: Customer)
    ensures m.id == c.id && m.createdAt == c.createdAt && m.updatedAt == Some(now)
    ensures m.name == patch.name.GetOr(c.name) && m.phone == patch.phone.GetOr(c.phone)
    ensures m.plan == patch.plan.GetOr(c.plan) && m.monthlyFee == patch.monthlyFee.GetOr(c.monthlyFee)
    ensures m.status == patch.status.GetOr(c.status) && m.dueDay == patch.dueDay.GetOr(c.dueDay)
    ensures m.startDate == patch.startDate.GetOr(c.startDate)
    ensures m.lastPaymentDate == if patch.lastPaymentDate.Some? then patch.lastPaymentDate else c.lastPaymentDate
  {
    Customer(
      c.id,
      patch.name.GetOr(c.name),
      patch.phone.GetOr(c.phone),
      patch.plan.GetOr(c.plan),
      patch.monthlyFee.GetOr(c.monthlyFee),
      patch.status.GetOr(c.status),
      patch.dueDay.GetOr(c.dueDay),
      patch.startDate.GetOr(c.startDate),
      if patch.lastPaymentDate.Some? then patch.lastPaymentDate else c.lastPaymentDate,
      c.createdAt,
      Some(now))
  }

  /** `updateCustomer`: merges the patch into every record with identifier `id`; length,
      order and every other record are kept. */
  function UpdateCustomer(customers: seq<Customer>, id: int, patch: CustomerPatch, now: Moment): (r: seq<Customer>)
    ensures |r| == |customers|
    ensures forall i :: 0 <= i < |r| && customers[i].id != id ==> r[i] == customers[i]
    ensures forall i :: 0 <= i < |r| && customers[i].id == id ==> r[i] == Merge(customers[i], patch, now)
    ensures forall i :: 0 <= i < |r| ==> r[i].id == customers[i].id
  {
    seq(|customers|, i requires 0 <= i < |customers| =>
      if customers[i].id == id then Merge(customers[i], patch, now) else customers[i])
  }

  function CustomerIdOf(c: Customer): int { c.id }

  /** `deleteCustomer`: drops every record with identifier `id` and keeps the rest in order. */
  function DeleteCustomer(customers: seq<Customer>, id: int): (r: seq<Customer>)
    ensures IsSubsequence(r, customers)
    ensures forall i :: 0 <= i < |r| ==> r[i].id != id
    ensures forall c :: c in customers && c.id != id ==> c in r
    ensures |r| == |customers| - CountWhere(customers, CustomerIdOf, id)
  {
    var keep := (c: Customer) => c.id != id;
    FilterIsSubsequence(customers, keep);
    forall c | c in customers && c.id != id
      ensures c in Filter(customers, keep)
    {
      FilterMembership(customers, keep, c);
    }
    DeleteCount(customers, keep, id);
    Filter(customers, keep)
  }

  lemma {:induction false} DeleteCount(customers: seq<Customer>, keep: Customer -> bool, id: int)
    requires forall c :: keep(c) <==> c.id != id
    ensures |Filter(customers, keep)| == |customers| - CountWhere(customers, CustomerIdOf, id)
    decreases |customers|
  {
    if |customers| > 0 {
      DeleteCount(customers[..|customers| - 1], keep, id);
    }
  }

  /** Adding under a fresh identifier and deleting that identifier restores the list. */
  lemma DeleteUndoesAdd(customers: seq<Customer>, draft: Customer, id: int, now: Moment)
    requires forall i :: 0 <= i < |customers| ==> customers[i].id != id
    ensures DeleteCustomer(AddCustomer(customers, draft, id, now).0, id) == customers
  {
    var keep := (c: Customer) => c.id != id;
    var added := AddCustomer(customers, draft, id, now);
    FilterConcat(customers, [added.1], keep);
    FilterKeepsAll(customers, keep);
    assert Filter([added.1], keep) == [];
  }

  // ----- payments -----

  /** `addPayment`: appends the payment under identifier `id`, stamped `now`, named after
      the first customer with its customer id ('Unknown' when there is none or the name is
      empty), and sets that customer's last payment date to the payment's date. */
  function AddPayment(db: Db, data: Payment, id: int, now: Moment): (r: (Db, Payment))
    ensures r.0.payments == db.payments + [r.1] && r.0.reminders == db.reminders
    ensures r.1.id == id && r.1.createdAt == Some(now)
    ensures r.1.customerId == data.customerId && r.1.amount == data.amount && r.1.date == data.date
    ensures r.1.payMethod == data.payMethod && r.1.status == data.status && r.1.referenceId == data.referenceId
    ensures var found := FindCustomer(db.customers, data.customerId);
      r.1.customerName == if found.Some? && found.value.name != "" then found.value.name else "Unknown"
    ensures FindCustomer(db.customers, data.customerId).None? ==> r.0.customers == db.customers
    ensures |r.0.customers| == |db.customers|
    ensures forall i :: 0 <= i < |db.customers| && db.customers[i].id != data.customerId ==>
      r.0.customers[i] == db.customers[i]
    ensures forall i :: 0 <= i < |db.customers| && db.customers[i].id == data.customerId ==>
      r.0.customers[i].lastPaymentDate == Some(data.date) && r.0.customers[i].updatedAt == Some(now)
  {
    var customer := FindCustomer(db.customers, data.customerId);
    var name := if customer.Some? && customer.value.name != "" then customer.value.name else "Unknown";
    var newPayment := data.(id := id, customerName := name, createdAt := Some(now));
    var customers :=
      if customer.Some?
      then UpdateCustomer(db.customers, customer.value.id, NoChange.(lastPaymentDate := Some(data.date)), now)
      else db.customers;
    (Db(customers, db.payments + [newPayment], db.reminders), newPayment)
  }

  /** The fields a payment update may carry; absent fields keep their value. */
  datatype PaymentPatch = PaymentPatch(
    amount: Option<int>,
    date: Option<Date>,
    payMethod: Option<string>,
    status: Option<string>,
    referenceId: Option<string>)

  function MergePayment(p: Payment, patch: PaymentPatch): (m: Payment)
    ensures m.id == p.id && m.customerId == p.customerId && m.customerName == p.customerName
    ensures m.createdAt == p.createdAt
    ensures m.amount == patch.amount.GetOr(p.amount) && m.date == patch.date.GetOr(p.date)
    ensures m.payMethod == patch.payMethod.GetOr(p.payMethod) && m.status == patch.status.GetOr(p.status)
    ensures m.referenceId == patch.referenceId.GetOr(p.referenceId)
  {
    p.(amount := patch.amount.GetOr(p.amount),
       date := patch.date.GetOr(p.date),
       payMethod := patch.payMethod.GetOr(p.payMethod),
       status := patch.status.GetOr(p.status),
       referenceId := patch.referenceId.GetOr(p.referenceId))
  }

  /** `updatePayment`: merges the patch into the records with identifier `id` only. */
  function UpdatePayment(payments: seq<Payment>, id: int, patch: PaymentPatch): (r: seq<Payment>)
    ensures |r| == |payments|
    ensures forall i :: 0 <= i < |r| && payments[i].id != id ==> r[i] == payments[i]
    ensures forall i :: 0 <= i < |r| && payments[i].id == id ==> r[i] == MergePayment(payments[i], patch)
  {
    seq(|payments|, i requires 0 <= i < |payments| =>
      if payments[i].id == id then MergePayment(payments[i], patch) else payments[i])
  }

  /** `deletePayment`: drops the records with identifier `id`, keeping the rest in order. */
  function DeletePayment(payments: seq<Payment>, id: int): (r: seq<Payment>)
    ensures IsSubsequence(r, payments)
    ensures forall i :: 0 <= i < |r| ==> r[i].id != id
    ensures forall p :: p in payments && p.id != id ==> p in r
  {
    var keep := (p: Payment) => p.id != id;
    FilterIsSubsequence(payments, keep);
    forall p | p in payments && p.id != id
      ensures p in Filter(payments, keep)
    {
      FilterMembership(payments, keep, p);
    }
    Filter(payments, keep)
  }

  /** The status patch `{ status }` the bulk updater sends for each identifier, applied in
      turn. */
  function SetPaymentStatuses(payments: seq<Payment>, ids: seq<int>, status: string): (r: seq<Payment>)
    ensures |r| == |payments|
    ensures forall i :: 0 <= i < |r| && payments[i].id in ids ==> r[i] == payments[i].(status := status)
    ensures forall i :: 0 <= i < |r| && payments[i].id !in ids ==> r[i] == payments[i]
    decreases |ids|
  {
    if |ids| == 0 then payments
    else
      var before := SetPaymentStatuses(payments, ids[..|ids| - 1], status);
      assert forall x :: x in ids <==> x in ids[..|ids| - 1] || x == ids[|ids| - 1] by {
        assert ids == ids[..|ids| - 1] + [ids[|ids| - 1]];
      }
      UpdatePayment(before, ids[|ids| - 1], PaymentPatch(None, None, None, Some(status), None))
  }

  /** The status patch `{ status }` sent for each customer identifier, applied in turn. */
  function SetCustomerStatuses(customers: seq<Customer>, ids: seq<int>, status: string, now: Moment): (r: seq<Customer>)
    ensures |r| == |customers|
    ensures forall i :: 0 <= i < |r| && customers[i].id in ids ==>
      r[i].status == status && r[i].updatedAt == Some(now) && r[i] == customers[i].(status := status, updatedAt := Some(now))
    ensures forall i :: 0 <= i < |r| && customers[i].id !in ids ==> r[i] == customers[i]
    decreases |ids|
  {
    if |ids| == 0 then customers
    else
      var before := SetCustomerStatuses(customers, ids[..|ids| - 1], status, now);
      assert forall x :: x in ids <==> x in ids[..|ids| - 1] || x == ids[|ids| - 1] by {
        assert ids == ids[..|ids| - 1] + [ids[|ids| - 1]];
      }
      UpdateCustomer(before, ids[|ids| - 1], NoChange.(status := Some(status)), now)
  }

  // ----- reminders -----

  /** `addReminder`: appends the reminder under identifier `id`, stamped `now`, with status
      'sent' whatever the input carried. */
  function AddReminder(reminders: seq<Reminder>, draft: Reminder, id: int, now: Moment): (r: (seq<Reminder>, Reminder))
    ensures r.0 == reminders + [r.1]
    ensures r.1.id == id && r.1.status == "sent" && r.1.sentAt == Some(now)
    ensures r.1.customerId == draft.customerId && r.1.customerName == draft.customerName
    ensures r.1.channel == draft.channel && r.1.message == draft.message && r.1.reminderType == draft.reminderType
  {
    var added := draft.(id := id, sentAt := Some(now), status := "sent");
    (reminders + [added], added)
  }

  /** `clearAllData`. */
  function ClearAllData(db: Db): (r: Db)
    ensures |r.customers| == 0 && |r.payments| == 0 && |r.reminders| == 0
  {
    Db([], [], [])
  }
}
