/** The records the store keeps: customers, payments and reminders. */
module Records {
  import opened Wrappers
  import opened Calendar

  /** Account statuses (stored, as opposed to the derived payment-cycle status). */
  const AccountActive: string := "active"
  const AccountInactive: string := "inactive"
  const AccountSuspended: string := "suspended"

  /** Payment statuses. */
  const PaymentCompleted: string := "completed"
  const PaymentPending: string := "pending"
  const PaymentFailed: string := "failed"

  /** The plans the dashboards and analytics know by name. */
  const PlanPremium: string := "Premium"
  const PlanStandard: string := "Standard"
  const PlanBasic: string := "Basic"

  /** A subscriber. `dueDay` is the day of the month the fee falls due (1 to 28 from the form,
      any integer from a bulk import). `createdAt` is absent only before the store adds it. */
  datatype Customer = Customer(
    id: int,
    name: string,
    phone: string,
    plan: string,
    monthlyFee: int,
    status: string,
    dueDay: int,
    startDate: Date,
    lastPaymentDate: Option<Date>,
    createdAt: Option<Moment>,
    updatedAt: Option<Moment>)

  /** A recorded payment; `customerId` is a loose reference that may match no customer, and
      `payMethod` is the source's `method` field ('UPI', 'Cash', ...). */
  datatype Payment = Payment(
    id: int,
    customerId: int,
    customerName: string,
    amount: int,
    date: Date,
    payMethod: string,
    status: string,
    referenceId: string,
    createdAt: Option<Moment>)

  /** A reminder; `channel` is the source's `type` field ('sms', 'email', ...). */
  datatype Reminder = Reminder(
    id: int,
    customerId: int,
    customerName: string,
    channel: string,
    message: string,
    reminderType: string,
    status: string,
    sentAt: Option<Moment>)

  /** The fields a customer form or an import row supplies, before the store assigns
      identity, account status and creation time. */
  function CustomerDraft(name: string, phone: string, plan: string, monthlyFee: int, dueDay: int, startDate: Date): Customer {
    Customer(0, name, phone, plan, monthlyFee, "", dueDay, startDate, None, None, None)
  }

  /** The fields a sender supplies for a reminder, before the store stamps it. */
  function ReminderDraft(customerId: int, customerName: string, channel: string, message: string, reminderType: string): Reminder {
    Reminder(0, customerId, customerName, channel, message, reminderType, "", None)
  }

  /** Field accessors, used as keys and amounts by the aggregations. */
  function AmountOf(p: Payment): int { p.amount }
  function FeeOf(c: Customer): int { c.monthlyFee }
  function PaymentStatusOf(p: Payment): string { p.status }
  function MethodOf(p: Payment): string { p.payMethod }
  function CustomerStatusOf(c: Customer): string { c.status }
  function PlanOf(c: Customer): string { c.plan }
  function PaymentMonth(p: Payment): int { MonthIndex(p.date) }
  function PaymentDay(p: Payment): Date { p.date }
  function PlanAndStatus(c: Customer): (string, string) { (c.plan, c.status) }
  function OnePayment(p: Payment): int { 1 }

  /** `i` is the position of the first customer with identifier `id`. */
  predicate FirstWithId(customers: seq<Customer>, id: int, i: int) {
    0 <= i < |customers| && customers[i].id == id && forall j :: 0 <= j < i ==> customers[j].id != id
  }

  /** The first customer with identifier `id` (`customers.find(c => c.id === id)`). */
  function FindCustomer(customers: seq<Customer>, id: int): (r: Option<Customer>)
    ensures r.None? <==> forall i :: 0 <= i < |customers| ==> customers[i].id != id
    ensures r.Some? ==> exists i :: FirstWithId(customers, id, i) && customers[i] == r.value
    decreases |customers|
  {
    if |customers| == 0 then None
    else if customers[0].id == id then
      assert FirstWithId(customers, id, 0);
      Some(customers[0])
    else
      var r := FindCustomer(customers[1..], id);
      assert r.Some? ==> exists i :: FirstWithId(customers, id, i) && customers[i] == r.value by {
        if r.Some? {
          var i :| FirstWithId(customers[1..], id, i) && customers[1..][i] == r.value;
          assert FirstWithId(customers, id, i + 1);
        }
      }
      r
  }
}
