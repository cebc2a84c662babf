/** The rules of the customer list page (`src/pages/Customers.jsx`): the search and status
    filter, the form validation and what a valid submission does to the store, and the
    defaults of the CSV import. */
module CustomersPage {
  import opened Wrappers
  import opened Seqs
  import opened Calendar
  import opened Text
  import opened Records
  import opened Helpers
  import Store
  import Grouping

  /** The search box matches the name ignoring letter case, or the phone verbatim. */
  predicate MatchesSearch(c: Customer, term: string) {
    Contains(ToLower(c.name), ToLower(term)) || Contains(c.phone, term)
  }

  /** The status drop-down: 'all', or the payment-cycle label compared ignoring case. */
  predicate MatchesStatus(c: Customer, statusFilter: string, today: Date) {
    statusFilter == "all" || ToLower(CalculateStatus(c, today).Label()) == ToLower(statusFilter)
  }

  predicate Shown(c: Customer, term: string, statusFilter: string, today: Date) {
    MatchesSearch(c, term) && MatchesStatus(c, statusFilter, today)
  }

  function ShownBy(term: string, statusFilter: string, today: Date): Customer -> bool {
    c => Shown(c, term, statusFilter, today)
  }

  /** `filteredCustomers`: the customers matching both the search and the status filter,
      in store order. */
  function FilteredCustomers(customers: seq<Customer>, term: string, statusFilter: string, today: Date): (r: seq<Customer>)
    ensures IsSubsequence(r, customers)
    ensures forall i :: 0 <= i < |r| ==> Shown(r[i], term, statusFilter, today)
    ensures forall c :: c in customers && Shown(c, term, statusFilter, today) ==> c in r
  {
    var r := Filter(customers, ShownBy(term, statusFilter, today));
    FilterIsSubsequence(customers, ShownBy(term, statusFilter, today));
    forall c | c in customers && Shown(c, term, statusFilter, today)
      ensures c in r
    {
      FilterMembership(customers, ShownBy(term, statusFilter, today), c);
    }
    r
  }

  /** An empty search with the status filter on 'all' lists every customer. */
  lemma EmptySearchShowsAll(customers: seq<Customer>, today: Date)
    ensures FilteredCustomers(customers, "", "all", today) == customers
  {
    forall c ensures Shown(c, "", "all", today) {
      ContainsEmpty(ToLower(c.name));
    }
    FilterKeepsAll(customers, ShownBy("", "all", today));
  }

  /** The status filter ignores letter case: 'PAID' lists what 'paid' lists. */
  lemma StatusFilterIgnoresCase(customers: seq<Customer>, term: string, a: string, b: string, today: Date)
    requires a != "all" && b != "all"
    requires ToLower(a) == ToLower(b)
    ensures FilteredCustomers(customers, term, a, today) == FilteredCustomers(customers, term, b, today)
  {
    FilterSamePredicate(customers, ShownBy(term, a, today), ShownBy(term, b, today));
  }

  /** The drop-down offers no 'suspended' entry, so a suspended account is listed only
      under 'all'. */
  lemma SuspendedOnlyUnderAll(customers: seq<Customer>, term: string, statusFilter: string, today: Date, c: Customer)
    requires statusFilter in ["paid", "pending", "overdue"]
    requires c.status == AccountSuspended
    ensures c !in FilteredCustomers(customers, term, statusFilter, today)
  {
    SuspendedNotShown(c, term, statusFilter, today);
  }

  lemma SuspendedNotShown(c: Customer, term: string, statusFilter: string, today: Date)
    requires statusFilter in ["paid", "pending", "overdue"]
    requires c.status == AccountSuspended
    ensures !Shown(c, term, statusFilter, today)
  {
    LowerLabels();
    assert ToLower("paid") == "paid" by { assert ToLower("paid")[0] == 'p'; }
    assert ToLower("pending") == "pending" by { assert ToLower("pending")[0] == 'p'; }
    assert ToLower("overdue") == "overdue" by { assert ToLower("overdue")[0] == 'o'; }
  }

  /** Every customer has exactly one payment-cycle status: the four counts add up to the
      number of customers. */
  lemma {:induction false} StatusCountsPartition(customers: seq<Customer>, today: Date)
    ensures CountWhere(customers, StatusKey(today), Paid) + CountWhere(customers, StatusKey(today), Pending)
      + CountWhere(customers, StatusKey(today), Overdue) + CountWhere(customers, StatusKey(today), Suspended)
      == |customers|
    decreases |customers|
  {
    if |customers| > 0 {
      StatusCountsPartition(customers[..|customers| - 1], today);
    }
  }

  /** With an empty search, the 'paid', 'pending' and 'overdue' lists hold exactly the
      customers of that status. */
  lemma StatusListIsStatusCount(customers: seq<Customer>, today: Date, s: CycleStatus)
    requires s != Suspended
    ensures |FilteredCustomers(customers, "", ToLower(s.Label()), today)| == CountWhere(customers, StatusKey(today), s)
  {
    LowerLabels();
    var f := ToLower(s.Label());
    forall c ensures Shown(c, "", f, today) <==> StatusKey(today)(c) == s {
      ContainsEmpty(ToLower(c.name));
      LabelsDistinctLower(CalculateStatus(c, today), s);
    }
    FilterCountWhere(customers, ShownBy("", f, today), StatusKey(today), s);
  }

  lemma LabelsDistinctLower(a: CycleStatus, b: CycleStatus)
    ensures ToLower(a.Label()) == ToLower(b.Label()) <==> a == b
  {
    LowerLabels();
  }

  /** The fields of the customer form; `monthlyFee` is absent while its input is empty. */
  datatype CustomerForm = CustomerForm(
    name: string,
    phone: string,
    plan: string,
    monthlyFee: Option<int>,
    dueDay: int,
    startDate: Date)

  /** The form fields that can carry an error message. */
  datatype FormField = NameField | PhoneField | FeeField

  /** The validation of `handleSubmit`: a name shorter than three characters, a phone that
      fails `validatePhone`, a fee that is absent or below 100. */
  function FormErrors(form: CustomerForm): (errs: set<FormField>)
    ensures NameField in errs <==> |form.name| < 3
    ensures PhoneField in errs <==> !ValidatePhone(form.phone)
    ensures FeeField in errs <==> form.monthlyFee.None? || form.monthlyFee.value < 100
  {
    (if |form.name| < 3 then {NameField} else {})
    + (if !ValidatePhone(form.phone) then {PhoneField} else {})
    + (if form.monthlyFee.None? || form.monthlyFee.value < 100 then {FeeField} else {})
  }

  /** What a submission does: nothing but show the errors, or the new customer list. */
  datatype SubmitResult = Rejected(errors: set<FormField>) | Saved(customers: seq<Customer>)

  /** The update sent when editing: every form field. */
  function FormPatch(form: CustomerForm): Store.CustomerPatch
    requires form.monthlyFee.Some?
  {
    Store.CustomerPatch(Some(form.name), Some(form.phone), Some(form.plan), form.monthlyFee,
      None, Some(form.dueDay), Some(form.startDate), None)
  }

  /** `handleSubmit`: with any error nothing is saved; otherwise the customer being edited
      is updated, or a new one is added with identifier `newId`. */
  function SubmitCustomer(customers: seq<Customer>, form: CustomerForm, editing: Option<int>, newId: int, now: Moment): (r: SubmitResult)
    ensures r.Rejected? <==> FormErrors(form) != {}
    ensures r.Rejected? ==> r.errors == FormErrors(form)
    ensures r.Saved? && editing.None? ==> |r.customers| == |customers| + 1
    ensures r.Saved? && editing.None? ==> r.customers[..|customers|] == customers
    ensures r.Saved? && editing.Some? ==> |r.customers| == |customers|
    ensures r.Saved? && editing.Some? ==>
      forall i :: 0 <= i < |customers| && customers[i].id != editing.value ==> r.customers[i] == customers[i]
    ensures r.Saved? && editing.Some? ==>
      forall i :: 0 <= i < |customers| && customers[i].id == editing.value ==> EditedFrom(r.customers[i], customers[i], form, now)
  {
    var errs := FormErrors(form);
    if errs != {} then Rejected(errs)
    else
      match editing
      case Some(id) => Saved(Store.UpdateCustomer(customers, id, FormPatch(form), now))
      case None =>
        var draft := CustomerDraft(form.name, form.phone, form.plan, form.monthlyFee.value, form.dueDay, form.startDate);
        Saved(Store.AddCustomer(customers, draft, newId, now).0)
  }

  /** `edited` is `c` after an edit through `form` at `now`: every form field replaced, the
      identifier, account status, payment date and creation stamp kept. */
  predicate EditedFrom(edited: Customer, c: Customer, form: CustomerForm, now: Moment) {
    && edited.id == c.id && edited.status == c.status
    && edited.lastPaymentDate == c.lastPaymentDate && edited.createdAt == c.createdAt
    && edited.name == form.name && edited.phone == form.phone && edited.plan == form.plan
    && Some(edited.monthlyFee) == form.monthlyFee && edited.dueDay == form.dueDay
    && edited.startDate == form.startDate && edited.updatedAt == Some(now)
  }

  /** A saved new customer carries the form's fields, starts 'active', and passes the
      validation the form applied. */
  lemma SavedCustomerIsValid(customers: seq<Customer>, form: CustomerForm, newId: int, now: Moment)
    requires SubmitCustomer(customers, form, None, newId, now).Saved?
    ensures var added := SubmitCustomer(customers, form, None, newId, now).customers[|customers|];
      && added.id == newId && added.status == AccountActive
      && added.name == form.name && |added.name| >= 3
      && ValidatePhone(added.phone)
      && added.monthlyFee >= 100 && Some(added.monthlyFee) == form.monthlyFee
  {
  }

  /** A rejected submission leaves the list as it was: the page keeps the store untouched. */
  lemma ShortNameRejected(customers: seq<Customer>, form: CustomerForm, editing: Option<int>, newId: int, now: Moment)
    requires |form.name| < 3
    ensures SubmitCustomer(customers, form, editing, newId, now) == Rejected(FormErrors(form))
    ensures NameField in SubmitCustomer(customers, form, editing, newId, now).errors
  {
  }

  /** One CSV row as the parser delivers it; an absent or empty cell is "". */
  datatype CsvRow = CsvRow(
    name: string,
    phone: string,
    plan: string,
    monthlyFee: string,
    fee: string,
    dueDate: string,
    startDate: Option<Date>)

  /** `a || b` on strings. */
  function OrElse(a: string, b: string): (r: string)
    ensures a != "" ==> r == a
    ensures a == "" ==> r == b
  {
    if a != "" then a else b
  }

  /** A non-empty number cell as the customer record keeps it: the integer its text starts
      with, 0 when there is none. */
  function CellNumber(text: string): int {
    ParseIntPrefix(text).GetOr(0)
  }

  /** The customer a CSV row adds: the plan falls back to 'Standard', the fee to the 'fee'
      column and then to 3000, the due day to 5, the start date to today. */
  function CsvDraft(row: CsvRow, today: Date): (c: Customer)
    ensures c.name == row.name && c.phone == row.phone
    ensures row.plan == "" ==> c.plan == PlanStandard
    ensures row.plan != "" ==> c.plan == row.plan
    ensures row.monthlyFee == "" && row.fee == "" ==> c.monthlyFee == 3000
    ensures row.monthlyFee == "" && row.fee != "" ==> c.monthlyFee == CellNumber(row.fee)
    ensures row.monthlyFee != "" ==> c.monthlyFee == CellNumber(row.monthlyFee)
    ensures row.dueDate == "" ==> c.dueDay == 5
    ensures row.dueDate != "" ==> c.dueDay == CellNumber(row.dueDate)
    ensures row.startDate.None? ==> c.startDate == today
    ensures row.startDate.Some? ==> c.startDate == row.startDate.value
  {
    var fee := if row.monthlyFee != "" then CellNumber(row.monthlyFee)
      else if row.fee != "" then CellNumber(row.fee) else 3000;
    var due := if row.dueDate != "" then CellNumber(row.dueDate) else 5;
    CustomerDraft(row.name, row.phone, OrElse(row.plan, PlanStandard), fee, due, row.startDate.GetOr(today))
  }

  /** A row is imported only when it has both a name and a phone. */
  predicate Importable(row: CsvRow) {
    row.name != "" && row.phone != ""
  }

  /** `handleCSVImport`: the drafts of the importable rows, in file order. Unlike the form,
      an import is not validated: any non-empty name and phone go through. */
  function CsvImportDrafts(rows: seq<CsvRow>, today: Date): (r: seq<Customer>)
    ensures |r| <= |rows|
    ensures forall i :: 0 <= i < |r| ==> r[i].name != "" && r[i].phone != ""
    ensures r == Grouping.MapSeq(Filter(rows, ImportableRow), DraftOn(today))
    decreases |rows|
  {
    if |rows| == 0 then []
    else
      var rest := CsvImportDrafts(rows[..|rows| - 1], today);
      var row := rows[|rows| - 1];
      if Importable(row) then
        Grouping.MapSeqSnoc(Filter(rows[..|rows| - 1], ImportableRow), row, DraftOn(today));
        rest + [CsvDraft(row, today)]
      else rest
  }

  function DraftOn(today: Date): CsvRow -> Customer {
    row => CsvDraft(row, today)
  }

  function ImportableRow(row: CsvRow): bool { Importable(row) }

  /** Exactly the importable rows are added. */
  lemma {:induction false} CsvImportCount(rows: seq<CsvRow>, today: Date)
    ensures |CsvImportDrafts(rows, today)| == Count(rows, ImportableRow)
    decreases |rows|
  {
    if |rows| > 0 {
      CsvImportCount(rows[..|rows| - 1], today);
    }
  }

  /** Importing two files one after the other adds what importing their concatenation adds. */
  lemma {:induction false} CsvImportConcat(a: seq<CsvRow>, b: seq<CsvRow>, today: Date)
    ensures CsvImportDrafts(a + b, today) == CsvImportDrafts(a, today) + CsvImportDrafts(b, today)
    decreases |b|
  {
    if |b| == 0 {
      assert a + b == a;
    } else {
      var b' := b[..|b| - 1];
      assert (a + b)[..|a + b| - 1] == a + b';
      assert (a + b)[|a + b| - 1] == b[|b| - 1];
      CsvImportConcat(a, b', today);
    }
  }
}
