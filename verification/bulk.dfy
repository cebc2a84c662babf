/** The bulk runners: folds that hand each item to a fallible operation, count successes and
    failures, and never stop early; the row loop of the customer import; the export filter.
    The per-item operations (`addCustomer`, `addReminder`, `updatePayment`, `updateCustomer`)
    are parameters returning `Ok` or `Err(message)` for a thrown error. */
module Bulk {
  import opened Wrappers
  import opened Seqs
  import opened Calendar
  import opened Records
  import opened Text
  import Grouping

  // ----- bulkImportCustomers: the row loop -----

  /** Piece `i` of a split row, absent past the end (destructuring gives `undefined`). */
  function FieldAt(pieces: seq<string>, i: nat): Option<string> {
    if i < |pieces| then Some(pieces[i]) else None
  }

  /** JavaScript truthiness of an optional string. */
  predicate Present(f: Option<string>) {
    f.Some? && f.value != ""
  }

  /** `parseFloat(f) || fallback` (and `parseInt`): the leading integer, unless it is
      missing or 0. An absent cell, one without a leading number and one reading 0 all give
      the fallback; a non-zero leading number is kept. */
  function NumberOr(f: Option<string>, fallback: int): (n: int)
    ensures fallback != 0 ==> n != 0
    ensures f.None? ==> n == fallback
    ensures f.Some? && ParseIntPrefix(f.value).None? ==> n == fallback
    ensures f.Some? && ParseIntPrefix(f.value) == Some(0) ==> n == fallback
    ensures f.Some? && ParseIntPrefix(f.value).Some? && ParseIntPrefix(f.value).value != 0
      ==> n == ParseIntPrefix(f.value).value
  {
    match f
    case None => fallback
    case Some(s) =>
      match ParseIntPrefix(s)
      case Some(v) => if v != 0 then v else fallback
      case None => fallback
  }

  /** A cell holding a non-zero number in decimal, followed by anything that does not
      continue the number, is read as that number whatever the fallback. */
  lemma NumberOrReadsDecimal(v: int, rest: string, fallback: int)
    requires v != 0 && (|rest| == 0 || !IsDigit(rest[0]))
    ensures NumberOr(Some(IntToDecimal(v) + rest), fallback) == v
  {
    ParseDecimalThen(v, rest);
  }

  /** A row lacks one of name, phone and plan (absent or empty before trimming). */
  predicate MissingFields(line: string) {
    var pieces := Split(line, ',');
    !Present(FieldAt(pieces, 0)) || !Present(FieldAt(pieces, 1)) || !Present(FieldAt(pieces, 2))
  }

  /** The customer a complete row asks `addCustomer` to create. */
  function RowDraft(line: string, today: Date): (d: Customer)
    requires !MissingFields(line)
    ensures var pieces := Split(line, ',');
      && d.name == Trim(pieces[0]) && d.phone == Trim(pieces[1])
      && (Trim(pieces[2]) != "" ==> d.plan == Trim(pieces[2]))
      && (Trim(pieces[2]) == "" ==> d.plan == PlanStandard)
    ensures d.monthlyFee != 0 && d.dueDay != 0 && d.startDate == today
    ensures d.lastPaymentDate.None? && d.createdAt.None?
  {
    var pieces := Split(line, ',');
    var plan := Trim(pieces[2]);
    CustomerDraft(
      Trim(pieces[0]),
      Trim(pieces[1]),
      if plan != "" then plan else PlanStandard,
      NumberOr(FieldAt(pieces, 3), 3000),
      NumberOr(FieldAt(pieces, 4), 5),
      today)
  }

  /** The fee is the fourth cell read as a number, falling back to 3000, and the due day the
      fifth, falling back to 5. */
  lemma RowDraftReadsCells(line: string, today: Date)
    requires !MissingFields(line)
    ensures RowDraft(line, today).monthlyFee == NumberOr(FieldAt(Split(line, ','), 3), 3000)
    ensures RowDraft(line, today).dueDay == NumberOr(FieldAt(Split(line, ','), 4), 5)
  {
  }

  /** `Row "<name>": <reason>`, with the name as it appears in the row. */
  function RowError(line: string, reason: string): string {
    "Row \"" + Split(line, ',')[0] + "\": " + reason
  }

  datatype ImportReport = ImportReport(successful: nat, failed: nat, errors: seq<string>, calls: seq<Customer>) {
    /** `total: successful + failed`. */
    function Total(): nat { successful + failed }
  }

  const NoRows := ImportReport(0, 0, [], [])

  /** What happened to one line. */
  datatype RowKind = Skipped | Rejected | Added | Refused

  function RowKindOf(line: string, today: Date, add: Customer -> Outcome): RowKind {
    if IsBlank(line) then Skipped
    else if MissingFields(line) then Rejected
    else if add(RowDraft(line, today)).Ok? then Added
    else Refused
  }

  function RowKindKey(today: Date, add: Customer -> Outcome): string -> RowKind {
    line => RowKindOf(line, today, add)
  }

  /** One pass of the loop body. */
  function ImportStep(acc: ImportReport, line: string, today: Date, add: Customer -> Outcome): (r: ImportReport)
    ensures IsBlank(line) ==> r == acc
    ensures !IsBlank(line) && MissingFields(line) ==>
      r == acc.(failed := acc.failed + 1, errors := acc.errors + [RowError(line, "Missing required fields")])
    ensures !IsBlank(line) && !MissingFields(line) ==> r.calls == acc.calls + [RowDraft(line, today)]
    ensures var kind := RowKindOf(line, today, add);
      && r.successful == acc.successful + (if kind == Added then 1 else 0)
      && r.failed == acc.failed + (if kind == Rejected || kind == Refused then 1 else 0)
      && |r.errors| == |acc.errors| + (if kind == Rejected || kind == Refused then 1 else 0)
      && |r.calls| == |acc.calls| + (if kind == Added || kind == Refused then 1 else 0)
  {
    TrimEmptyIffBlank(line);
    if Trim(line) == "" then acc
    else if MissingFields(line) then
      acc.(failed := acc.failed + 1, errors := acc.errors + [RowError(line, "Missing required fields")])
    else
      var draft := RowDraft(line, today);
      var calls := acc.calls + [draft];
      match add(draft)
      case Ok => acc.(successful := acc.successful + 1, calls := calls)
      case Err(message) =>
        acc.(failed := acc.failed + 1, errors := acc.errors + [RowError(line, message)], calls := calls)
  }

  /** The loop over `lines`, continuing from `acc`. */
  function ImportFrom(acc: ImportReport, lines: seq<string>, today: Date, add: Customer -> Outcome): ImportReport
    decreases |lines|
  {
    if |lines| == 0 then acc
    else ImportStep(ImportFrom(acc, lines[..|lines| - 1], today, add), lines[|lines| - 1], today, add)
  }

  /** The loop counts each line by what happened to it. */
  lemma ImportCounts(acc: ImportReport, lines: seq<string>, today: Date, add: Customer -> Outcome)
    ensures var r := ImportFrom(acc, lines, today, add);
      && r.successful == acc.successful + CountWhere(lines, RowKindKey(today, add), Added)
      && r.failed == acc.failed + CountWhere(lines, RowKindKey(today, add), Rejected)
        + CountWhere(lines, RowKindKey(today, add), Refused)
      && |r.errors| - |acc.errors| == r.failed - acc.failed
      && |r.calls| == |acc.calls| + CountWhere(lines, RowKindKey(today, add), Added)
        + CountWhere(lines, RowKindKey(today, add), Refused)
  {
    ImportSuccesses(acc, lines, today, add);
    ImportFailures(acc, lines, today, add);
    ImportCalls(acc, lines, today, add);
  }

  /** The last line's step, with the counts of its kind. */
  lemma LastStep(acc: ImportReport, lines: seq<string>, today: Date, add: Customer -> Outcome, k: RowKind)
    requires |lines| > 0
    ensures var prefix, last := lines[..|lines| - 1], lines[|lines| - 1];
      && ImportFrom(acc, lines, today, add) == ImportStep(ImportFrom(acc, prefix, today, add), last, today, add)
      && RowKindKey(today, add)(last) == RowKindOf(last, today, add)
      && CountWhere(lines, RowKindKey(today, add), k)
        == CountWhere(prefix, RowKindKey(today, add), k) + (if RowKindOf(last, today, add) == k then 1 else 0)
  {
  }

  lemma {:induction false} ImportSuccesses(acc: ImportReport, lines: seq<string>, today: Date, add: Customer -> Outcome)
    ensures ImportFrom(acc, lines, today, add).successful == acc.successful + CountWhere(lines, RowKindKey(today, add), Added)
    decreases |lines|
  {
    if |lines| > 0 {
      ImportSuccesses(acc, lines[..|lines| - 1], today, add);
      LastStep(acc, lines, today, add, Added);
    }
  }

  lemma {:induction false} ImportFailures(acc: ImportReport, lines: seq<string>, today: Date, add: Customer -> Outcome)
    ensures var r := ImportFrom(acc, lines, today, add);
      && r.failed == acc.failed + CountWhere(lines, RowKindKey(today, add), Rejected)
        + CountWhere(lines, RowKindKey(today, add), Refused)
      && |r.errors| - |acc.errors| == r.failed - acc.failed
    decreases |lines|
  {
    if |lines| > 0 {
      ImportFailures(acc, lines[..|lines| - 1], today, add);
      LastStep(acc, lines, today, add, Rejected);
      LastStep(acc, lines, today, add, Refused);
    }
  }

  lemma {:induction false} ImportCalls(acc: ImportReport, lines: seq<string>, today: Date, add: Customer -> Outcome)
    ensures |ImportFrom(acc, lines, today, add).calls| == |acc.calls| + CountWhere(lines, RowKindKey(today, add), Added)
      + CountWhere(lines, RowKindKey(today, add), Refused)
    decreases |lines|
  {
    if |lines| > 0 {
      ImportCalls(acc, lines[..|lines| - 1], today, add);
      LastStep(acc, lines, today, add, Added);
      LastStep(acc, lines, today, add, Refused);
    }
  }

  /** `bulkImportCustomers`: the text's lines after the first. Every counted row is either
      added or reported with one error; blank lines are not counted. */
  function BulkImportCustomers(text: string, today: Date, add: Customer -> Outcome): (r: ImportReport)
    ensures var lines := Split(text, '\n')[1..];
      && r.successful == CountWhere(lines, RowKindKey(today, add), Added)
      && r.failed == CountWhere(lines, RowKindKey(today, add), Rejected) + CountWhere(lines, RowKindKey(today, add), Refused)
    ensures var lines := Split(text, '\n')[1..];
      r.Total() == |lines| - CountWhere(lines, RowKindKey(today, add), Skipped)
    ensures |r.errors| == r.failed
    ensures |r.calls| >= r.successful
  {
    ImportCounts(NoRows, Split(text, '\n')[1..], today, add);
    KindsPartition(Split(text, '\n')[1..], RowKindKey(today, add));
    ImportFrom(NoRows, Split(text, '\n')[1..], today, add)
  }

  /** Every line is of exactly one kind. */
  lemma {:induction false} KindsPartition(lines: seq<string>, kind: string -> RowKind)
    ensures CountWhere(lines, kind, Skipped) + CountWhere(lines, kind, Rejected)
      + CountWhere(lines, kind, Added) + CountWhere(lines, kind, Refused) == |lines|
    decreases |lines|
  {
    if |lines| > 0 {
      KindsPartition(lines[..|lines| - 1], kind);
      var last := kind(lines[|lines| - 1]);
      assert last == Skipped || last == Rejected || last == Added || last == Refused;
    }
  }

  lemma {:induction false} ImportFromConcat(acc: ImportReport, a: seq<string>, b: seq<string>, today: Date, add: Customer -> Outcome)
    ensures ImportFrom(acc, a + b, today, add) == ImportFrom(ImportFrom(acc, a, today, add), b, today, add)
    decreases |b|
  {
    if |b| == 0 {
      assert a + b == a;
    } else {
      var b' := b[..|b| - 1];
      var x := b[|b| - 1];
      assert (a + b)[..|a + b| - 1] == a + b';
      assert (a + b)[|a + b| - 1] == x;
      ImportFromConcat(acc, a, b', today, add);
      assert ImportFrom(acc, a + b, today, add) == ImportStep(ImportFrom(acc, a + b', today, add), x, today, add);
      assert ImportFrom(ImportFrom(acc, a, today, add), b, today, add)
        == ImportStep(ImportFrom(ImportFrom(acc, a, today, add), b', today, add), x, today, add);
    }
  }

  /** Inserting a blank line anywhere changes nothing. */
  lemma BlankLineIgnored(acc: ImportReport, a: seq<string>, blank: string, b: seq<string>, today: Date, add: Customer -> Outcome)
    requires IsBlank(blank)
    ensures ImportFrom(acc, a + [blank] + b, today, add) == ImportFrom(acc, a + b, today, add)
  {
    ImportFromConcat(acc, a + [blank], b, today, add);
    ImportFromConcat(acc, a, [blank], today, add);
    ImportFromConcat(acc, a, b, today, add);
    assert [blank][..0] == [];
  }

  /** The first line is never read: any two headers give the same result. */
  lemma HeaderIgnored(header: string, header': string, body: string, today: Date, add: Customer -> Outcome)
    requires '\n' !in header && '\n' !in header'
    ensures BulkImportCustomers(header + "\n" + body, today, add) == BulkImportCustomers(header' + "\n" + body, today, add)
  {
    SplitAtFirst(header, body, '\n');
    SplitAtFirst(header', body, '\n');
    assert header + "\n" + body == header + ['\n'] + body;
    assert header' + "\n" + body == header' + ['\n'] + body;
  }

  /** A row lacking a required field is reported and never reaches `addCustomer`. */
  lemma MissingRowNotAdded(acc: ImportReport, line: string, today: Date, add: Customer -> Outcome)
    requires !IsBlank(line) && MissingFields(line)
    ensures var r := ImportFrom(acc, [line], today, add);
      && r.calls == acc.calls && r.successful == acc.successful && r.failed == acc.failed + 1
      && r.errors == acc.errors + [RowError(line, "Missing required fields")]
  {
    assert [line][..0] == [];
  }

  /** A refused row is reported with the message `addCustomer` threw, and the loop goes on. */
  lemma RefusedRowReported(acc: ImportReport, line: string, today: Date, add: Customer -> Outcome)
    requires !IsBlank(line) && !MissingFields(line) && add(RowDraft(line, today)).Err?
    ensures var r := ImportFrom(acc, [line], today, add);
      && r.failed == acc.failed + 1 && r.successful == acc.successful
      && r.errors == acc.errors + [RowError(line, add(RowDraft(line, today)).message)]
  {
    assert [line][..0] == [];
    assert ImportFrom(acc, [line], today, add) == ImportStep(acc, line, today, add);
    TrimEmptyIffBlank(line);
  }

  // ----- the fallible-operation runner -----

  /** Counts of a run and the items that failed, each with its message. */
  datatype RunReport<T> = RunReport(successful: nat, failed: nat, failures: seq<(T, string)>)

  function Succeeds<T>(op: T -> Outcome): T -> bool {
    x => op(x).Ok?
  }

  /** Applies `op` to every item in order, never stopping at a failure. */
  function RunAll<T>(items: seq<T>, op: T -> Outcome): (r: RunReport<T>)
    ensures r.successful + r.failed == |items|
    ensures r.successful == CountWhere(items, Succeeds(op), true)
    ensures |r.failures| == r.failed
    ensures forall i :: 0 <= i < |r.failures| ==> r.failures[i].0 in items && op(r.failures[i].0) == Err(r.failures[i].1)
    ensures r.failed == 0 <==> forall i :: 0 <= i < |items| ==> op(items[i]).Ok?
    decreases |items|
  {
    if |items| == 0 then RunReport(0, 0, [])
    else
      var r := RunAll(items[..|items| - 1], op);
      var x := items[|items| - 1];
      assert forall y :: y in items[..|items| - 1] ==> y in items;
      match op(x)
      case Ok => r.(successful := r.successful + 1)
      case Err(message) => r.(failed := r.failed + 1, failures := r.failures + [(x, message)])
  }

  // ----- bulkSendReminders -----

  /** The reminder sent to one customer: the template verbatim, over SMS, of type 'bulk'. */
  function BulkReminderFor(c: Customer, template: string): (d: Reminder)
    ensures d.customerId == c.id && d.customerName == c.name
    ensures d.message == template && d.channel == "sms" && d.reminderType == "bulk"
  {
    ReminderDraft(c.id, c.name, "sms", template, "bulk")
  }

  datatype FailedCustomer = FailedCustomer(customerId: int, name: string, error: string)

  function ToFailedCustomer(f: (Customer, string)): FailedCustomer {
    FailedCustomer(f.0.id, f.0.name, f.1)
  }

  datatype SendReport = SendReport(successful: nat, failed: nat, total: nat, failedCustomers: seq<FailedCustomer>, calls: seq<Reminder>)

  /** The `addReminder` call made for one customer. */
  function SendTo(addReminder: Reminder -> Outcome, template: string): Customer -> Outcome {
    c => addReminder(BulkReminderFor(c, template))
  }

  /** `bulkSendReminders`: one `addReminder` call per customer, in order; `successful` counts
      the calls that returned, and the failure list names the customers whose call threw, in
      order, with the thrown message (`FailuresOf`; see also `EveryFailureListed`). */
  function BulkSendReminders(customers: seq<Customer>, addReminder: Reminder -> Outcome, template: string): (r: SendReport)
    ensures r.total == |customers| && r.successful + r.failed == r.total
    ensures r.successful == CountWhere(customers, Succeeds(SendTo(addReminder, template)), true)
    ensures r.failed == 0 <==> forall i :: 0 <= i < |customers| ==> addReminder(BulkReminderFor(customers[i], template)).Ok?
    ensures |r.failedCustomers| == r.failed
    ensures r.failedCustomers == FailuresOf(customers, addReminder, template)
    ensures |r.calls| == |customers|
    ensures forall i :: 0 <= i < |customers| ==> r.calls[i] == BulkReminderFor(customers[i], template)
    ensures forall i :: 0 <= i < |r.failedCustomers| ==>
      exists c :: c in customers && r.failedCustomers[i] == FailedCustomer(c.id, c.name, r.failedCustomers[i].error)
        && addReminder(BulkReminderFor(c, template)) == Err(r.failedCustomers[i].error)
  {
    var run := RunAll(customers, SendTo(addReminder, template));
    FailedCustomersNamed(customers, addReminder, template);
    NothingFailedIffAllSent(customers, addReminder, template);
    FailuresMatchRun(customers, addReminder, template);
    SendReport(
      run.successful,
      run.failed,
      |customers|,
      Grouping.MapSeq(run.failures, ToFailedCustomer),
      Grouping.MapSeq(customers, (c: Customer) => BulkReminderFor(c, template)))
  }

  lemma NothingFailedIffAllSent(customers: seq<Customer>, addReminder: Reminder -> Outcome, template: string)
    ensures RunAll(customers, SendTo(addReminder, template)).failed == 0
      <==> forall i :: 0 <= i < |customers| ==> addReminder(BulkReminderFor(customers[i], template)).Ok?
  {
    var send := SendTo(addReminder, template);
    assert forall i :: 0 <= i < |customers| ==> send(customers[i]) == addReminder(BulkReminderFor(customers[i], template));
  }

  /** Every entry of the failure list is a customer whose call threw, with its message. */
  lemma FailedCustomersNamed(customers: seq<Customer>, addReminder: Reminder -> Outcome, template: string)
    ensures var failed := Grouping.MapSeq(RunAll(customers, SendTo(addReminder, template)).failures, ToFailedCustomer);
      forall i :: 0 <= i < |failed| ==>
        exists c :: c in customers && failed[i] == FailedCustomer(c.id, c.name, failed[i].error)
          && addReminder(BulkReminderFor(c, template)) == Err(failed[i].error)
  {
    var run := RunAll(customers, SendTo(addReminder, template));
    var failed := Grouping.MapSeq(run.failures, ToFailedCustomer);
    assert forall i :: 0 <= i < |failed| ==> failed[i] == ToFailedCustomer(run.failures[i]);
  }

  /** The customers whose `addReminder` call throws, in order, each with the thrown message:
      the reference the report's failure list is stated against. */
  function FailuresOf(customers: seq<Customer>, addReminder: Reminder -> Outcome, template: string): seq<FailedCustomer>
    decreases |customers|
  {
    if |customers| == 0 then []
    else
      var c := customers[|customers| - 1];
      FailuresOf(customers[..|customers| - 1], addReminder, template)
        + match addReminder(BulkReminderFor(c, template))
          case Ok => []
          case Err(message) => [FailedCustomer(c.id, c.name, message)]
  }

  /** The run's failure list is the reference list. */
  lemma {:induction false} FailuresMatchRun(customers: seq<Customer>, addReminder: Reminder -> Outcome, template: string)
    ensures Grouping.MapSeq(RunAll(customers, SendTo(addReminder, template)).failures, ToFailedCustomer)
      == FailuresOf(customers, addReminder, template)
    decreases |customers|
  {
    if |customers| > 0 {
      var prefix := customers[..|customers| - 1];
      var c := customers[|customers| - 1];
      FailuresMatchRun(prefix, addReminder, template);
      var before := RunAll(prefix, SendTo(addReminder, template)).failures;
      match addReminder(BulkReminderFor(c, template))
      case Ok =>
      case Err(message) =>
        Grouping.MapSeqSnoc(before, (c, message), ToFailedCustomer);
    }
  }

  /** Every customer whose call threw is named in the failure list, with its message. */
  lemma EveryFailureListed(customers: seq<Customer>, addReminder: Reminder -> Outcome, template: string, i: int)
    requires 0 <= i < |customers| && addReminder(BulkReminderFor(customers[i], template)).Err?
    ensures FailedCustomer(customers[i].id, customers[i].name, addReminder(BulkReminderFor(customers[i], template)).message)
      in BulkSendReminders(customers, addReminder, template).failedCustomers
  {
    FailureOfListed(customers, addReminder, template, i);
  }

  lemma {:induction false} FailureOfListed(customers: seq<Customer>, addReminder: Reminder -> Outcome, template: string, i: int)
    requires 0 <= i < |customers| && addReminder(BulkReminderFor(customers[i], template)).Err?
    ensures FailedCustomer(customers[i].id, customers[i].name, addReminder(BulkReminderFor(customers[i], template)).message)
      in FailuresOf(customers, addReminder, template)
    decreases |customers|
  {
    var prefix := customers[..|customers| - 1];
    if i < |customers| - 1 {
      assert prefix[i] == customers[i];
      FailureOfListed(prefix, addReminder, template, i);
    }
  }

  // ----- bulkUpdatePaymentStatus / bulkUpdateCustomerStatus -----

  datatype UpdateReport = UpdateReport(successful: nat, failed: nat, calls: seq<(int, string)>)

  /** The `update(id, { status })` call made for one identifier. */
  function UpdateTo(update: (int, string) -> Outcome, status: string): int -> Outcome {
    id => update(id, status)
  }

  /** One `update(id, { status })` call per identifier, in order; `successful` counts the
      calls that returned and a throw counts as failed. */
  function BulkUpdateStatus(ids: seq<int>, status: string, update: (int, string) -> Outcome): (r: UpdateReport)
    ensures r.successful + r.failed == |ids|
    ensures r.successful == CountWhere(ids, Succeeds(UpdateTo(update, status)), true)
    ensures |r.calls| == |ids| && forall i :: 0 <= i < |ids| ==> r.calls[i] == (ids[i], status)
    ensures r.failed == 0 <==> forall i :: 0 <= i < |ids| ==> update(ids[i], status).Ok?
    decreases |ids|
  {
    if |ids| == 0 then UpdateReport(0, 0, [])
    else
      var r := BulkUpdateStatus(ids[..|ids| - 1], status, update);
      var calls := r.calls + [(ids[|ids| - 1], status)];
      if update(ids[|ids| - 1], status).Ok? then UpdateReport(r.successful + 1, r.failed, calls)
      else UpdateReport(r.successful, r.failed + 1, calls)
  }

  /** `bulkUpdatePaymentStatus`. */
  function BulkUpdatePaymentStatus(paymentIds: seq<int>, status: string, updatePayment: (int, string) -> Outcome): (r: UpdateReport)
    ensures r.successful + r.failed == |paymentIds|
    ensures r.successful == CountWhere(paymentIds, Succeeds(UpdateTo(updatePayment, status)), true)
    ensures |r.calls| == |paymentIds| && forall i :: 0 <= i < |paymentIds| ==> r.calls[i] == (paymentIds[i], status)
    ensures r.failed == 0 <==> forall i :: 0 <= i < |paymentIds| ==> updatePayment(paymentIds[i], status).Ok?
  {
    BulkUpdateStatus(paymentIds, status, updatePayment)
  }

  /** `bulkUpdateCustomerStatus`. */
  function BulkUpdateCustomerStatus(customerIds: seq<int>, status: string, updateCustomer: (int, string) -> Outcome): (r: UpdateReport)
    ensures r.successful + r.failed == |customerIds|
    ensures r.successful == CountWhere(customerIds, Succeeds(UpdateTo(updateCustomer, status)), true)
    ensures |r.calls| == |customerIds| && forall i :: 0 <= i < |customerIds| ==> r.calls[i] == (customerIds[i], status)
    ensures r.failed == 0 <==> forall i :: 0 <= i < |customerIds| ==> updateCustomer(customerIds[i], status).Ok?
  {
    BulkUpdateStatus(customerIds, status, updateCustomer)
  }

  // ----- exportFilteredData -----

  /** The fields of an exported record the filters read. `createdAt` is a timestamp and
      `date` a calendar day; either may be missing. */
  datatype ExportItem = ExportItem(status: Option<string>, plan: Option<string>, createdAt: Option<Moment>, date: Option<Date>)

  /** The filters; an empty string or an absent date is no filter. */
  datatype ExportFilters = ExportFilters(status: string, plan: string, dateFrom: Option<Date>, dateTo: Option<Date>)

  /** `new Date(item.createdAt || item.date)` in milliseconds; absent when neither is set
      (an invalid date, which every comparison rejects). */
  function Stamp(item: ExportItem): Option<int> {
    match item.createdAt
    case Some(m) => Some(EpochMs(m))
    case None =>
      match item.date
      case Some(d) => Some(EpochMs(Midnight(d)))
      case None => None
  }

  predicate OnOrAfter(item: ExportItem, from: Date) {
    Stamp(item).Some? && Stamp(item).value >= EpochMs(Midnight(from))
  }

  predicate OnOrBefore(item: ExportItem, to: Date) {
    Stamp(item).Some? && Stamp(item).value <= EpochMs(Midnight(to))
  }

  /** An item passes every filter that is set. */
  predicate PassesAll(item: ExportItem, filters: ExportFilters) {
    && (filters.status != "" ==> item.status == Some(filters.status))
    && (filters.plan != "" ==> item.plan == Some(filters.plan))
    && (filters.dateFrom.Some? ==> OnOrAfter(item, filters.dateFrom.value))
    && (filters.dateTo.Some? ==> OnOrBefore(item, filters.dateTo.value))
  }

  function Passes(filters: ExportFilters): ExportItem -> bool {
    item => PassesAll(item, filters)
  }

  /** `exportFilteredData`: the items passing every set filter, in their original order. */
  function ExportFilteredData(data: seq<ExportItem>, filters: ExportFilters): (r: seq<ExportItem>)
    ensures r == Filter(data, Passes(filters))
    ensures IsSubsequence(r, data)
    ensures forall i :: 0 <= i < |r| ==> PassesAll(r[i], filters)
    ensures forall x :: x in data && PassesAll(x, filters) ==> x in r
  {
    var byStatus := (item: ExportItem) => item.status == Some(filters.status);
    var byPlan := (item: ExportItem) => item.plan == Some(filters.plan);
    var byFrom := (item: ExportItem) => filters.dateFrom.Some? && OnOrAfter(item, filters.dateFrom.value);
    var byTo := (item: ExportItem) => filters.dateTo.Some? && OnOrBefore(item, filters.dateTo.value);
    var filtered := data;
    var filtered := FilterIf(filtered, filters.status != "", byStatus);
    var filtered := FilterIf(filtered, filters.plan != "", byPlan);
    var filtered := FilterIf(filtered, filters.dateFrom.Some?, byFrom);
    var filtered := FilterIf(filtered, filters.dateTo.Some?, byTo);
    FourStageChain(data, filters.status != "", byStatus, filters.plan != "", byPlan,
      filters.dateFrom.Some?, byFrom, filters.dateTo.Some?, byTo, Passes(filters));
    FilterIsSubsequence(data, Passes(filters));
    forall x | x in data && PassesAll(x, filters)
      ensures x in Filter(data, Passes(filters))
    {
      FilterMembership(data, Passes(filters), x);
    }
    filtered
  }

  /** Exporting an export with the same filters changes nothing. */
  lemma ExportIdempotent(data: seq<ExportItem>, filters: ExportFilters)
    ensures ExportFilteredData(ExportFilteredData(data, filters), filters) == ExportFilteredData(data, filters)
  {
    FilterIdempotent(data, Passes(filters));
  }

  /** With no filter set, everything is exported. */
  lemma ExportWithoutFilters(data: seq<ExportItem>)
    ensures ExportFilteredData(data, ExportFilters("", "", None, None)) == data
  {
    FilterKeepsAll(data, Passes(ExportFilters("", "", None, None)));
  }
}
