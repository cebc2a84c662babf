/** The rules of the reminders page (`src/pages/Reminders.jsx`): filling a message template
    for a customer, and sending to every overdue customer or to the active customers of a
    plan. */
module RemindersPage {
  import opened Wrappers
  import opened Seqs
  import opened Calendar
  import opened Text
  import opened Records
  import opened Helpers
  import Grouping

  const NamePlaceholder: string := "{NAME}"
  const PlanPlaceholder: string := "{PLAN}"
  const FeePlaceholder: string := "{FEE}"
  const DuePlaceholder: string := "{DUE_DATE}"

  /** The due day as the message shows it: `${dueDate}th`, whatever the day. Read back with
      `parseInt` it gives the due day, and the text ends in "th". */
  function DueText(dueDay: int): (s: string)
    ensures |s| >= 3 && s[|s| - 2..] == "th"
    ensures ParseIntPrefix(s) == Some(dueDay)
  {
    var s := IntToDecimal(dueDay) + "th";
    ParseDecimalThen(dueDay, "th");
    s
  }

  /** `template.replace('{NAME}', …).replace('{PLAN}', …).replace('{FEE}', …)
      .replace('{DUE_DATE}', …)`: four single replacements in that order, each of the first
      occurrence in the text the previous one produced. A template holding none of the four
      placeholders is sent as written; what each placeholder becomes is stated by
      `FillsName`, `FillsPlan`, `FillsFee`, `FillsDueDate` and `FillsAllFour`. */
  function FillTemplate(template: string, c: Customer): (message: string)
    ensures (forall j :: !OccursAt(template, NamePlaceholder, j))
      && (forall j :: !OccursAt(template, PlanPlaceholder, j))
      && (forall j :: !OccursAt(template, FeePlaceholder, j))
      && (forall j :: !OccursAt(template, DuePlaceholder, j))
      ==> message == template
  {
    var afterName := ReplaceFirst(template, NamePlaceholder, c.name);
    var afterPlan := ReplaceFirst(afterName, PlanPlaceholder, c.plan);
    var afterFee := ReplaceFirst(afterPlan, FeePlaceholder, IntToDecimal(c.monthlyFee));
    ReplaceFirst(afterFee, DuePlaceholder, DueText(c.dueDay))
  }

  /** No brace, no placeholder. */
  predicate BraceFree(s: string) {
    forall j :: 0 <= j < |s| ==> s[j] != '{'
  }

  /** A placeholder: an opening brace, then no other brace. */
  predicate IsPlaceholder(pat: string) {
    |pat| >= 2 && pat[0] == '{' && forall j :: 1 <= j < |pat| ==> pat[j] != '{'
  }

  lemma PlaceholdersWellFormed()
    ensures IsPlaceholder(NamePlaceholder) && IsPlaceholder(PlanPlaceholder)
    ensures IsPlaceholder(FeePlaceholder) && IsPlaceholder(DuePlaceholder)
    ensures NamePlaceholder[1] == 'N' && PlanPlaceholder[1] == 'P'
    ensures FeePlaceholder[1] == 'F' && DuePlaceholder[1] == 'D'
  {
  }

  lemma BraceFreeConcat(x: string, y: string)
    requires BraceFree(x) && BraceFree(y)
    ensures BraceFree(x + y)
  {
  }

  /** Numbers are printed without braces. */
  lemma DecimalBraceFree(i: int)
    ensures BraceFree(IntToDecimal(i)) && BraceFree(DueText(i))
  {
    var d := IntToDecimal(i);
    forall j | 0 <= j < |d| ensures d[j] != '{' {
      assert IsDigit(d[j]) || d[j] == '-';
    }
    assert BraceFree("th");
    BraceFreeConcat(d, "th");
    assert DueText(i) == d + "th";
  }

  lemma BraceFreeHasNoPlaceholder(s: string, pat: string)
    requires BraceFree(s) && |pat| > 0 && pat[0] == '{'
    ensures forall j :: !OccursAt(s, pat, j)
  {
    forall j ensures !OccursAt(s, pat, j) {
      if 0 <= j && j + |pat| <= |s| {
        assert s[j..j + |pat|][0] == s[j];
      }
    }
  }

  /** A template without braces is sent exactly as written. */
  lemma PlainTemplateVerbatim(template: string, c: Customer)
    requires BraceFree(template)
    ensures FillTemplate(template, c) == template
  {
    BraceFreeHasNoPlaceholder(template, NamePlaceholder);
    BraceFreeHasNoPlaceholder(template, PlanPlaceholder);
    BraceFreeHasNoPlaceholder(template, FeePlaceholder);
    BraceFreeHasNoPlaceholder(template, DuePlaceholder);
  }

  /** Only the first occurrence is replaced: after a brace-free prefix, the placeholder is
      replaced and whatever follows, further placeholders included, is kept. */
  lemma FirstPlaceholderReplaced(a: string, pat: string, b: string, rep: string)
    requires BraceFree(a) && |pat| > 0 && pat[0] == '{'
    ensures ReplaceFirst(a + pat + b, pat, rep) == a + rep + b
  {
    var s := a + pat + b;
    assert OccursAt(s, pat, |a|) by { assert s[|a|..|a| + |pat|] == pat; }
    forall j | 0 <= j < |a| ensures !OccursAt(s, pat, j) {
      if j + |pat| <= |s| {
        assert s[j..j + |pat|][0] == a[j];
      }
    }
    assert IndexOf(s, pat) == Some(|a|);
    assert s[..|a|] == a && s[|a| + |pat|..] == b;
  }

  /** Between brace-free text, one placeholder is the only one there: another whose second
      letter differs never occurs. */
  lemma OnlyPlaceholder(a: string, pat: string, b: string, other: string)
    requires BraceFree(a) && BraceFree(b) && IsPlaceholder(pat)
    requires |other| >= 2 && other[0] == '{' && other[1] != pat[1]
    ensures forall j :: !OccursAt(a + pat + b, other, j)
  {
    var s := a + pat + b;
    forall j | 0 <= j && j + |other| <= |s| ensures !OccursAt(s, other, j) {
      var w := s[j..j + |other|];
      if j == |a| {
        assert w[1] == pat[1];
      } else if j < |a| {
        assert w[0] == a[j];
      } else if j < |a| + |pat| {
        assert w[0] == pat[j - |a|];
      } else {
        assert w[0] == b[j - |a| - |pat|];
      }
    }
  }

  /** A brace-free template with one `{NAME}` gets the name in its place, everything else kept. */
  lemma FillsName(a: string, b: string, c: Customer)
    requires BraceFree(a) && BraceFree(b) && BraceFree(c.name)
    ensures FillTemplate(a + NamePlaceholder + b, c) == a + c.name + b
  {
    PlaceholdersWellFormed();
    FirstPlaceholderReplaced(a, NamePlaceholder, b, c.name);
    BraceFreeConcat(a, c.name);
    BraceFreeConcat(a + c.name, b);
    BraceFreeHasNoPlaceholder(a + c.name + b, PlanPlaceholder);
    BraceFreeHasNoPlaceholder(a + c.name + b, FeePlaceholder);
    BraceFreeHasNoPlaceholder(a + c.name + b, DuePlaceholder);
  }

  /** A brace-free template with one `{PLAN}` gets the plan in its place. */
  lemma FillsPlan(a: string, b: string, c: Customer)
    requires BraceFree(a) && BraceFree(b) && BraceFree(c.plan)
    ensures FillTemplate(a + PlanPlaceholder + b, c) == a + c.plan + b
  {
    PlaceholdersWellFormed();
    OnlyPlaceholder(a, PlanPlaceholder, b, NamePlaceholder);
    FirstPlaceholderReplaced(a, PlanPlaceholder, b, c.plan);
    BraceFreeConcat(a, c.plan);
    BraceFreeConcat(a + c.plan, b);
    BraceFreeHasNoPlaceholder(a + c.plan + b, FeePlaceholder);
    BraceFreeHasNoPlaceholder(a + c.plan + b, DuePlaceholder);
  }

  /** A brace-free template with one `{FEE}` gets the monthly fee in decimal in its place. */
  lemma FillsFee(a: string, b: string, c: Customer)
    requires BraceFree(a) && BraceFree(b)
    ensures FillTemplate(a + FeePlaceholder + b, c) == a + IntToDecimal(c.monthlyFee) + b
  {
    var fee := IntToDecimal(c.monthlyFee);
    PlaceholdersWellFormed();
    OnlyPlaceholder(a, FeePlaceholder, b, NamePlaceholder);
    OnlyPlaceholder(a, FeePlaceholder, b, PlanPlaceholder);
    FirstPlaceholderReplaced(a, FeePlaceholder, b, fee);
    DecimalBraceFree(c.monthlyFee);
    BraceFreeConcat(a, fee);
    BraceFreeConcat(a + fee, b);
    BraceFreeHasNoPlaceholder(a + fee + b, DuePlaceholder);
  }

  /** A brace-free template with one `{DUE_DATE}` gets the due day and "th" in its place. */
  lemma FillsDueDate(a: string, b: string, c: Customer)
    requires BraceFree(a) && BraceFree(b)
    ensures FillTemplate(a + DuePlaceholder + b, c) == a + DueText(c.dueDay) + b
  {
    PlaceholdersWellFormed();
    OnlyPlaceholder(a, DuePlaceholder, b, NamePlaceholder);
    OnlyPlaceholder(a, DuePlaceholder, b, PlanPlaceholder);
    OnlyPlaceholder(a, DuePlaceholder, b, FeePlaceholder);
    FirstPlaceholderReplaced(a, DuePlaceholder, b, DueText(c.dueDay));
  }

  /** One step of a fill: the placeholder after a brace-free prefix is replaced, and the
      brace-free text up to the next placeholder joins the prefix. */
  lemma FillStep(p: string, pat: string, rep: string, mid: string, next: string, rest: string)
    requires BraceFree(p) && BraceFree(rep) && BraceFree(mid) && |pat| > 0 && pat[0] == '{'
    ensures ReplaceFirst(p + pat + (mid + next + rest), pat, rep) == (p + rep + mid) + next + rest
    ensures BraceFree(p + rep + mid)
  {
    FirstPlaceholderReplaced(p, pat, mid + next + rest, rep);
    assert p + rep + (mid + next + rest) == (p + rep + mid) + next + rest;
    BraceFreeConcat(p, rep);
    BraceFreeConcat(p + rep, mid);
  }

  /** A template with the four placeholders in their replacement order, separated by
      brace-free text, gets each value in its place. */
  lemma FillsAllFour(t0: string, t1: string, t2: string, t3: string, t4: string, c: Customer)
    requires BraceFree(t0) && BraceFree(t1) && BraceFree(t2) && BraceFree(t3) && BraceFree(t4)
    requires BraceFree(c.name) && BraceFree(c.plan)
    ensures FillTemplate(t0 + NamePlaceholder + (t1 + PlanPlaceholder + (t2 + FeePlaceholder + (t3 + DuePlaceholder + t4))), c)
      == t0 + c.name + t1 + c.plan + t2 + IntToDecimal(c.monthlyFee) + t3 + DueText(c.dueDay) + t4
  {
    var fee := IntToDecimal(c.monthlyFee);
    var due := DueText(c.dueDay);
    PlaceholdersWellFormed();
    DecimalBraceFree(c.monthlyFee);
    DecimalBraceFree(c.dueDay);
    FillStep(t0, NamePlaceholder, c.name, t1, PlanPlaceholder, t2 + FeePlaceholder + (t3 + DuePlaceholder + t4));
    var p1 := t0 + c.name + t1;
    FillStep(p1, PlanPlaceholder, c.plan, t2, FeePlaceholder, t3 + DuePlaceholder + t4);
    var p2 := p1 + c.plan + t2;
    FillStep(p2, FeePlaceholder, fee, t3, DuePlaceholder, t4);
    var p3 := p2 + fee + t3;
    FirstPlaceholderReplaced(p3, DuePlaceholder, t4, due);
  }

  /** The replacements are chained: a name that itself reads "{PLAN}" is replaced in turn by
      the plan, so `{NAME}` in a brace-free template ends up showing the plan. */
  lemma NameTextIsSubstitutedAgain(a: string, b: string, c: Customer)
    requires c.name == PlanPlaceholder
    requires BraceFree(a) && BraceFree(b) && BraceFree(c.plan)
    ensures FillTemplate(a + NamePlaceholder + b, c) == a + c.plan + b
  {
    PlaceholdersWellFormed();
    FirstPlaceholderReplaced(a, NamePlaceholder, b, c.name);
    FirstPlaceholderReplaced(a, PlanPlaceholder, b, c.plan);
    BraceFreeConcat(a, c.plan);
    BraceFreeConcat(a + c.plan, b);
    BraceFreeHasNoPlaceholder(a + c.plan + b, FeePlaceholder);
    BraceFreeHasNoPlaceholder(a + c.plan + b, DuePlaceholder);
  }

  /** The reminder `sendReminder` hands to the store: the filled message, the selected
      channel, and the 'manual' kind. */
  function ReminderFor(c: Customer, template: string, channel: string): (r: Reminder)
    ensures r.customerId == c.id && r.customerName == c.name && r.channel == channel
    ensures r.message == FillTemplate(template, c) && r.reminderType == "manual"
  {
    ReminderDraft(c.id, c.name, channel, FillTemplate(template, c), "manual")
  }

  /** What `sendReminder` hands to `addReminder` for each target, in order. */
  function Calls(targets: seq<Customer>, template: string, channel: string): (r: seq<Reminder>)
    ensures |r| == |targets|
    ensures forall i :: 0 <= i < |targets| ==> r[i] == ReminderFor(targets[i], template, channel)
  {
    Grouping.MapSeq(targets, (c: Customer) => ReminderFor(c, template, channel))
  }

  /** The `sent` counter of the sending loop: `sendReminder` catches whatever `addReminder`
      throws, so every call, failed or not, is followed by `sent++`. */
  function SentCount(calls: seq<Reminder>, add: Reminder -> Outcome): (n: nat)
    ensures n == |calls|
    decreases |calls|
  {
    if |calls| == 0 then 0
    else
      var before := SentCount(calls[..|calls| - 1], add);
      match add(calls[|calls| - 1])
      case Ok => before + 1
      case Err(_) => before + 1
  }

  /** What a bulk send ends with: a warning when nobody qualifies, nothing when the user
      declines, or the calls made and the count the success message shows. */
  datatype SendOutcome = NoTargets | Declined | Sent(calls: seq<Reminder>, sent: nat)

  function IsOverdueOn(today: Date): Customer -> bool {
    c => CalculateStatus(c, today) == Overdue
  }

  /** `sendBulkReminders`: every customer whose status is 'Overdue', in store order; the
      reported count is the number of targets whatever `add` reports. */
  function SendBulkReminders(customers: seq<Customer>, template: string, channel: string, today: Date,
                             confirmed: bool, add: Reminder -> Outcome): (r: SendOutcome)
    ensures r.NoTargets? <==> CountWhere(customers, StatusKey(today), Overdue) == 0
    ensures r.Declined? <==> CountWhere(customers, StatusKey(today), Overdue) > 0 && !confirmed
    ensures r.Sent? ==> r.sent == CountWhere(customers, StatusKey(today), Overdue) && |r.calls| == r.sent
    ensures r.Sent? ==> forall i :: 0 <= i < |r.calls| ==> SentToOverdue(r.calls[i], customers, template, channel, today)
  {
    var targets := Filter(customers, IsOverdueOn(today));
    FilterCountWhere(customers, IsOverdueOn(today), StatusKey(today), Overdue);
    if |targets| == 0 then NoTargets
    else if !confirmed then Declined
    else
      var calls := Calls(targets, template, channel);
      forall i | 0 <= i < |calls| ensures SentToOverdue(calls[i], customers, template, channel, today) {
        FilterMembership(customers, IsOverdueOn(today), targets[i]);
      }
      Sent(calls, SentCount(calls, add))
  }

  /** `r` is the reminder for some overdue customer. */
  predicate SentToOverdue(r: Reminder, customers: seq<Customer>, template: string, channel: string, today: Date) {
    exists c :: c in customers && CalculateStatus(c, today) == Overdue && r == ReminderFor(c, template, channel)
  }

  /** `r` is the reminder for some active customer on `plan`. */
  predicate SentToPlan(r: Reminder, customers: seq<Customer>, plan: string, template: string, channel: string) {
    exists c :: c in customers && c.plan == plan && c.status == AccountActive && r == ReminderFor(c, template, channel)
  }

  function OnActivePlan(plan: string): Customer -> bool {
    (c: Customer) => c.plan == plan && c.status == AccountActive
  }

  /** `sendByPlan`: every active customer on the plan, in store order; suspended and
      inactive accounts are never messaged, whatever their payment state. */
  function SendByPlan(customers: seq<Customer>, plan: string, template: string, channel: string,
                      confirmed: bool, add: Reminder -> Outcome): (r: SendOutcome)
    ensures r.NoTargets? <==> CountWhere(customers, PlanAndStatus, (plan, AccountActive)) == 0
    ensures r.Declined? <==> CountWhere(customers, PlanAndStatus, (plan, AccountActive)) > 0 && !confirmed
    ensures r.Sent? ==> r.sent == CountWhere(customers, PlanAndStatus, (plan, AccountActive)) && |r.calls| == r.sent
    ensures r.Sent? ==> forall i :: 0 <= i < |r.calls| ==> SentToPlan(r.calls[i], customers, plan, template, channel)
  {
    var targets := Filter(customers, OnActivePlan(plan));
    FilterCountWhere(customers, OnActivePlan(plan), PlanAndStatus, (plan, AccountActive));
    if |targets| == 0 then NoTargets
    else if !confirmed then Declined
    else
      var calls := Calls(targets, template, channel);
      forall i | 0 <= i < |calls| ensures SentToPlan(calls[i], customers, plan, template, channel) {
        FilterMembership(customers, OnActivePlan(plan), targets[i]);
      }
      Sent(calls, SentCount(calls, add))
  }

  /** An overdue customer is messaged by the bulk send (once the user confirms). */
  lemma OverdueCustomerReached(customers: seq<Customer>, template: string, channel: string, today: Date,
                               add: Reminder -> Outcome, c: Customer)
    requires c in customers && CalculateStatus(c, today) == Overdue
    ensures SendBulkReminders(customers, template, channel, today, true, add).Sent?
    ensures ReminderFor(c, template, channel) in SendBulkReminders(customers, template, channel, today, true, add).calls
  {
    var targets := Filter(customers, IsOverdueOn(today));
    FilterMembership(customers, IsOverdueOn(today), c);
    var i :| 0 <= i < |targets| && targets[i] == c;
    assert Calls(targets, template, channel)[i] == ReminderFor(c, template, channel);
  }

  /** An active customer on the plan is messaged by the plan send (once the user confirms). */
  lemma PlanCustomerReached(customers: seq<Customer>, plan: string, template: string, channel: string,
                            add: Reminder -> Outcome, c: Customer)
    requires c in customers && c.plan == plan && c.status == AccountActive
    ensures SendByPlan(customers, plan, template, channel, true, add).Sent?
    ensures ReminderFor(c, template, channel) in SendByPlan(customers, plan, template, channel, true, add).calls
  {
    var targets := Filter(customers, OnActivePlan(plan));
    FilterMembership(customers, OnActivePlan(plan), c);
    var i :| 0 <= i < |targets| && targets[i] == c;
    assert Calls(targets, template, channel)[i] == ReminderFor(c, template, channel);
  }

  /** Sending to the three plans one after the other reaches no more customers than there
      are active ones. */
  lemma {:induction false} PlanSendsWithinActive(customers: seq<Customer>)
    ensures CountWhere(customers, PlanAndStatus, (PlanPremium, AccountActive))
      + CountWhere(customers, PlanAndStatus, (PlanStandard, AccountActive))
      + CountWhere(customers, PlanAndStatus, (PlanBasic, AccountActive))
      <= CountWhere(customers, CustomerStatusOf, AccountActive)
    decreases |customers|
  {
    if |customers| > 0 {
      PlanSendsWithinActive(customers[..|customers| - 1]);
    }
  }
}
