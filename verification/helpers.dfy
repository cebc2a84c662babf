/** Payment-cycle classification and the small validators of `src/utils/helpers.js`. */
module Helpers {
  import opened Wrappers
  import opened Calendar
  import opened Text
  import opened Records

  /** The derived payment-cycle status of a customer. */
  datatype CycleStatus = Paid | Pending | Overdue | Suspended {
    /** The label the source returns and the pages display. */
    function Label(): string {
      match this
      case Paid => "Paid"
      case Pending => "Pending"
      case Overdue => "Overdue"
      case Suspended => "Suspended"
    }
  }

  /** The customer's last payment fell in the calendar month of `today`. */
  predicate PaidInMonthOf(c: Customer, today: Date) {
    c.lastPaymentDate.Some? && MonthIndex(c.lastPaymentDate.value) == MonthIndex(today)
  }

  /** `calculateStatus`: the first matching rule of Suspended, Paid, Overdue, Pending. */
  function CalculateStatus(c: Customer, today: Date): (s: CycleStatus)
    ensures s == Suspended <==> c.status == AccountSuspended
    ensures s == Paid <==> c.status != AccountSuspended && PaidInMonthOf(c, today)
    ensures s == Overdue <==> c.status != AccountSuspended && !PaidInMonthOf(c, today) && today.day > c.dueDay
    ensures s == Pending <==> c.status != AccountSuspended && !PaidInMonthOf(c, today) && today.day <= c.dueDay
  {
    if c.status == AccountSuspended then Suspended
    else if c.lastPaymentDate.Some?
      && c.lastPaymentDate.value.month == today.month
      && c.lastPaymentDate.value.year == today.year then Paid
    else if today.day > c.dueDay then Overdue
    else Pending
  }

  /** The payment-cycle status as a grouping key. */
  function StatusKey(today: Date): Customer -> CycleStatus {
    c => CalculateStatus(c, today)
  }

  /** A suspended account is 'Suspended' whatever its dates and due day. */
  lemma SuspendedOverridesEverything(c: Customer, today: Date, last: Option<Date>, dueDay: int)
    requires c.status == AccountSuspended
    ensures CalculateStatus(c.(lastPaymentDate := last, dueDay := dueDay), today) == Suspended
  {
  }

  /** A payment in today's month makes a non-suspended customer 'Paid' whatever the due day. */
  lemma PaidIgnoresDueDay(c: Customer, today: Date, dueDay: int)
    requires c.status != AccountSuspended
    requires c.lastPaymentDate.Some? && c.lastPaymentDate.value.year == today.year
    requires c.lastPaymentDate.value.month == today.month
    ensures CalculateStatus(c.(dueDay := dueDay), today) == Paid
  {
  }

  /** An 'inactive' account is classified exactly like an 'active' one. */
  lemma InactiveLikeActive(c: Customer, today: Date)
    ensures CalculateStatus(c.(status := AccountInactive), today) == CalculateStatus(c.(status := AccountActive), today)
  {
  }

  /** Without a last payment date a customer is never 'Paid'. */
  lemma NoPaymentNeverPaid(c: Customer, today: Date)
    requires c.lastPaymentDate.None?
    ensures CalculateStatus(c, today) != Paid
  {
  }

  /** `phone.replace(/\D/g, '')`: the digits of `s` in order. */
  function DigitsOf(s: string): (d: string)
    ensures AllDigits(d) && |d| <= |s|
    decreases |s|
  {
    if |s| == 0 then ""
    else DigitsOf(s[..|s| - 1]) + (if IsDigit(s[|s| - 1]) then [s[|s| - 1]] else "")
  }

  lemma {:induction false} DigitsOfConcat(a: string, b: string)
    ensures DigitsOf(a + b) == DigitsOf(a) + DigitsOf(b)
    decreases |b|
  {
    if |b| == 0 {
      assert a + b == a;
    } else {
      var b' := b[..|b| - 1];
      assert (a + b)[..|a + b| - 1] == a + b';
      DigitsOfConcat(a, b');
    }
  }

  /** `validatePhone`: after deleting non-digits, ten digits starting with 6, 7, 8 or 9
      (the pattern /^[6-9]\d{9}$/). */
  function ValidatePhone(phone: string): (ok: bool)
    ensures ok <==> var d := DigitsOf(phone); |d| == 10 && '6' <= d[0] <= '9'
  {
    var d := DigitsOf(phone);
    |d| == 10 && d[0] in "6789"
  }

  /** Inserting a separator anywhere never changes the phone verdict. */
  lemma SeparatorsIgnored(a: string, b: string, sep: char)
    requires !IsDigit(sep)
    ensures ValidatePhone(a + [sep] + b) == ValidatePhone(a + b)
  {
    DigitsOfConcat(a + [sep], b);
    DigitsOfConcat(a, [sep]);
    DigitsOfConcat(a, b);
    assert DigitsOf([sep]) == "" by {
      assert [sep][..0] == [];
    }
  }

  /** A character of `[^\s@]`. */
  predicate EmailChar(c: char) {
    !IsSpace(c) && c != '@'
  }

  /** The strings /^[^\s@]+@[^\s@]+\.[^\s@]+$/ matches: a non-empty local part, one '@', and a
      domain with a '.' that has at least one character on each side. */
  ghost predicate MatchesEmailPattern(s: string) {
    exists at, dot ::
      && 0 < at && at + 1 < dot && dot + 1 < |s|
      && s[at] == '@' && s[dot] == '.'
      && forall k :: 0 <= k < |s| && k != at ==> EmailChar(s[k])
  }

  /** Index of the first `c` in `s`, or `|s|` when there is none. */
  function FirstIndex(s: string, c: char): (i: nat)
    ensures i <= |s|
    ensures i < |s| ==> s[i] == c
    ensures forall j :: 0 <= j < i ==> s[j] != c
    decreases |s|
  {
    if |s| == 0 then 0 else if s[0] == c then 0 else 1 + FirstIndex(s[1..], c)
  }

  /** `validateEmail`: no white space anywhere, exactly one '@' with something before it,
      and a domain holding a '.' that is neither its first nor its last character. */
  function ValidateEmail(email: string): (ok: bool)
    ensures ok <==> MatchesEmailPattern(email)
  {
    var at := FirstIndex(email, '@');
    var domain := if at < |email| then email[at + 1..] else "";
    var ok := EmailChecks(email, at, domain);
    EmailVerdict(email, at, domain, ok);
    ok
  }

  /** The conditions `ValidateEmail` checks. */
  predicate EmailChecks(email: string, at: nat, domain: string) {
    && (forall i | 0 <= i < |email| :: !IsSpace(email[i]))
    && 0 < at < |email|
    && '@' !in domain
    && |domain| >= 3
    && '.' in domain[1..|domain| - 1]
  }

  lemma EmailVerdict(email: string, at: nat, domain: string, ok: bool)
    requires at == FirstIndex(email, '@')
    requires domain == if at < |email| then email[at + 1..] else ""
    requires ok == EmailChecks(email, at, domain)
    ensures ok <==> MatchesEmailPattern(email)
  {
    if ok {
      EmailChecksMatch(email, at, domain);
    }
    if MatchesEmailPattern(email) {
      var a, dot :| && 0 < a && a + 1 < dot && dot + 1 < |email|
        && email[a] == '@' && email[dot] == '.'
        && forall k :: 0 <= k < |email| && k != a ==> EmailChar(email[k]);
      EmailMatchChecks(email, at, domain, a, dot);
    }
  }

  lemma EmailChecksMatch(email: string, at: nat, domain: string)
    requires at < |email| && domain == email[at + 1..]
    requires at == FirstIndex(email, '@')
    requires EmailChecks(email, at, domain)
    ensures MatchesEmailPattern(email)
  {
    var inner := domain[1..|domain| - 1];
    var j :| 0 <= j < |inner| && inner[j] == '.';
    var dot := at + 2 + j;
    assert email[dot] == '.';
    forall k | 0 <= k < |email| && k != at
      ensures EmailChar(email[k])
    {
      if k > at {
        assert email[k] == domain[k - at - 1];
      }
    }
  }

  lemma EmailMatchChecks(email: string, at: nat, domain: string, a: int, dot: int)
    requires at == FirstIndex(email, '@')
    requires domain == if at < |email| then email[at + 1..] else ""
    requires 0 < a && a + 1 < dot && dot + 1 < |email|
    requires email[a] == '@' && email[dot] == '.'
    requires forall k :: 0 <= k < |email| && k != a ==> EmailChar(email[k])
    ensures EmailChecks(email, at, domain)
  {
    assert at == a;
    assert !IsSpace(email[a]);
    assert forall i | 0 <= i < |domain| :: domain[i] == email[at + 1 + i];
    assert domain[1..|domain| - 1][dot - at - 2] == '.';
  }

  /** `getStatusBadgeClass`: compares the lower-cased status against the known labels. */
  function StatusBadgeClass(status: string): string {
    var s := ToLower(status);
    if s == "paid" || s == "completed" || s == "active" then "badge-success"
    else if s == "pending" then "badge-warning"
    else if s == "overdue" || s == "suspended" || s == "failed" then "badge-danger"
    else "badge-info"
  }

  /** The badge depends on the status only up to letter case. */
  lemma BadgeIgnoresCase(a: string, b: string)
    requires ToLower(a) == ToLower(b)
    ensures StatusBadgeClass(a) == StatusBadgeClass(b)
  {
  }

  lemma LowerLabels()
    ensures ToLower("Paid") == "paid"
    ensures ToLower("Pending") == "pending"
    ensures ToLower("Overdue") == "overdue"
    ensures ToLower("Suspended") == "suspended"
  {
    assert ToLower("Paid") == "paid" by {
      assert ToLower("Paid")[0] == 'p';
    }
    assert ToLower("Pending") == "pending" by {
      assert ToLower("Pending")[0] == 'p';
    }
    assert ToLower("Overdue") == "overdue" by {
      assert ToLower("Overdue")[0] == 'o';
    }
    assert ToLower("Suspended") == "suspended" by {
      assert ToLower("Suspended")[0] == 's';
    }
  }

  /** Every payment-cycle label gets a coloured badge, never the 'badge-info' default:
      Paid is success, Pending a warning, Overdue and Suspended danger. */
  lemma CycleLabelsHaveBadges(s: CycleStatus)
    ensures StatusBadgeClass(s.Label()) == match s
      case Paid => "badge-success"
      case Pending => "badge-warning"
      case Overdue => "badge-danger"
      case Suspended => "badge-danger"
    ensures StatusBadgeClass(s.Label()) != "badge-info"
  {
    LowerLabels();
  }
}
