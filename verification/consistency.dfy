/** How the payment-cycle label of `src/utils/helpers.js` relates to the overdue-day count of
    `src/utils/dateUtils.js`: they agree on paid and overdue customers, and disagree before
    the due day outside January. */
module Consistency {
  import opened Calendar
  import opened Records
  import opened Helpers
  import opened DateUtils

  /** Where the label and the day count agree, and where they part. */
  lemma {:induction false} StatusAgainstDaysOverdue(c: Customer, now: Moment)
    requires 1 <= c.dueDay <= 28
    ensures CalculateStatus(c, now.date) == Paid ==> DaysOverdue(c.lastPaymentDate, c.dueDay, now) == 0
    ensures CalculateStatus(c, now.date) == Overdue ==> DaysOverdue(c.lastPaymentDate, c.dueDay, now) == now.date.day - c.dueDay > 0
    ensures CalculateStatus(c, now.date) == Pending && now.date.month == 0 ==> DaysOverdue(c.lastPaymentDate, c.dueDay, now) == 0
    ensures CalculateStatus(c, now.date) == Pending && now.date.month > 0 && now.date.day < c.dueDay ==>
      DaysOverdue(c.lastPaymentDate, c.dueDay, now) > 0
  {
    var d := now.date;
    if CalculateStatus(c, d) == Pending && d.month > 0 && d.day < c.dueDay {
      assert DaysInMonth(d.year, d.month - 1) >= 28;
    }
  }

  /** The disagreement itself: outside January, before the due day, an unpaid account is
      labelled 'Pending' while the day count already reports it as overdue. */
  lemma PendingYetDaysOverdue(c: Customer, now: Moment)
    requires 1 <= c.dueDay <= 28
    requires c.status != AccountSuspended && c.lastPaymentDate.None?
    requires now.date.month > 0 && now.date.day < c.dueDay
    ensures CalculateStatus(c, now.date) == Pending
    ensures DaysOverdue(c.lastPaymentDate, c.dueDay, now) > 0
  {
    StatusAgainstDaysOverdue(c, now);
  }
}
