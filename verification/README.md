# RecurringHub billing rules in Dafny

RecurringHub is a subscription-billing dashboard. Each customer has a plan, a monthly fee, a
due day, an account status ('active', 'inactive', 'suspended'), a last payment date and a
creation stamp. Each payment has an amount, a date, a method, a status ('completed',
'pending', 'failed') and the id of the customer it refers to. This project models the
rules that turn those records into derived values:

- the payment-cycle status and the validators (`src/utils/helpers.js`);
- the calendar arithmetic (`src/utils/dateUtils.js`);
- the eight analytics aggregators (`src/services/analyticsService.js`);
- the bulk runners (`src/services/bulkOperations.js`);
- the store operations of `src/contexts/DatabaseContext.jsx`, as pure sequence transforms;
- the rules written inline in the Customers, Payments, Dashboard, Reports and Reminders
  pages.

The clock is a parameter: `today: Date` or `now: Moment` (a day and the milliseconds
since its midnight). Every callback the source receives, such as `addCustomer`,
`addReminder` or `updatePayment`, is a function parameter returning `Ok` or
`Err(message)`. Amounts are integers. Percentages are exact quotients (`Ratios.Ratio`) in
place of `toFixed` strings.

Modules, one concept each:

| module | contents |
|---|---|
| `Wrappers` | `Option`, `Outcome` |
| `Seqs` | `Filter`, `Sum`, `Count` |
| `Seqs` (reference definitions) | `SumWhere`, `CountWhere`: the independent definitions every aggregate is stated against |
| `Text` | the string builtins the source relies on |
| `Calendar` | a proleptic Gregorian calendar with day numbers and epoch milliseconds |
| `Grouping` | the object-as-map folds, and the stable descending sort |
| `Records` | the entities |
| `Consistency` | the cross-file comparison of `calculateStatus` with `daysOverdue` |

The other modules follow the source files one to one.

## Model

| member | source | states |
|---|---|---|
| `Helpers.CalculateStatus` | src/utils/helpers.js:44-73 | the four labels as an ordered rule: 'Suspended' iff suspended; 'Paid' iff not suspended and last paid in today's month and year; otherwise 'Overdue' iff today's day exceeds the due day, else 'Pending' |
| `Helpers.SuspendedOverridesEverything` | src/utils/helpers.js:49-51 | a suspended account is 'Suspended' whatever its last payment date and due day |
| `Helpers.PaidIgnoresDueDay` | src/utils/helpers.js:57-65 | a non-suspended customer who paid in today's month and year is 'Paid' whatever the due day |
| `Helpers.InactiveLikeActive` | src/utils/helpers.js:68-72 | an 'inactive' account is classified exactly like an 'active' one |
| `Helpers.NoPaymentNeverPaid` | src/utils/helpers.js:53-65 | without a last payment date the status is never 'Paid' |
| `Helpers.ValidatePhone` | src/utils/helpers.js:34-37 | accepted iff the digits of the text, in order, are ten and start with 6, 7, 8 or 9 |
| `Helpers.DigitsOfConcat` | src/utils/helpers.js:36 | deleting non-digits distributes over concatenation |
| `Helpers.SeparatorsIgnored` | src/utils/helpers.js:34-37 | inserting a non-digit anywhere never changes the phone verdict |
| `Helpers.ValidateEmail` | src/utils/helpers.js:39-42 | accepted iff the text matches the pattern: no white space, one '@' after a non-empty local part, and a '.' in the domain that is neither its first nor its last character |
| `Helpers.EmailVerdict` | src/utils/helpers.js:39-42 | the checks made around the first '@' agree with the pattern in both directions |
| `Helpers.EmailChecksMatch` | src/utils/helpers.js:40 | passing the checks yields a decomposition matching the pattern |
| `Helpers.EmailMatchChecks` | src/utils/helpers.js:40 | any decomposition matching the pattern passes the checks |
| `Helpers.BadgeIgnoresCase` | src/utils/helpers.js:75-76 | two statuses equal up to letter case get the same badge |
| `Helpers.CycleLabelsHaveBadges` | src/utils/helpers.js:75-90 | each payment-cycle label maps to success, warning or danger as listed, never to 'badge-info' |
| `DateUtils.NextDueDate` | src/utils/dateUtils.js:11-16 | the target is this month's due day when it is still ahead, otherwise next month's, across the year end |
| `DateUtils.DaysUntilDue` | src/utils/dateUtils.js:5-22 | dueDay − today's day when the due day is ahead; otherwise the days left in the month plus the due day, so a due day equal to today gives a full month and every result is at least 1 |
| `DateUtils.NextDueDistance` | src/utils/dateUtils.js:12-19 | the calendar distance in days to the next due date, both cases |
| `DateUtils.DaysOverdue` | src/utils/dateUtils.js:25-48 | never negative; 0 when paid this month; today's day − due day on or after the due day; counted from last month's due date before it outside January; 0 in January before the due day |
| `DateUtils.OverdueReference` | src/utils/dateUtils.js:39-42 | the reference due date is this month's, or last month's when this month's is still ahead and the month is not January |
| `DateUtils.DaysSinceReference` | src/utils/dateUtils.js:39-45 | the floored day difference from the reference date, in each of the three cases |
| `DateUtils.PreviousDueDistance` | src/utils/dateUtils.js:41 | the days from last month's due date to today |
| `DateUtils.JanuaryFallback` | src/utils/dateUtils.js:40-47 | in January before the due day the reference stays in the future and the result is 0 |
| `DateUtils.MonthName` | src/utils/dateUtils.js:51-55 | a name exactly for month indices 0 to 11, absent (`undefined`) otherwise |
| `DateUtils.MonthNamesDistinct` | src/utils/dateUtils.js:52-53 | different months have different names |
| `DateUtils.AgeInMonths` | src/utils/dateUtils.js:58-66 | the difference of the continuous month indices: 12·Δyear + Δmonth |
| `DateUtils.AgeAdditive` | src/utils/dateUtils.js:58-66 | ages add up along a chain of dates |
| `DateUtils.AgeIgnoresDays` | src/utils/dateUtils.js:62-63 | the days of the month never change the age |
| `DateUtils.AgeNegativeForFutureStart` | src/utils/dateUtils.js:58-66 | a start in a later month gives a negative age |
| `DateUtils.Quarter` | src/utils/dateUtils.js:69-72 | between 1 and 4, and the quarter's three months contain the date's month |
| `DateUtils.RelativeAgeOf` | src/utils/dateUtils.js:78-88 | the unit chosen for each span (minutes, hours, days, 30-day months, 365-day years) and its count, pinned between count and count + 1 units of that length, so the count is the floored quotient |
| `DateUtils.FormatRelativeTime` | src/utils/dateUtils.js:75-89 | 'just now' exactly for spans under a minute |
| `DateUtils.ScheduleEntryAt` | src/utils/dateUtils.js:99-110 | entry i is i months after the current one, on the due day, with its year, name and the fee; `isThisMonth` iff i = 0; `isPast` iff its midnight is before now |
| `DateUtils.PaymentSchedule` | src/utils/dateUtils.js:92-114 | six entries for consecutive months from today's; only the first is this month, and only the first can be past, exactly when its due day has passed |
| `DateUtils.ScheduleTiming` | src/utils/dateUtils.js:108 | later entries are never past; the first is past iff the due day is before today, or is today after midnight |
| `DateUtils.ScheduleWrapsAfterDecember` | src/utils/dateUtils.js:99-100 | from December the second entry is January of the next year |
| `Calendar.MakeDate` | src/utils/dateUtils.js:13-15 | `new Date(y, m, d)` rolls a month outside 0..11 into the neighbouring year |
| `Calendar.DaysBefore` | src/services/analyticsService.js:75-76 | moving back n days lowers the day number by n |
| `Analytics.PaymentsIn` | src/services/analyticsService.js:10-23 | the payments of one calendar month, of every status: their sum and count against the month-index reference |
| `Analytics.MonthFilterIsMonthIndex` | src/services/analyticsService.js:12 | "same month and same year" selects exactly one continuous month index |
| `Analytics.GetRevenueMetrics` | src/services/analyticsService.js:5-36 | this month's and the previous month's takings (January's previous month is December of the year before); growth 0 when last month is not positive; direction 'up' iff the two-decimal growth text is not below 0, that is iff last month is not positive or takings fell by less than a 20000th of last month's (20000·(this − last) + last > 0), so a 0.001 % fall printed "-0.00" reads 'up'; any month that did not fall reads 'up'; average 0 without this-month payments |
| `Analytics.Growth` | src/services/analyticsService.js:25-27 | the growth percentage as an exact quotient, 0 when the previous total is not positive, non-negative iff the total did not fall, and printed non-negative at two decimals iff it is above -0.005 |
| `Analytics.GrowthThreshold` | src/services/analyticsService.js:25-33 | with a positive previous total, the growth prints non-negative at two decimals exactly when 20000·(current − previous) + previous > 0: takings rose, held, or fell by less than a 20000th |
| `Analytics.Mean` | src/services/analyticsService.js:34 | total / n, or 0 for n = 0 |
| `Analytics.NewPaymentCountsThisMonth` | src/services/analyticsService.js:10-23 | a payment dated today raises this month's total by its amount and leaves last month's alone |
| `Analytics.GetCustomerMetrics` | src/services/analyticsService.js:39-51 | the head count per account status and the active share, 0 without customers |
| `Analytics.GetPaymentMethodDistribution` | src/services/analyticsService.js:54-67 | one entry per distinct method in first-seen order, each with its total and count; the percentage is finite exactly when all takings are not 0, and otherwise NaN or an infinity as `Ratios.Share` says |
| `Analytics.DistributionCountsAddUp` | src/services/analyticsService.js:64 | the counts add up to the number of payments |
| `Analytics.DistributionAmountsAddUp` | src/services/analyticsService.js:57-61 | the amounts add up to all takings |
| `Analytics.DistributionPercentagesAddUp` | src/services/analyticsService.js:65 | when takings are not 0 the percentages share one denominator and add up to 100 |
| `Analytics.CohortOf` | src/services/analyticsService.js:107-114 | the band by floored days since creation: under 30, under 90, under 365, else loyal; a missing stamp is loyal |
| `Analytics.GetCustomerCohorts` | src/services/analyticsService.js:97-124 | each band's size counts its customers, and the four sizes add up to the total |
| `Analytics.CohortFoldCounts` | src/services/analyticsService.js:107-115 | the push-into-band loop counts each band |
| `Analytics.PlanCollectionOf` | src/services/analyticsService.js:133-155 | active plan customers and their fees; this month's payments whose first matching customer, of any status, is on the plan; rate 0 when nothing is expected; gap = expected − collected, unclamped |
| `Analytics.GetCollectionRateByPlan` | src/services/analyticsService.js:127-157 | three rows, Premium, Standard, Basic, in that order |
| `Analytics.PaidOnPlanIsKey` | src/services/analyticsService.js:137-143 | the payment filter is the (month, payer plan) key |
| `Analytics.CollectionCoversMonth` | src/services/analyticsService.js:127-157 | when every payment of the month has a payer on one of the three plans, the rows' collected amounts add up to the month's takings |
| `Analytics.PlansPartitionMonth` | src/services/analyticsService.js:137-145 | the three plans split a month's payments |
| `Analytics.OrphanPaymentIgnored` | src/services/analyticsService.js:139-140 | a payment referring to no customer changes no row |
| `Analytics.GetTopPeriods` | src/services/analyticsService.js:160-173 | min(5, number of distinct months) entries in descending order, each the sum of its month; a prefix of the stable sort, and no month left out beats one listed |
| `Analytics.TopPeriodsAreAllMonths` | src/services/analyticsService.js:169-172 | with at most five months the list is the whole sorted table |
| `Analytics.TopPeriodsCoverFewMonths` | src/services/analyticsService.js:160-173 | with at most five months the listed totals add up to all takings |
| `Analytics.GetChurnRate` | src/services/analyticsService.js:176-195 | at risk are the active customers last paid more than thirty days ago; at most all customers; rate 0 without customers; 'High churn' iff the rate exceeds 10 |
| `Analytics.AtRiskByDays` | src/services/analyticsService.js:178-183 | at risk in calendar days: more than thirty, or exactly thirty and past midnight |
| `RevenueTrend.TrendDays` | src/services/analyticsService.js:74-76 | thirty consecutive days ending today, oldest first, at the current time of day |
| `RevenueTrend.AddPayments` | src/services/analyticsService.js:82-87 | each existing key gains the sum of the payments with that key; no key is added |
| `RevenueTrend.Trend` | src/services/analyticsService.js:70-94 | for any pair of key functions: thirty points, each with the sum of the payments whose key equals that day's key |
| `RevenueTrend.GetRevenueTrend` | src/services/analyticsService.js:70-94 | corrected keys: each point holds the sum of the payments dated that day |
| `RevenueTrend.NewPaymentLandsOnItsDay` | src/services/analyticsService.js:82-87 | one more payment raises exactly its own day's point by its amount |
| `RevenueTrend.PaymentOutsideWindowIgnored` | src/services/analyticsService.js:84 | a payment dated outside the thirty days changes no point |
| `RevenueTrend.AsWrittenRevenueTrend` | src/services/analyticsService.js:77-83 | the trend with the keys as written: thirty points |
| `RevenueTrend.AsWrittenTrendIsFlat` | src/services/analyticsService.js:77-83 | as written every point is 0 |
| `RevenueTrend.AsWrittenDayKey` | src/services/analyticsService.js:77 | the day key coerces the split array to "date,time", which carries a comma |
| `RevenueTrend.AsWrittenPaymentKey` | src/services/analyticsService.js:83 | the payment key of a date-only string carries no comma |
| `Bulk.RowDraft` | src/services/bulkOperations.js:30-37 | name, phone and plan trimmed; blank plan 'Standard'; fee and due day never 0; start date today |
| `Bulk.RowDraftReadsCells` | src/services/bulkOperations.js:34-35 | the fee is the fourth cell read by `NumberOr` with fallback 3000, the due day the fifth with fallback 5 |
| `Bulk.NumberOr` | src/services/bulkOperations.js:34-35 | `parseFloat(x) \|\| fallback`: the fallback when the cell is absent, has no leading number or reads 0; otherwise the leading number; never 0 for a non-zero fallback |
| `Bulk.NumberOrReadsDecimal` | src/services/bulkOperations.js:34-35 | a cell holding a non-zero number's decimal text, followed by anything that is not a digit, is read as that number |
| `Bulk.ImportStep` | src/services/bulkOperations.js:18-46 | one line: blank lines change nothing; a row missing a field is failed with an error and no call; otherwise one call, counted by its outcome |
| `Bulk.ImportCounts` | src/services/bulkOperations.js:18-46 | the loop counts each line by what happened to it |
| `Bulk.BulkImportCustomers` | src/services/bulkOperations.js:5-61 | the lines after the header, counted: added rows are successes, rejected and refused rows failures, so the total is every line but the blank ones; one error per failure |
| `Bulk.KindsPartition` | src/services/bulkOperations.js:18-46 | every line is exactly one of blank, rejected, added or refused |
| `Bulk.ImportFromConcat` | src/services/bulkOperations.js:18-46 | the loop over two parts is the loop over the first continued by the second |
| `Bulk.BlankLineIgnored` | src/services/bulkOperations.js:19 | a blank line inserted anywhere changes nothing |
| `Bulk.HeaderIgnored` | src/services/bulkOperations.js:12 | the first line is never read |
| `Bulk.MissingRowNotAdded` | src/services/bulkOperations.js:23-27 | a row lacking name, phone or plan is failed with 'Missing required fields' and never reaches `addCustomer` |
| `Bulk.RefusedRowReported` | src/services/bulkOperations.js:39-42 | a throwing `addCustomer` is failed with its message and the loop goes on |
| `Bulk.RunAll` | src/services/bulkOperations.js:72-93 | every item is tried in order; successes and failures add up to the items, and each failure carries its item and message |
| `Bulk.BulkReminderFor` | src/services/bulkOperations.js:74-80 | the template verbatim, over SMS, of type 'bulk' |
| `Bulk.BulkSendReminders` | src/services/bulkOperations.js:64-96 | one call per customer in order; successful = the number of calls that returned, successful + failed = total = number of customers; nothing failed iff every call returned; the failure list is `Bulk.FailuresOf`, the customers whose call threw in order with their errors, and every listed entry is such a customer |
| `Bulk.FailuresMatchRun` | src/services/bulkOperations.js:72-93 | the failures the loop pushes are exactly the customers whose call threw, in order, each with its message |
| `Bulk.EveryFailureListed` | src/services/bulkOperations.js:85-91 | every customer whose `addReminder` call threw is in the report's failure list, with the thrown message |
| `Bulk.BulkUpdateStatus` | src/services/bulkOperations.js:99-138 | one `{ status }` call per id in order; successful = the number of calls that returned, the rest failed; nothing fails iff every call succeeds |
| `Bulk.BulkUpdatePaymentStatus` | src/services/bulkOperations.js:99-117 | one call per payment id in order; successful = the number of `updatePayment` calls that returned, the rest failed; nothing fails iff every call returned |
| `Bulk.BulkUpdateCustomerStatus` | src/services/bulkOperations.js:120-138 | one call per customer id in order; successful = the number of `updateCustomer` calls that returned, the rest failed; nothing fails iff every call returned |
| `Bulk.ExportFilteredData` | src/services/bulkOperations.js:141-165 | an order-preserving subsequence holding exactly the items that pass every set filter |
| `Bulk.ExportIdempotent` | src/services/bulkOperations.js:141-165 | filtering twice equals filtering once |
| `Bulk.ExportWithoutFilters` | src/services/bulkOperations.js:144-162 | with no filter set everything is exported |
| `Store.AddCustomer` | src/contexts/DatabaseContext.jsx:184-194 | appends one record carrying the draft's fields, with the given id and creation stamp, and status forced to 'active'; earlier records are untouched |
| `Store.UpdateCustomer` | src/contexts/DatabaseContext.jsx:196-201 | only the records with the id are merged; length, order, ids and every other record are kept |
| `Store.DeleteCustomer` | src/contexts/DatabaseContext.jsx:203-207 | an order-preserving subsequence without the id that keeps every other record; it is shorter by the number of records with the id |
| `Store.DeleteUndoesAdd` | src/contexts/DatabaseContext.jsx:184-207 | deleting a freshly added id restores the list |
| `Store.AddPayment` | src/contexts/DatabaseContext.jsx:210-227 | appends one payment named after the matched customer or 'Unknown'; the matched customer's last payment date becomes the payment date; no customer changes without a match |
| `Store.UpdatePayment` | src/contexts/DatabaseContext.jsx:229-234 | only the payments with the id are merged; every other payment is kept in place |
| `Store.DeletePayment` | src/contexts/DatabaseContext.jsx:236-239 | an order-preserving subsequence without the id that keeps every other payment |
| `Store.SetPaymentStatuses` | src/contexts/DatabaseContext.jsx:229-234 | `updatePayment` called for each identifier of a bulk update (src/services/bulkOperations.js:105-108): the listed payments carry the new status and the others are unchanged, when the updates are applied one after the other (the source's stale closure keeps only the last, see "## Left out") |
| `Store.SetCustomerStatuses` | src/contexts/DatabaseContext.jsx:196-201 | `updateCustomer` called for each identifier of a bulk update (src/services/bulkOperations.js:126-128): the listed customers carry the new status and a fresh `updatedAt` and the others are unchanged, when the updates are applied one after the other (the source's stale closure keeps only the last, see "## Left out") |
| `Store.AddReminder` | src/contexts/DatabaseContext.jsx:242-252 | appends one reminder with the given id and stamp and status 'sent' whatever the input |
| `Store.ClearAllData` | src/contexts/DatabaseContext.jsx:255-258 | customers, payments and reminders are all empty |
| `Records.FindCustomer` | src/contexts/DatabaseContext.jsx:211 | `find`: absent iff no record has the id, otherwise the first record with it |
| `CustomersPage.FilteredCustomers` | src/pages/Customers.jsx:25-31 | an order-preserving subsequence holding exactly the customers matching the search and the status filter |
| `CustomersPage.EmptySearchShowsAll` | src/pages/Customers.jsx:25-29 | the empty term with 'all' lists everyone |
| `CustomersPage.StatusFilterIgnoresCase` | src/pages/Customers.jsx:29 | two filters equal up to letter case list the same customers |
| `CustomersPage.SuspendedOnlyUnderAll` | src/pages/Customers.jsx:28-29 | under 'paid', 'pending' or 'overdue' a suspended account is never listed |
| `CustomersPage.SuspendedNotShown` | src/pages/Customers.jsx:176-179 | no option of the drop-down matches 'Suspended' |
| `CustomersPage.StatusCountsPartition` | src/pages/Customers.jsx:28 | every customer has exactly one status: the four counts add up to the customers |
| `CustomersPage.StatusListIsStatusCount` | src/pages/Customers.jsx:176-179 | with an empty search the 'paid', 'pending' and 'overdue' lists hold exactly the customers of that status |
| `CustomersPage.LabelsDistinctLower` | src/pages/Customers.jsx:29 | lower-cased labels are equal iff the statuses are |
| `CustomersPage.FormErrors` | src/pages/Customers.jsx:37-46 | an error for a name under three characters, for a phone `validatePhone` rejects, and for a fee that is empty or under 100, each iff its condition holds |
| `CustomersPage.SubmitCustomer` | src/pages/Customers.jsx:33-60 | rejected iff there is an error, with exactly those errors; adding appends one record after the untouched list; editing replaces every form field of the records with the edited identifier (status, payment date and creation stamp kept, `updatedAt` now) and leaves every other record as it was |
| `CustomersPage.SavedCustomerIsValid` | src/pages/Customers.jsx:53-57 | a saved new customer carries the form's values, is 'active', and passes the form's checks |
| `CustomersPage.ShortNameRejected` | src/pages/Customers.jsx:38-51 | a short name is rejected with a name error and nothing saved |
| `CustomersPage.CsvDraft` | src/pages/Customers.jsx:104-111 | each `a \|\| b` of the row: a non-empty plan is kept, else 'Standard'; the fee from monthlyFee, then fee, then 3000; a non-empty due date is read, else 5; a given start date is kept, else today |
| `CustomersPage.CsvImportDrafts` | src/pages/Customers.jsx:102-113 | exactly the drafts of the rows with both a name and a phone, in file order: the `CsvDraft` of each row the filter keeps |
| `CustomersPage.CsvImportCount` | src/pages/Customers.jsx:103 | exactly the importable rows are added |
| `CustomersPage.CsvImportConcat` | src/pages/Customers.jsx:102-113 | importing two files in turn adds what importing their concatenation adds |
| `PaymentsPage.FilteredPayments` | src/pages/Payments.jsx:27-43 | the four-stage chain equals one filter by the conjunction of the stages that are on, so the stages commute; an order-preserving subsequence with inclusive date bounds |
| `PaymentsPage.NoFiltersShowAll` | src/pages/Payments.jsx:29-43 | with every stage off every payment is listed |
| `PaymentsPage.EmptyDateRange` | src/pages/Payments.jsx:37-43 | a start after the end lists nothing |
| `PaymentsPage.FilterAgainChangesNothing` | src/pages/Payments.jsx:27-43 | filtering the list again changes nothing |
| `PaymentsPage.TotalCollected` | src/pages/Payments.jsx:160-162 | the completed amounts among the listed payments |
| `PaymentsPage.TotalPending` | src/pages/Payments.jsx:164-166 | the pending amounts among the listed payments |
| `PaymentsPage.TotalsAfterOneMore` | src/pages/Payments.jsx:160-166 | one more payment moves only the card of its own status; a failed one moves neither |
| `PaymentsPage.ThisMonthCount` | src/pages/Payments.jsx:195-200 | all payments, unfiltered and of every status, dated in today's month and year |
| `PaymentsPage.ThisMonthAfterOneMore` | src/pages/Payments.jsx:195-200 | one more payment raises the count iff it is dated this month |
| `PaymentsPage.SubmitPayment` | src/pages/Payments.jsx:45-70 | no customer, or an amount that is empty or not positive, records nothing; otherwise one payment, appended to the store, carrying the form's amount, date, method, status and reference; the selected customer's records get the payment's date as their last payment date and every other customer record is unchanged; it stores the corrected numeric customer reference (see "## Findings") |
| `PaymentsPage.AsWrittenStoredCustomerId` | src/pages/Payments.jsx:339-345 | as written, the stored reference is the option's text, which parses back to the id |
| `PaymentsPage.AsWrittenFormPaymentUnmatched` | src/contexts/DatabaseContext.jsx:211-217 | as written, `addPayment` finds the customer by parsing the reference, but no strict-equality lookup ever matches it |
| `PaymentsPage.StoredCustomerId` | src/pages/Reports.jsx:76 | the corrected reference equals the selected id and no other |
| `Dashboard.GetDashboard` | src/pages/Dashboard.jsx:11-60 | collected over all completed payments; expected over active fees; pending = expected − collected; overdue as `calculateStatus` says, inactive included; rate 0 without expectation; the pie adds up to the expected revenue; the plan bars count at most all customers |
| `Dashboard.OverdueWithinExpected` | src/pages/Dashboard.jsx:17-29 | when every account is active with a non-negative fee, the overdue fees are within the expected revenue |
| `Dashboard.InactiveOverdueMakesPendingSliceNegative` | src/pages/Dashboard.jsx:17-40 | an overdue inactive account makes the 'Pending' slice negative |
| `Dashboard.FullCollection` | src/pages/Dashboard.jsx:31-33 | a rate of 100 means collected equals expected |
| `Reports.GetReportMetrics` | src/pages/Reports.jsx:15-22 | completed revenue; customer counts; the average divides by payments of every status, and is 0 without payments |
| `Reports.UncompletedPaymentDilutesAverage` | src/pages/Reports.jsx:15-21 | a payment that is not completed adds no revenue but one more divisor |
| `Reports.RangeFilter` | src/pages/Reports.jsx:25-53 | 'all', a complete custom range inclusive of both days, 'today', and the 7/30/365-day windows; anything else keeps every payment |
| `Reports.WindowInDays` | src/pages/Reports.jsx:39-50 | a window keeps payments dated less than n days ago, and exactly n days ago only at midnight |
| `Reports.RangesNest` | src/pages/Reports.jsx:36-50 | today ⊆ week ⊆ month ⊆ year ⊆ all, in list length |
| `Reports.IncompleteCustomRangeListsAll` | src/pages/Reports.jsx:28-52 | a custom range missing a bound lists every payment |
| `Reports.Summarize` | src/pages/Reports.jsx:75-77 | a customer's payment count and total paid, of every status |
| `Reports.CustomerSummaries` | src/pages/Reports.jsx:262-264 | one summary per customer, in store order |
| `Reports.FormPaymentCounted` | src/pages/Reports.jsx:75-77 | with the corrected reference a form payment counts in its customer's row |
| `Reports.OrphanPaymentInNoRow` | src/pages/Reports.jsx:76 | a payment referring to no customer appears in no row |
| `RemindersPage.DueText` | src/pages/Reminders.jsx:25 | text ending in 'th' that `parseInt` reads back as the due day |
| `Text.ParseDecimalThen` | src/pages/Reminders.jsx:25 | the decimal text of an integer followed by text that does not start with a digit reads back as that integer |
| `RemindersPage.FillTemplate` | src/pages/Reminders.jsx:21-25 | a template holding none of the four placeholders is sent as written |
| `RemindersPage.PlainTemplateVerbatim` | src/pages/Reminders.jsx:21-25 | a template without braces is sent as written |
| `RemindersPage.FirstPlaceholderReplaced` | src/pages/Reminders.jsx:22-25 | `replace` with a string pattern replaces only the first occurrence: after brace-free text the placeholder becomes the value and everything after it, further placeholders included, is kept |
| `RemindersPage.OnlyPlaceholder` | src/pages/Reminders.jsx:22-25 | a placeholder between brace-free texts is the only one there, so the other three steps leave it alone |
| `RemindersPage.FillsName` | src/pages/Reminders.jsx:22 | for any brace-free text around one '{NAME}' and a brace-free name, the message is that text with the name in its place |
| `RemindersPage.FillsPlan` | src/pages/Reminders.jsx:23 | the same for '{PLAN}' and the plan |
| `RemindersPage.FillsFee` | src/pages/Reminders.jsx:24 | the same for '{FEE}' and the monthly fee in decimal |
| `RemindersPage.FillsDueDate` | src/pages/Reminders.jsx:25 | the same for '{DUE_DATE}' and the due day followed by 'th' |
| `RemindersPage.FillsAllFour` | src/pages/Reminders.jsx:21-25 | a template with '{NAME}', '{PLAN}', '{FEE}' and '{DUE_DATE}' in that order between brace-free texts gets each value in its place |
| `RemindersPage.NameTextIsSubstitutedAgain` | src/pages/Reminders.jsx:21-23 | the replacements chain: for any brace-free text around '{NAME}', a name reading '{PLAN}' is itself replaced by the plan |
| `RemindersPage.Calls` | src/pages/Reminders.jsx:49-51 | one reminder per target, in order |
| `RemindersPage.SentCount` | src/pages/Reminders.jsx:48-56 | the count is the number of calls, whatever `addReminder` reports |
| `RemindersPage.SendBulkReminders` | src/pages/Reminders.jsx:39-60 | a warning iff no customer is 'Overdue'; declined iff there are targets and the user cancels; otherwise one reminder per overdue customer and that count |
| `RemindersPage.SendByPlan` | src/pages/Reminders.jsx:62-83 | the same for the active customers of the plan: warning iff there are none, declined iff not confirmed, the count, and every call addressed to one of them |
| `RemindersPage.PlanCustomerReached` | src/pages/Reminders.jsx:62-68 | every active customer on the plan gets a reminder once the user confirms |
| `RemindersPage.OverdueCustomerReached` | src/pages/Reminders.jsx:40-51 | every overdue customer gets a reminder once the user confirms |
| `RemindersPage.PlanSendsWithinActive` | src/pages/Reminders.jsx:63 | the three plan sends together reach at most the active customers |
| `Consistency.StatusAgainstDaysOverdue` | src/utils/helpers.js:57-72 | where 'Paid', 'Overdue' and 'Pending' agree with `daysOverdue`, and where they do not |
| `Consistency.PendingYetDaysOverdue` | src/utils/dateUtils.js:39-47 | outside January, before the due day, an unpaid customer is 'Pending' yet has a positive `daysOverdue` |
| `Text.ToLower` | src/pages/Customers.jsx:26 | ASCII lower-casing, character by character |
| `Text.ToLowerIdempotent` | src/utils/helpers.js:76 | lower-casing twice is lower-casing once |
| `Text.TrimStart` | src/services/bulkOperations.js:31 | removes exactly the leading white space |
| `Text.TrimEnd` | src/services/bulkOperations.js:32 | removes exactly the trailing white space |
| `Text.TrimEmptyIffBlank` | src/services/bulkOperations.js:19 | trimming gives "" iff the line is all white space |
| `Text.Split` | src/services/bulkOperations.js:12 | pieces free of the separator |
| `Text.SplitJoin` | src/services/bulkOperations.js:21 | joining the pieces gives back the line |
| `Text.SplitAtFirst` | src/services/bulkOperations.js:12 | the text before the first separator is the first piece |
| `Text.IndexOf` | src/pages/Reminders.jsx:22 | the first occurrence, or none |
| `Text.Contains` | src/pages/Customers.jsx:26-27 | `includes` iff some occurrence |
| `Text.ReplaceFirst` | src/pages/Reminders.jsx:21-25 | `replace` with a string pattern splices the replacement at the first occurrence only, and leaves text without one unchanged |
| `Text.ReplaceFirstKeepsLater` | src/pages/Reminders.jsx:22-25 | a later occurrence survives the replacement, shifted by the length difference |
| `Text.IntToDecimal` | src/pages/Reminders.jsx:24-25 | decimal text, with a '-' iff negative |
| `Text.ParseDecimalRoundTrip` | src/contexts/DatabaseContext.jsx:211 | `parseInt` of an integer's decimal text gives the integer back |
| `Grouping.Distinct` | src/services/analyticsService.js:61 | the keys without repetition, in first-seen order |
| `Grouping.Tally` | src/services/analyticsService.js:57-61 | one group per distinct key in first-seen order, each holding the sum of its key |
| `Grouping.TallySum` | src/services/analyticsService.js:163-167 | the groups' totals add up to the sum over all items |
| `Grouping.SortDescending` | src/services/analyticsService.js:171 | a descending permutation |
| `Grouping.SortDescendingSum` | src/services/analyticsService.js:171 | sorting keeps the sum of the totals |
| `Ratios.Divide` | src/services/analyticsService.js:26 | an exact quotient with a positive denominator and the sign of the division |
| `Ratios.Share` | src/services/analyticsService.js:65 | `(part / whole) * 100`: finite iff the whole is not 0, with part·100/whole as its value; over a zero whole NaN iff the part is 0, otherwise an infinity with the part's sign |

## Left out

- Persistence: `localStorage` loading and saving, and the mock database, are I/O. The store operations work on the current lists.
- React state: stale closures that lose updates when `addCustomer` runs twice in one render, and the separate `setPayments`/`setCustomers` of `addPayment`. The operations are modelled one after the other, each on the current lists.
- `Store.SetPaymentStatuses` and `Store.SetCustomerStatuses`: in the source each `updatePayment`/`updateCustomer` call of a bulk update maps the list captured when the handler started (src/contexts/DatabaseContext.jsx:196-201, 229-233), so only the last identifier's update survives. The model applies the updates one after the other and does not state the stale-closure result.
- Toasts, notifications, rendering, navigation, PDF receipts and reports, CSV export, clipboard and file reading. The bulk import takes the file's text; the CSV import takes the parsed rows. Both file handlers pass `e.target.files` (the whole file list, not its first file) to `Papa.parse` and `FileReader` (src/pages/Customers.jsx:96, src/pages/BulkOperations.jsx:17); whether those read anything is outside this model.
- `setTimeout` delays and `async`: they change no result.
- The mocked network services (payment gateway, e-mail, mock API, login) are not part of this model.
- Clocks and identifiers: `new Date()` is the `today`/`now` parameter; the `Date.now()` ids are an `id` parameter.
- Time zones and locales: dates are calendar days in one zone; `toLocaleDateString` and `dayOfWeek` labels are not modelled.
- Floating point: amounts and fees are integers; `parseFloat` reads the integer prefix only, so fractions and exponents are not read; `toFixed` rounding is replaced by exact quotients.
- Hexadecimal: `parseInt` reads a "0x" prefix as hexadecimal ("0x1A" is 26); the model reads such a cell as 0, so the fallback applies.
- `Analytics.GetChurnRate`: the source compares the `toFixed(2)` string with 10; the model compares the exact rate, so a rate that rounds to exactly 10.00 from above is treated as above 10.
- `Text.ToLower`: ASCII letters only; other characters are left unchanged.
- `Text.ParseIntPrefix`: its contract only says a result needs a digit; its content is stated through `Text.ParseDecimalRoundTrip`.
- `DateUtils.FormatRelativeTime`: its contract covers 'just now' only; the unit and count it prints are stated by `DateUtils.RelativeAgeOf`.
- `Analytics.GetRevenueMetrics`: the direction is read from the exact growth; at a growth of exactly -0.005 the source's floating-point quotient decides whether it prints "-0.00" or "-0.01", and the model reads it as 'down'.
- `DateUtils.DaysUntilDue`: due days are 1 to 28, the choices the customer form offers (src/pages/Customers.jsx:313). Days 29 to 31 arriving through CSV, bulk import or sample data roll into the next month in the source and are not modelled. The same holds for `DateUtils.DaysOverdue`, `DateUtils.PaymentSchedule` and `DateUtils.ScheduleEntryAt`.
- `CustomersPage.CsvDraft`: number cells are read with `parseInt` (`CustomersPage.CellNumber`), while the source stores the cell text itself.
- `RemindersPage.FillTemplate`: replacement patterns such as `$&` in a replacement text are not interpreted. The placeholder lemmas take the surrounding text and the name and plan without '{'; braces elsewhere are covered only by the general contract of `Text.ReplaceFirst` and by `RemindersPage.NameTextIsSubstitutedAgain`.
- Other `.split('T')` sites without `[0]` (the schedule's `dueDate`, the bulk import's `startDate`, the form defaults) only affect stored text. The model keeps those dates as calendar days.
- `Dashboard.GetDashboard`: the contract states the figures as the source computes them (all-time collected against one month of expected fees); it does not claim they are comparable.
- `Reports.RangeFilter`: 'today' is compared on the calendar day, which is what `toDateString` compares in one time zone.
- `Bulk.BulkUpdateStatus`: the store effect of the status updates is stated separately by `Store.SetPaymentStatuses` and `Store.SetCustomerStatuses`.

## Findings

| source | as written | input that shows it | evidently intended | confidence | as-written member | corrected member |
|---|---|---|---|---|---|---|
| src/services/analyticsService.js:77-83 | the day keys are `toISOString().split('T')` arrays, coerced to "YYYY-MM-DD,HH:MM:SS.mmmZ"; the payment keys are date-only strings without a comma | any payment dated today with amount 500: today's point stays 0 | each of the last thirty days totals the payments dated that day | not executed | `RevenueTrend.AsWrittenTrendIsFlat` | `RevenueTrend.GetRevenueTrend` |
| src/pages/Payments.jsx:339-345 | the form keeps the `<select>` value text as `customerId`, and `addPayment` spreads it unchanged (src/contexts/DatabaseContext.jsx:211-217), while the report and plan lookups compare with `===` against the numeric id (src/pages/Reports.jsx:76) | recording 500 for customer 7 through the form: the report row of customer 7 shows no payment | a payment recorded through the form counts for the selected customer | not executed | `PaymentsPage.AsWrittenFormPaymentUnmatched` | `Reports.FormPaymentCounted` |
