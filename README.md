# FreeloLedger core in Dafny

FreeloLedger is a multi-tenant ledger for freelance teams. Each company
records payments received from clients and expenses paid out for its
projects. Expenses are team payouts, tools or miscellaneous costs. Every
payment and expense is filed under a (month, year) bucket. A dashboard sums
these per month, per project and per team member. Roles (admin, manager,
member) decide who may change what.

This project models the core of that system:

- **Records and schema validators** (`records.dfy`, `schema.dfy`): the six
  stored collections and the checks Mongoose runs on them at creation. The
  `required` check runs first, setters (`trim`, `lowercase`) apply before
  validation, and the currency, expense-type and payout-type enumerations
  are included.
- **Access policy** (`access.dfy`): the role ranks, the `requireRole`,
  `requireAdmin` and `requireManager` guards, the company lookup from the
  session, and the page guards `requireAuth`, `requireTeamLead` and
  `canEdit`.
- **Month arithmetic** (`calendar.dfy`): the (month, year) buckets, and the
  month selector's previous/next stepping through JavaScript's `Date`,
  including its reading of years 0–99 as 1900–1999.
- **Totals** (`queries.dfy`): the `$match` + `$group` totals behind monthly
  income, monthly expenses and a project's total received, and the list
  filters with their truthiness rules.
- **Aggregation engine** (`dashboard.dfy`): `getDashboardData` and
  `getProjectDetails`. This covers per-project profitability (an inner join
  with the projects), team payout distribution (an inner join with the team
  members), the most common currency, the six-month trend window, the
  monthly breakdown and per-member payouts. The currency counts are modelled
  as an object whose keys are exactly the currencies counted; the one
  inherited name this differs on, `__proto__`, is also modelled as written
  (see "## Findings").
- **Project card** (`project_card.dfy`): the figures the card computes from
  the project details (month received, expenses, team payouts, progress).
- **Ledger store** (`store.dfy`): a class `Ledger` that holds every
  collection as a sequence. It has one method per server action for
  payments, expenses, projects, team members, companies, invitations, roles
  and signup. The caller's session user is a parameter, and every method
  states its whole new state.
- **Helpers** (`seqs.dfy`, `text.dfy`, `js_object.dfy`, `outcome.dfy`):
  generic sequence combinators with their lemmas, string helpers (trim,
  lower-case, the UTF-16 length JavaScript reports, the e-mail pattern), the
  order in which `Object.keys` lists an object's keys (section 10.1.11.1 of
  ECMA-262), and the result types.

Functions that only compute have no row of their own when a lemma or method
row below states what they compute: `ObjectKeys` (the `JsObject.ObjectKeys*`
rows), `CurrencyCounts` and `CurrencyKeys` (`Dashboard.CurrencyCountsSpec`,
`Dashboard.CurrencyKeysSpec`), `WindowBucket` (`Dashboard.WindowBucketSpec`),
`Truthy`, `PaymentListed` and `ExpenseListed` (`Queries.BuildQuery` and the
`Store.Ledger.GetPayments`/`GetExpenses` rows), and `InsertDesc`
(`Seqs.SortDesc`).

Object ids are natural numbers handed out by a counter. Amounts are
integers. Dates are (year, month, day) triples.

## Model

| member | source | states |
|---|---|---|
| Calendar.DateOrdinalOrder | lib/actions/payments.ts:52-55 | the `date` sort key orders valid dates exactly as the calendar does, and two valid dates share a key only if they are equal |
| Calendar.FromIndex | components/MonthSelector.tsx:20-30 | every absolute month index maps to a real month (1–12) whose index is that number |
| Calendar.FromIndexOfMonthIndex | components/MonthSelector.tsx:20-30 | for a real month, converting to an index and back gives the same bucket |
| Calendar.MonthStart | components/MonthSelector.tsx:21 | `new Date(y, monthIndex, 1)` lands in a real month whose index is the full year times 12 plus the month index, with years 0–99 read as 19xx |
| Calendar.PreviousMonthCases | components/MonthSelector.tsx:20-24 | stepping back moves January to December of the year before, and any other month to the month before in the same year |
| Calendar.NextMonthCases | components/MonthSelector.tsx:26-30 | stepping forward moves December to January of the next year, and any other month to the month after |
| Calendar.NextPreviousRoundTrip | components/MonthSelector.tsx:20-30 | next undoes previous, and previous undoes next, for years below -1 or above 100, where neither step passes through a year between 0 and 99 (which JavaScript reads as 19xx); at year 100 and at year -1 a step enters that band and the round trip fails |
| Calendar.RoundTripBreaksAtYear100 | components/MonthSelector.tsx:20-30 | at the edge of that band the round trip fails: back from January 100 is December 99, and forward from there is January 2000 |
| Calendar.PreviousMonth | components/MonthSelector.tsx:20-24 | stepping back always lands in a real month, 1–12 |
| Calendar.NextMonth | components/MonthSelector.tsx:26-30 | stepping forward always lands in a real month, 1–12 |
| Calendar.IsCurrentMonth | components/MonthSelector.tsx:38-39 | a month marked current has the same month index as today |
| Calendar.IsCurrentMonthIff | components/MonthSelector.tsx:38-39 | the selected month is "current" exactly when its bucket is today's bucket |
| Calendar.BucketOf | lib/actions/payments.ts:15-17 | a valid date is filed under a real month, and its ordinal lies inside that month's range |
| Access.RankOrder | lib/utils/server-auth.ts:32-36 | the ranks order member < manager < admin, lie between 1 and 3, and no two roles share one |
| Access.RequireRole | lib/utils/server-auth.ts:30-42 | the guard passes exactly when the caller's rank is at least the required rank, and then hands back the caller's own role |
| Access.RequireRoleSpec | lib/utils/server-auth.ts:30-42 | the guard fails exactly when the caller ranks below the requirement, with the "Access denied" message; on success it returns the caller's own role |
| Access.RequireRoleMonotone | lib/utils/server-auth.ts:38-41 | a role that passes a requirement passes every requirement of lower or equal rank |
| Access.RequireAdmin | lib/utils/server-auth.ts:44-46 | `requireAdmin` passes the admin role alone |
| Access.RequireManager | lib/utils/server-auth.ts:48-50 | `requireManager` passes every role except member |
| Access.RequireAdminIff | lib/utils/server-auth.ts:44-46 | `requireAdmin` admits the admin and nobody else |
| Access.RequireManagerIff | lib/utils/server-auth.ts:48-50 | `requireManager` admits managers and admins and rejects members with "Access denied. Requires manager role." |
| Access.CanEdit | lib/utils/auth.ts:27-30 | `canEdit` holds exactly for the roles ranked manager or higher |
| Access.CanEditAgreesWithGuard | lib/utils/auth.ts:27-30 | `canEdit` holds exactly when the manager guard passes, that is when the rank is at least 2 |
| Access.CurrentCompanyId | lib/utils/server-auth.ts:14-20 | the lookup succeeds whenever the session user has a company, and only with that user's own company |
| Access.CurrentCompanyIdSpec | lib/utils/server-auth.ts:14-20 | the company lookup succeeds exactly when there is a session user with a company, returns that company, and otherwise fails with "No company associated with user" |
| Access.RequireAuth | lib/utils/auth.ts:10-16 | `requireAuth` lets the request through exactly when there is a user, and passes that user |
| Access.RequireTeamLead | lib/utils/auth.ts:18-25 | `requireTeamLead` lets through exactly a signed-in admin, passed on unchanged |
| Access.SessionGuards | lib/utils/auth.ts:10-25 | without a user both guards redirect to /login; with one, `requireAuth` passes the user, and `requireTeamLead` passes exactly the admins, unchanged, and sends others to /dashboard |
| Access.TeamLeadIsAdmin | lib/utils/auth.ts:18-25 | the team-lead page guard and the server-side admin guard admit the same users |
| Text.TrimStart | models/Payment.ts:49-52 | the result is a suffix, everything dropped is whitespace, and the result does not start with whitespace |
| Text.TrimEnd | models/Payment.ts:49-52 | the result is a prefix, everything dropped is whitespace, and the result does not end with whitespace |
| Text.Trim | models/Payment.ts:49-52 | the trimmed string is a contiguous part of the input with only whitespace cut off before and after it |
| Text.TrimBoundaries | models/Expense.ts:63-67 | a trimmed string neither starts nor ends with whitespace |
| Text.TrimEmptyIffAllSpace | models/Expense.ts:63-67 | a trimmed string is empty exactly when the original is all whitespace, which is when a required trimmed path fails |
| Text.TrimIdempotent | models/Project.ts:24-33 | trimming twice is trimming once |
| Text.Lower | models/User.ts:22-29 | the `lowercase` setter for ASCII capitals: A–Z become a–z and every other character is kept, so the length is kept |
| Text.Utf16Length | lib/actions/auth.ts:23-25 | `.length` counts UTF-16 code units: between one and two per character, and exactly one per character for a string without characters beyond U+FFFF |
| Text.LowerIdempotent | models/User.ts:22-29 | lower-casing twice is lower-casing once, and leaves no upper-case ASCII letter |
| Text.LowerTrimCommute | models/User.ts:22-29 | the `lowercase` and `trim` setters commute, so the stored e-mail does not depend on their order |
| Text.BeforeFirstAt | lib/actions/company.ts:77 | `split('@')[0]` is a prefix without '@' that is either the whole string or stops at the first '@' |
| Text.HasDotBetween | models/User.ts:28 | the scan is true exactly when a '.' occurs in the given range |
| Text.MatchesEmailPattern | models/User.ts:28 | an accepted address has no whitespace, at least five characters, an '@' after its first character, and a '.' |
| Text.MatchesEmailPatternIff | models/User.ts:28 | the left-to-right matcher accepts exactly the strings of shape `a@b.c` with non-empty parts and no whitespace |
| Text.EmailShapeSplit | models/User.ts:28 | a string of that shape splits as `a + "@" + b + "." + c`, with three non-empty parts free of whitespace |
| Schema.Check | models/Payment.ts:29-48 | a validator reports nothing exactly when its condition holds, and otherwise one error on its path with its message |
| Schema.ListedIsMembership | models/Project.ts:46-51 | the enumeration check is list membership |
| Schema.PaymentErrors | models/Payment.ts:17-52 | every error is on the amount, month or year path, and no path reports two errors |
| Schema.PaymentErrorsSpec | models/Payment.ts:17-52 | a payment is accepted exactly when its amount is not negative, its month is 1–12 and its year is 2000 or later; each failure names its path and the schema's message |
| Schema.ExpenseErrors | models/Expense.ts:21-67 | every error is on the type, amount, month, year or description path, and no path reports two errors |
| Schema.ExpenseErrorsSpec | models/Expense.ts:21-67 | an expense is accepted exactly when its type is listed, its amount is not negative, its month and year are valid and its description is set; a missing or unlisted type is the first error, with the required or enum message |
| Schema.TeamExpenseWithoutMember | models/Expense.ts:33-37 | a team expense with no team member passes validation, because `teamMemberId` has no validator |
| Schema.ProjectErrorsWith | models/Project.ts:18-55 | for any currency list, every error is on the name, clientName, totalBudget or currency path, and no path reports two errors |
| Schema.ProjectErrors | models/Project.ts:18-55 | with the schema's currency list, the same: one error at most per path, on the schema's paths |
| Schema.ProjectErrorsWithSpec | models/Project.ts:18-55 | for any currency list, a project is accepted exactly when name and client are set, the budget is not negative and the currency is listed; a missing name is the first error |
| Schema.ProjectErrorsSpec | models/Project.ts:46-51 | with the schema's list, the currency must be one of the 112 codes |
| Schema.CurrencyListFacts | models/Project.ts:50 | the list holds 112 codes, including USD, BTC and ETH |
| Schema.TeamMemberErrors | models/TeamMember.ts:16-62 | every error is on the name, role, payoutType, payoutAmount or payoutPercentage path, and no path reports two errors |
| Schema.TeamMemberErrorsSpec | models/TeamMember.ts:16-62 | a member is accepted exactly when name, role and payout type are set, and each payout figure that is present is in range |
| Schema.PayoutConditionalsNeverFire | models/TeamMember.ts:36-62 | the custom "required when type is …" validators never report: each payout path fails with its range message or not at all |
| Schema.MissingPayoutAccepted | models/TeamMember.ts:36-62 | a fixed-payout member without an amount, or a percentage member without a percentage, is accepted |
| Schema.UserErrors | models/User.ts:17-44 | every error is on the name, email, passwordHash or companyId path, and no path reports two errors |
| Schema.EmailErrors | models/User.ts:22-29 | one error at most, on the email path, and none exactly when the e-mail is set and has the shape `a@b.c` with no whitespace |
| Schema.PasswordErrors | models/User.ts:30-34 | one error at most, on the passwordHash path, and none exactly when the hash has at least 6 UTF-16 code units |
| Schema.UserErrorsSpec | models/User.ts:17-44 | a user is accepted exactly when the name is set, the e-mail has the pattern's shape, the password hash has at least 6 UTF-16 code units and there is a company; a bad e-mail gets the required or the pattern message |
| Schema.CompanyErrors | models/Company.ts:12-16 | a company can only fail on its name, with one error at most |
| Schema.CompanyErrorsSpec | models/Company.ts:12-16 | a company name made only of whitespace is rejected, and any other name is accepted |
| Schema.Validated | models/Payment.ts:17-52 | creation yields the document exactly when no validator failed, and otherwise a validation failure listing every error |
| Records.CurrencyOrUsd | lib/actions/dashboard.ts:108 | the display currency is never empty, and is the project's own currency when it has one |
| Queries.BuildQuery | lib/actions/payments.ts:41-50 | the query always scopes to the company, adds the month bucket exactly when month and year are both truthy, and adds the project exactly when one is given |
| Queries.GroupTotal | lib/actions/payments.ts:67-81 | a `_id: null` group yields no document for no input, and exactly one otherwise |
| Queries.AggregateTotal | lib/actions/payments.ts:83 | `result[0]?.total \|\| 0` is the plain sum of the matched amounts, and 0 when nothing matched |
| Queries.MonthlyIncome | lib/actions/payments.ts:63-87 | the month's income is never negative while every stored amount respects the schema's minimum of 0 |
| Queries.MonthlyExpenses | lib/actions/expenses.ts:70-94 | the month's expenses are never negative under the same condition |
| Queries.ProjectTotalReceived | lib/actions/payments.ts:89-112 | a project's total received is never negative under the same condition |
| Queries.NoMatchSumsToZero | lib/actions/payments.ts:63-87 | when no record matches, the selection is empty and sums to 0 |
| Queries.MonthlyTotalsEmpty | lib/actions/expenses.ts:70-94 | the monthly income and monthly expenses of a month without records are 0 |
| Queries.MonthlyIncomeIsolated | lib/actions/payments.ts:67-74 | a company's monthly income is computed from its own payments alone |
| Queries.MonthlyExpensesIsolated | lib/actions/expenses.ts:70-94 | a company's monthly expenses are computed from its own expenses alone |
| Queries.MonthlyIncomeAfterAdd | lib/actions/payments.ts:9-35 | recording a payment raises its own company's income for its own month by its amount, and leaves every other total unchanged |
| Queries.MonthlyExpensesAfterAdd | lib/actions/expenses.ts:8-41 | recording an expense raises exactly its own company's expenses for its own month, by its amount |
| Queries.MonthlyIncomeAfterAddAll | lib/actions/payments.ts:9-35 | the same, for every company, month and year at once |
| Queries.MonthlyExpensesAfterAddAll | lib/actions/expenses.ts:8-41 | the same for expenses, for every company, month and year at once |
| Queries.MonthlyIncomeAfterRemove | lib/actions/payments.ts:114-126 | deleting a payment lowers exactly its own month's income, by its amount |
| Queries.MonthlyExpensesAfterRemove | lib/actions/expenses.ts:96-108 | deleting an expense lowers exactly its own month's expenses, by its amount |
| Seqs.GroupBySpec | lib/actions/dashboard.ts:54-66 | `$group` yields one group per distinct key; each group sums and counts exactly the records carrying its key, at least one, and every record's key has its group |
| Seqs.GroupTotalsAddUp | lib/actions/dashboard.ts:256-274 | grouping loses no amount: the group totals add up to the sum of all records |
| Seqs.SortDesc | lib/actions/payments.ts:54 | `sort({ date: -1 })` returns the same records, newest first |
| Seqs.SortedPermutationUnique | lib/actions/dashboard.ts:266-268 | two ascending orderings of the same records agree once the sort keys tell the records apart |
| Dashboard.ProfitRows | lib/actions/dashboard.ts:54-102 | the join yields no more rows than there are income groups, and each row's profit is its income minus its expenses |
| Dashboard.ProfitRowsSound | lib/actions/dashboard.ts:54-102 | every joined row is an income group whose project exists, paired with that project's expense group or 0, with profit the difference |
| Dashboard.ProfitRowsComplete | lib/actions/dashboard.ts:54-102 | every income group whose project exists gets a row |
| Dashboard.ProfitRowsKeys | lib/actions/dashboard.ts:54-102 | every row comes from one of the income groups |
| Dashboard.ProfitRowsDistinct | lib/actions/dashboard.ts:54-102 | over income groups with distinct keys, no project has two rows |
| Dashboard.ProjectProfitability | lib/actions/dashboard.ts:54-102 | every profitability row's profit is its income minus its expenses |
| Dashboard.ProjectProfitabilitySpec | lib/actions/dashboard.ts:54-102 | each row is an existing project with at least one payment of the company in the month; its income and expenses are that month's sums for the project, and profit is their difference. Every paid project that exists has a row, so a project with expenses but no payment in the month has none |
| Dashboard.ProjectProfitabilityOnce | lib/actions/dashboard.ts:54-102 | no project appears twice, so each existing project paid in the month appears exactly once |
| Dashboard.JoinMembers | lib/actions/dashboard.ts:167-177 | the join yields no more entries than there are groups, and each entry carries a stored member whose id is the entry's id |
| Dashboard.JoinMembersSpec | lib/actions/dashboard.ts:167-177 | `$lookup` + `$unwind` keeps exactly the groups naming an existing member, each with that member's total and count |
| Dashboard.JoinMembersKeys | lib/actions/dashboard.ts:167-177 | every joined entry comes from one of the groups |
| Dashboard.JoinMembersDistinct | lib/actions/dashboard.ts:167-177 | over groups with distinct keys, no member is joined twice |
| Dashboard.MemberTotalsSpec | lib/actions/dashboard.ts:152-178 | each joined member's total is the sum, and its count the number, of the team expenses naming it; every existing member so named is joined |
| Dashboard.Slices | lib/actions/dashboard.ts:180-185 | one slice per joined member, in the same order, carrying its name, total and id |
| Dashboard.TeamPayoutDistribution | lib/actions/dashboard.ts:152-185 | every slice carries the id and name of a stored team member |
| Dashboard.TeamPayoutDistributionSpec | lib/actions/dashboard.ts:152-185 | each slice is an existing member with at least one team expense of the company in the month, named as the member and carrying the sum of those expenses; every such member has a slice |
| Dashboard.TeamPayoutDistributionOnce | lib/actions/dashboard.ts:152-185 | no team member has two slices |
| Dashboard.CurrencyCountsSpec | lib/actions/dashboard.ts:106-110 | the counts object has an entry exactly for the currencies seen, each holding the number of projects counted under it, for currencies that are not names of `Object.prototype` properties |
| Dashboard.ReduceMode | lib/actions/dashboard.ts:111-115 | the reduction returns a counted key whose count is not beaten, and every key seen after it has a strictly lower count |
| JsObject.ObjectKeysPermutation | lib/actions/dashboard.ts:111-112 | `Object.keys` lists exactly the object's own keys, each once |
| JsObject.ObjectKeysIndexesFirst | lib/actions/dashboard.ts:111-112 | keys that are array indexes come before every other key, in ascending numeric order |
| JsObject.ObjectKeysOthersInOrder | lib/actions/dashboard.ts:111-112 | the keys that are not array indexes keep the order in which they were added |
| JsObject.ObjectKeysPlain | lib/actions/dashboard.ts:111-112 | when no key is an array index, `Object.keys` is the insertion order |
| JsObject.IndexAfterPlain | lib/actions/dashboard.ts:111-112 | an array-index key added after a plain key is listed before it |
| JsObject.IndexKeyListedFirst | lib/actions/dashboard.ts:111-112 | adding "USD" and then "1" lists "1" first |
| Dashboard.CurrencyKeysSpec | lib/actions/dashboard.ts:106-112 | `Object.keys(currencyCounts)` lists each currency once, lists every project's currency, and each listed currency's count is its number of projects, at least one, for currencies that are not names of `Object.prototype` properties |
| Dashboard.ModeCurrency | lib/actions/dashboard.ts:104-115 | the default currency is USD when there are no projects, and otherwise one of the projects' currencies, for currencies that are not names of `Object.prototype` properties |
| Dashboard.ModeCurrencyMost | lib/actions/dashboard.ts:111-115 | for at least one project, the pick is counted at least once and no project's currency is counted more often, for currencies that are not names of `Object.prototype` properties |
| Dashboard.ModeCurrencyLastOfTies | lib/actions/dashboard.ts:111-115 | every currency that `Object.keys` lists after the pick is counted strictly less often, for currencies that are not names of `Object.prototype` properties |
| Dashboard.ModeCurrencySpec | lib/actions/dashboard.ts:104-115 | the default currency is USD when there are no projects. Otherwise it is a currency some project uses and no currency is counted more often. Of tied currencies, the one `Object.keys` lists last wins: array-index keys come first in ascending order, then the others in the order first seen. This is the source's result when no currency names an `Object.prototype` property |
| Dashboard.ReduceModeTie | lib/actions/dashboard.ts:112-114 | of two keys counted equally, `reduce` keeps the later one, because `>` is strict |
| Dashboard.CountsOfTwo | lib/actions/dashboard.ts:106-110 | two projects of different currencies add two keys in their order, each counted once, for currencies that are not names of `Object.prototype` properties |
| Dashboard.TwoKeysTie | lib/actions/dashboard.ts:106-112 | two projects of different currencies give two distinct listed keys, counted equally, for currencies that are not names of `Object.prototype` properties |
| Dashboard.ModeOfTie | lib/actions/dashboard.ts:112-115 | when the counts list two keys counted equally, the default currency is the second one listed |
| Dashboard.ModeOfTwo | lib/actions/dashboard.ts:104-115 | with two projects of different currencies, the default currency is whichever `Object.keys` lists second, for currencies that are not names of `Object.prototype` properties |
| Dashboard.ModeCurrencyTieGoesLater | lib/actions/dashboard.ts:111-115 | with one EUR and one GBP project, the default currency is GBP |
| Dashboard.ModeCurrencyIndexKeyFirst | lib/actions/dashboard.ts:111-115 | with one USD project and then one whose stored currency is "1", `Object.keys` lists "1" first, so the default currency is USD |
| Dashboard.CountCurrencies | lib/actions/dashboard.ts:106-110 | the `forEach` loop builds the counts object and the order in which its own keys were added, counting every currency as an own key |
| Dashboard.DefaultCurrency | lib/actions/dashboard.ts:104-115 | the loop, `Object.keys` and `reduce` together give the default currency specified by Dashboard.ModeCurrencySpec |
| Dashboard.AsWrittenSkipsProto | lib/actions/dashboard.ts:106-110 | as written, the loop's counts and own keys are those of the projects whose currency is not `__proto__`: that assignment goes to the inherited `__proto__` setter, which ignores the string the count expression yields |
| Dashboard.ModeCurrencyAsWritten | lib/actions/dashboard.ts:104-115 | the default currency as written is the default currency of the projects whose currency is not `__proto__`, and is never `__proto__` |
| Dashboard.PickedKeyNotProto | lib/actions/dashboard.ts:111-115 | the pick over those projects is never `__proto__` |
| Dashboard.ProtoFilteredOut | lib/actions/dashboard.ts:106-110 | a `__proto__` project after an ordinary one adds nothing |
| Dashboard.ModeOfOne | lib/actions/dashboard.ts:104-115 | with one project, its currency is the default |
| Dashboard.ProtoCurrencyIgnored | lib/actions/dashboard.ts:104-115 | with a USD project and then a `__proto__` project, the source's default currency is USD, while counting every currency picks `__proto__` |
| Dashboard.WindowBucketSpec | lib/actions/dashboard.ts:118-126 | the six trend buckets are real months with consecutive month indexes, the last one being the selected month |
| Dashboard.WindowCrossesYear | lib/actions/dashboard.ts:118-126 | the window ending in February starts in September of the year before |
| Dashboard.TrendWindow | lib/actions/dashboard.ts:118-126 | the loop yields the six buckets, oldest first |
| Dashboard.Trend | lib/actions/dashboard.ts:129-149 | one trend entry per bucket, holding that bucket's income and expenses |
| Dashboard.GetDashboardData | lib/actions/dashboard.ts:16-204 | fails exactly when the session has no company. Otherwise: the month totals, net profit = income − expenses, the count of the company's projects, the profitability rows, the six trend points (the last equal to the month totals when the month is 1–12 and the year is not one JavaScript reads as 19xx), the payout slices and the default currency of the company's projects as Dashboard.ModeCurrency counts them |
| Dashboard.DashboardIsolated | lib/actions/dashboard.ts:54-185 | other companies' payments and expenses change neither the profitability rows nor the payout distribution |
| Dashboard.MonthTotals | lib/actions/dashboard.ts:270-274 | one breakdown entry per month group, in order |
| Dashboard.MonthlyBreakdown | lib/actions/dashboard.ts:256-274 | the breakdown's months never go back in time from one entry to the next |
| Dashboard.MonthlyBreakdownSpec | lib/actions/dashboard.ts:256-274 | each entry is a month holding at least one of the project's payments, with their sum; the months are distinct and run from earliest to latest |
| Dashboard.MonthlyBreakdownCovers | lib/actions/dashboard.ts:256-274 | every month in which the project received a payment has its entry |
| Dashboard.MonthlyBreakdownAddsUp | lib/actions/dashboard.ts:256-274 | the breakdown adds up to the project's total received |
| Dashboard.MonthlyBreakdownOrderUnique | lib/actions/dashboard.ts:256-274 | for calendar months, any ordering of the month groups by year and then month is this one |
| Dashboard.MonthIndexInjective | lib/actions/dashboard.ts:266-268 | the month index tells calendar buckets apart |
| Dashboard.MemberPayouts | lib/actions/dashboard.ts:316-322 | one payout entry per joined member, in order |
| Dashboard.ProjectTeamPayouts | lib/actions/dashboard.ts:277-303 | every payout entry carries the id and name of a stored team member |
| Dashboard.ProjectTeamPayoutsSpec | lib/actions/dashboard.ts:277-303 | each entry is an existing member paid through at least one of the project's team expenses, with name, role, the sum of those expenses and their number; every such member has an entry |
| Dashboard.ProjectTeamPayoutsOnce | lib/actions/dashboard.ts:277-303 | no team member has two payout entries in a project's `teamPayouts` |
| Dashboard.DetailQuerySelects | lib/actions/dashboard.ts:223-231 | the query built for the detail payments selects the project's payments of the company, limited to the month when month and year are both truthy |
| Dashboard.GetProjectDetails | lib/actions/dashboard.ts:206-329 | fails without a company, and with "Project not found" exactly when the company has no project with that id. Otherwise: the project; its payments (filtered by month when one is given) and all its expenses, each newest first; totals as sums; net profit; remaining budget; the all-months breakdown; the team payouts |
| ProjectCard.MonthlyReceived | components/EnhancedProjectCard.tsx:31-33 | the month received is never negative while every payment amount respects the schema's minimum of 0 |
| ProjectCard.MonthlyExpensesOf | components/EnhancedProjectCard.tsx:35-37 | the month's expenses are never negative under the same condition |
| ProjectCard.TeamPayoutsWithinExpenses | components/EnhancedProjectCard.tsx:35-41 | the month's team payouts are the team part of the month's expenses, so with non-negative amounts they never exceed them |
| ProjectCard.MonthlyFiguresIgnoreOrder | components/EnhancedProjectCard.tsx:31-41 | the card's monthly sums depend on which records the detail lists hold, not on their order |
| ProjectCard.MonthlyReceivedIsTotalReceived | components/EnhancedProjectCard.tsx:12-33 | the card asks for its own month's details, so its month received equals the month's payments to the project |
| ProjectCard.MonthlyExpensesOfProject | components/EnhancedProjectCard.tsx:35-41 | the card's month expenses and team payouts are the project's expenses and team expenses in that month |
| ProjectCard.Progress | components/EnhancedProjectCard.tsx:43-45 | progress is 0 for a budget that is not positive, and otherwise received/budget × 100 |
| ProjectCard.ProgressBounds | components/EnhancedProjectCard.tsx:43-45 | progress stays within 0–100 while no more than the budget was received, and reaches 100 exactly when the budget is met |
| ProjectCard.Card | components/EnhancedProjectCard.tsx:12-45 | no card when the details fail. Otherwise the currency is the project's own or USD, net this month = received − expenses, progress is 0 for a non-positive budget, and team payouts never exceed expenses when amounts are non-negative |
| Store.ManagerScope | lib/actions/payments.ts:11-13 | the manager guard then the company lookup: succeeds exactly for an admin or manager with a company, and otherwise gives the first guard's message |
| Store.AdminScope | lib/actions/company.ts:49-51 | the admin guard then the company lookup: succeeds exactly for an admin with a company, and otherwise gives the first guard's message |
| Store.OptionalText | lib/actions/payments.ts:26 | `s \|\| undefined` is absent exactly for the empty string, and is otherwise the trimmed text |
| Store.NewPayment | lib/actions/payments.ts:15-27 | the created payment carries the form's fields, is filed under its date's month and year, and stores trimmed notes or none |
| Store.ExpenseMemberFor | lib/actions/expenses.ts:18-21 | an expense records a member exactly when it is a team expense and a member was submitted |
| Store.NewExpense | lib/actions/expenses.ts:14-33 | the created expense carries the form's fields and its date's bucket, only a team expense names a member, and the description is trimmed |
| Store.NewProject | lib/actions/projects.ts:14-25 | the created project has trimmed names, the currency or USD, and the end date and description only when given |
| Store.ApplyProjectForm | lib/actions/projects.ts:66-80 | an update never changes a project's id, company or creation time |
| Store.ApplyProjectFormSpec | lib/actions/projects.ts:66-80 | an update keeps id, company and creation time, sets every submitted field, and keeps the old end date or description when the form leaves it empty |
| Store.PayoutFields | lib/actions/team.ts:14-25 | a fixed payout sends an amount, a percentage payout sends a percentage, and never both |
| Store.NewMember | lib/actions/team.ts:14-26 | the created member has trimmed name and role, and only the payout figure of its type |
| Store.ApplyMemberForm | lib/actions/team.ts:65-81 | an update never changes a member's id, company or creation time |
| Store.ApplyMemberFormSpec | lib/actions/team.ts:65-81 | an update sets the figure of the submitted payout type and keeps the other one: switching from fixed to percentage keeps the old amount |
| Store.StoredEmail | models/User.ts:22-29 | an e-mail is stored lower-cased and trimmed |
| Store.Invitee | lib/actions/company.ts:72-82 | the invited user is in the admin's company with the given role, has the lower-cased and trimmed e-mail, and is named after the part before the first '@' |
| Store.LastAdminCanBeDemoted | lib/actions/company.ts:100-118 | nothing keeps a company's last admin: demoting the only admin leaves the company with no admin |
| Store.SignupRejection | lib/actions/auth.ts:19-42 | signup gets past its guards exactly when name, e-mail and a password of at least 6 UTF-16 code units are given, no user has the lower-cased, trimmed e-mail (Mongoose applies the schema setters to the query value), there is no invite token and there is a company name; each guard's message is stated in order |
| Store.SignupCountsUtf16Units | lib/actions/auth.ts:23-25 | a password of three emoji has length 6 in JavaScript, so it passes the length guard |
| Store.Founder | lib/actions/auth.ts:45-51 | the founder is an admin under a placeholder company, with trimmed name and lower-cased, trimmed e-mail |
| Store.Ledger.CreatePayment | lib/actions/payments.ts:9-35 | rejects callers who are not managers or admins and leaves the store unchanged. Otherwise it validates the built payment and appends it only when valid, raising its own month's income by its amount and changing nothing else |
| Store.Ledger.GetPayments | lib/actions/payments.ts:37-61 | returns exactly the caller's company's payments selected by the optional filters, newest first |
| Store.Ledger.GetMonthlyIncome | lib/actions/payments.ts:63-87 | returns the sum of the company's payments in the month |
| Store.Ledger.GetProjectTotalReceived | lib/actions/payments.ts:89-112 | returns the sum of the company's payments to the project |
| Store.Ledger.DeletePayment | lib/actions/payments.ts:114-126 | for a manager, removes the company's payment with that id, if any, keeps every other payment and succeeds either way |
| Store.Ledger.CreateExpense | lib/actions/expenses.ts:8-41 | like CreatePayment, for expenses and the month's expenses |
| Store.Ledger.GetExpenses | lib/actions/expenses.ts:43-68 | returns exactly the company's expenses selected by the optional filters, newest first |
| Store.Ledger.GetMonthlyExpenses | lib/actions/expenses.ts:70-94 | returns the sum of the company's expenses in the month |
| Store.Ledger.DeleteExpense | lib/actions/expenses.ts:96-108 | removes the company's expense with that id, if any, and keeps every other one |
| Store.Ledger.CreateProject | lib/actions/projects.ts:8-33 | for a manager, validates the built project and appends it only when valid |
| Store.Ledger.GetProjects | lib/actions/projects.ts:35-44 | returns exactly the company's projects, newest first |
| Store.Ledger.GetProject | lib/actions/projects.ts:46-58 | returns the company's project with that id, or "Project not found" exactly when there is none |
| Store.Ledger.UpdateProject | lib/actions/projects.ts:60-92 | rewrites only the company's project with that id, without validation, or reports "Project not found" and changes nothing |
| Store.Ledger.DeleteProject | lib/actions/projects.ts:94-106 | removes the company's project with that id, if any, and keeps every other one |
| Store.Ledger.CreateTeamMember | lib/actions/team.ts:8-33 | for a manager, validates the built member and appends it only when valid |
| Store.Ledger.GetTeamMembers | lib/actions/team.ts:35-44 | returns exactly the company's team members, newest first |
| Store.Ledger.GetTeamMember | lib/actions/team.ts:46-58 | returns the company's member with that id, or "Team member not found" exactly when there is none |
| Store.Ledger.UpdateTeamMember | lib/actions/team.ts:60-92 | rewrites only the company's member with that id, without validation, or reports "Team member not found" |
| Store.Ledger.DeleteTeamMember | lib/actions/team.ts:94-105 | removes the company's member with that id, if any, and keeps every other one |
| Store.Ledger.OpenCompany | lib/actions/company.ts:27-37 | `Company.create` then `findByIdAndUpdate` on the owner: appends the company, rewrites only the owner's user record, and changes nothing else |
| Store.Ledger.CreateCompany | lib/actions/company.ts:11-45 | refuses a user who already has a company, and an empty name. Otherwise it creates the validated company owned by the caller and makes the caller its admin |
| Store.Ledger.InviteUser | lib/actions/company.ts:47-98 | for an admin: requires e-mail and role, and refuses a user who already has a company. It attaches an existing user without a company with the role, or creates a validated invitee. Both the lookup and the stored address are the trimmed, lower-cased form, so the unique index is never hit |
| Store.Ledger.UpdateUserRole | lib/actions/company.ts:100-118 | for an admin: "User not found" exactly when no user of the company has that id. Otherwise only that user's role changes |
| Store.Ledger.GetCompanyUsers | lib/actions/company.ts:120-134 | returns exactly the company's users, newest first |
| Store.Ledger.Found | lib/actions/auth.ts:43-73 | stores the admin founder, then the validated company it owns; an invalid company leaves the founder under the placeholder company, and a valid one attaches the founder to it. Nothing else changes |
| Store.Ledger.Signup | lib/actions/auth.ts:9-80 | fails on the first failing guard and on an invalid founder, leaving the store unchanged. Otherwise it stores the admin founder, then the company; an invalid company name leaves the founder under the placeholder company, and a valid one attaches the founder to it |

## Left out

- Sessions, cookies and NextAuth are not modelled: the session user is a parameter. `redirect('/login')` from `getCurrentUserId` and `getCurrentUserRole` is not modelled either, because every store method takes a signed-in caller.
- Store.Ledger.CreateCompany: takes the caller's id directly. A user id that is missing from the users collection is handled as "no company yet", as the `existingUser?.companyId` test does.
- Database connection, `revalidatePath`, JSON serialisation, `populate`, `select` projections and `lean` are not modelled. None of them changes which records are returned.
- Password hashing (bcrypt) and the random temporary password are not modelled. The hash is a parameter, and the temporary password is not returned.
- Sending invitation e-mail is not modelled; the source does not do it either.
- `parseFloat` and `NaN` are not modelled: amounts are integers that have already been parsed. Fractional amounts and cast errors on malformed ids are not covered.
- Time zones are not modelled. A date's month and year are taken as given, and `new Date()` for "today" is a parameter.
- `Promise.all` concurrency is not modelled: the parallel queries are computed one after another over the same state.
- Role strings outside the three roles are not modelled: the `Role` datatype has the three roles only. In the source such a role passes every guard, admin included, because `roleHierarchy[role]` is `undefined` and `undefined < n` is false (lib/utils/server-auth.ts:38). `updateUserRole` can store one, since it calls `findByIdAndUpdate` without validators and the TypeScript type is not checked at run time (lib/actions/company.ts:111).
- `createdAt` is a parameter, and `updatedAt` is not stored.
- Text.Lower: models `toLowerCase` for ASCII capitals only. Full Unicode case mapping is not modelled: neither non-ASCII capitals nor mappings that change the length, such as 'İ' to "i̇". Its length-keeping contract holds of the model, not of the source.
- Store.StoredEmail: uses Text.Lower, so for an address with non-ASCII capitals the stored form differs from the source's.
- Store.Invitee: stores the e-mail through the same ASCII-only lower-casing, with the same gap as Store.StoredEmail.
- Store.Founder: stores the e-mail through the same ASCII-only lower-casing, with the same gap as Store.StoredEmail.
- Store.SignupRejection: the duplicate-address lookup uses the same ASCII lower-casing, so it agrees with the source only for addresses whose capitals are ASCII. The password length is counted in UTF-16 code units, as JavaScript's `.length` counts it.
- Dashboard.ModeCurrency: counts every currency as an own key of the counts object, as a `Map` would. The source's plain `{}` inherits `Object.prototype`. For `__proto__` the assignment is ignored and no key is made; this is modelled as written by Dashboard.ModeCurrencyAsWritten (see "## Findings"). A currency naming another inherited property (`toString`, `constructor`, `valueOf`, `hasOwnProperty` and the rest) starts from an inherited function, so its count becomes a string such as "function toString() { [native code] }1". `reduce` then compares that string: as NaN against a number, so every `>` against it is false, and as text against another such string. That text is engine-defined, so these currencies are not modelled.
- Dashboard.CurrencyCountsSpec: holds for the model's counts; in the source it fails for currencies naming `Object.prototype` properties (see Dashboard.ModeCurrency).
- Dashboard.CurrencyKeysSpec: in the source, `__proto__` is never listed and the other inherited names get string counts (see Dashboard.ModeCurrency).
- Dashboard.ModeCurrencySpec: is the source's default currency only when no currency names an `Object.prototype` property (see Dashboard.ModeCurrency).
- Dashboard.ModeCurrencyMost: in the source, a currency whose count is a string can win although other currencies are counted more often (see Dashboard.ModeCurrency).
- Dashboard.ModeCurrencyLastOfTies: the keys it ranges over include `__proto__`, which the source never lists (see Dashboard.ModeCurrency).
- Dashboard.CountsOfTwo: in the source, a `__proto__` currency is not counted and another inherited name is not counted as 1 (see Dashboard.ModeCurrency).
- Dashboard.TwoKeysTie: the same exception as Dashboard.CountsOfTwo.
- Dashboard.ModeOfTwo: the same exception; for USD then `__proto__` the source gives USD (Dashboard.ProtoCurrencyIgnored).
- Dashboard.CountCurrencies: builds the counts as Dashboard.ModeCurrency models them (see there).
- Dashboard.DefaultCurrency: equals Dashboard.ModeCurrency, with the same gap.
- Dashboard.GetDashboardData: its default currency is Dashboard.ModeCurrency, with the same gap.
- Sums are not converted between currencies; neither does the source convert them.
- Store.Ledger.UpdateProject: an empty end date or description is sent as `undefined`, and Mongoose drops such keys from an update, so the old value stays. The model follows this. It does not model a reading in which the update clears the field.
- Store.Ledger.UpdateTeamMember: for the same reason, the payout figure of the other type keeps its old value.
- `$group` returns its groups in no specified order. The model lists them in the order their keys first appear in the input. Contracts about the groups and the rows built from them state membership and sums, not positions.
- Sort ties (`sort({ date: -1 })` and `sort({ createdAt: -1 })` on equal keys) have no specified order. The contracts state only "the same records, sorted", not a particular order among equals.
- Labels (`toLocaleDateString`, `date-fns` `format`) and currency formatting (`Intl.NumberFormat`) are display only and not modelled.
- Project card progress is a real number; rounding in the display is not modelled.
- Cross-collection consistency (payments that name deleted projects, expenses that name deleted members) is not enforced by the source and not modelled as an invariant. The dashboard joins drop such records, as stated above.
- The project and team-member `$lookup` stages in `getDashboardData` and `getProjectDetails` search every stored project and member, not only the company's. The model does the same.

## Findings

| source | as written | input that shows it | evidently intended | confidence | as-written member | corrected member |
|---|---|---|---|---|---|---|
| lib/actions/dashboard.ts:106-110 | the currencies are counted in a plain `{}`, so `currencyCounts["__proto__"] = …` goes to the inherited setter, which ignores the string "[object Object]1"; a `__proto__` project is never counted | one USD project, then one whose stored currency is `__proto__` (reachable: `updateProject` does not validate the currency): the default currency is USD, where counting both gives a one-one tie that `__proto__` wins | every project's currency counted as an own key, as a `Map` or `Object.create(null)` would | high; not executed | Dashboard.ModeCurrencyAsWritten, Dashboard.ProtoCurrencyIgnored | Dashboard.ModeCurrency, Dashboard.ModeCurrencySpec |
