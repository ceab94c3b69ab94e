/** The company-scoped queries shared by the store actions and the dashboard:
    the `$match` conditions, the list filters built from optional month, year
    and project arguments, and the single-group `$sum` totals. */
module Queries {
  import opened Outcome
  import opened Calendar
  import opened Access
  import opened Seqs
  import opened Records

  // ------------------------------------------------------------ conditions

  /** `{ companyId, month, year }` on payments. */
  function PaymentInMonth(c: Id, m: int, y: int): Payment -> bool {
    (p: Payment) => p.companyId == c && p.month == m && p.year == y
  }

  /** `{ companyId, month, year }` on expenses. */
  function ExpenseInMonth(c: Id, m: int, y: int): Expense -> bool {
    (e: Expense) => e.companyId == c && e.month == m && e.year == y
  }

  /** `{ companyId, month, year, type: 'team' }`. */
  function TeamExpenseInMonth(c: Id, m: int, y: int): Expense -> bool {
    (e: Expense) => e.companyId == c && e.month == m && e.year == y && e.kind == "team"
  }

  /** `{ companyId, projectId }` on payments. */
  function PaymentOfProject(c: Id, pid: Id): Payment -> bool {
    (p: Payment) => p.companyId == c && p.projectId == pid
  }

  /** `{ companyId, projectId }` on expenses. */
  function ExpenseOfProject(c: Id, pid: Id): Expense -> bool {
    (e: Expense) => e.companyId == c && e.projectId == pid
  }

  /** `{ companyId, projectId, type: 'team' }`. */
  function TeamExpenseOfProject(c: Id, pid: Id): Expense -> bool {
    (e: Expense) => e.companyId == c && e.projectId == pid && e.kind == "team"
  }

  // -------------------------------------------------------------- list queries

  /** A JavaScript truthiness test on an optional number: absent and 0 are
      false. */
  predicate Truthy(o: Option<int>) {
    o.Some? && o.value != 0
  }

  /** The `query` object a list action builds: always the company, a month
      bucket only when both month and year were given, a project only when one
      was given. */
  datatype ListQuery = ListQuery(companyId: Id, bucket: Option<MonthKey>, projectId: Option<Id>)

  /** Build the query field by field, as the list actions do. */
  method BuildQuery(companyId: Id, month: Option<int>, year: Option<int>, projectId: Option<Id>)
    returns (q: ListQuery)
    ensures q.companyId == companyId
    ensures q.bucket.Some? <==> Truthy(month) && Truthy(year)
    ensures q.bucket.Some? ==> q.bucket.value == MonthKey(month.value, year.value)
    ensures q.projectId == projectId
  {
    q := ListQuery(companyId, None, None);
    if Truthy(month) && Truthy(year) {
      q := q.(bucket := Some(MonthKey(month.value, year.value)));
    }
    if projectId.Some? {
      q := q.(projectId := projectId);
    }
  }

  function PaymentMatches(q: ListQuery): Payment -> bool {
    (p: Payment) => p.companyId == q.companyId
      && (q.bucket.None? || (p.month == q.bucket.value.month && p.year == q.bucket.value.year))
      && (q.projectId.None? || p.projectId == q.projectId.value)
  }

  function ExpenseMatches(q: ListQuery): Expense -> bool {
    (e: Expense) => e.companyId == q.companyId
      && (q.bucket.None? || (e.month == q.bucket.value.month && e.year == q.bucket.value.year))
      && (q.projectId.None? || e.projectId == q.projectId.value)
  }

  /** What a list query selects, stated field by field: the company always,
      the month bucket when month and year are both truthy, the project when
      one is given. */
  function PaymentListed(c: Id, month: Option<int>, year: Option<int>, pid: Option<Id>): Payment -> bool {
    (p: Payment) => p.companyId == c
      && (Truthy(month) && Truthy(year) ==> p.month == month.value && p.year == year.value)
      && (pid.Some? ==> p.projectId == pid.value)
  }

  function ExpenseListed(c: Id, month: Option<int>, year: Option<int>, pid: Option<Id>): Expense -> bool {
    (e: Expense) => e.companyId == c
      && (Truthy(month) && Truthy(year) ==> e.month == month.value && e.year == year.value)
      && (pid.Some? ==> e.projectId == pid.value)
  }

  // -------------------------------------------------------------- totals

  /** `$group: { _id: null, total: { $sum: '$amount' } }`: no output document
      for no input, one document otherwise. */
  function GroupTotal<T>(s: seq<T>, amount: T -> int): (r: seq<int>)
    ensures |r| <= 1
    ensures r == [] <==> s == []
  {
    if s == [] then [] else [Sum(s, amount)]
  }

  /** `result[0]?.total || 0`. */
  function FirstOrZero(r: seq<int>): int {
    if r == [] then 0 else r[0]
  }

  /** What a single-group aggregation reports is the plain sum of the matched
      amounts; in particular 0 when nothing matched. */
  function AggregateTotal<T>(s: seq<T>, amount: T -> int): (t: int)
    ensures t == Sum(s, amount)
  {
    FirstOrZero(GroupTotal(s, amount))
  }

  /** A selection of records whose amounts are all non-negative sums to a
      non-negative total. */
  lemma FilterSumNonNegative<T>(s: seq<T>, p: T -> bool, f: T -> int)
    ensures (forall i :: 0 <= i < |s| ==> f(s[i]) >= 0) ==> Sum(Filter(s, p), f) >= 0
  {
    if forall i :: 0 <= i < |s| ==> f(s[i]) >= 0 {
      var r := Filter(s, p);
      forall x | x in r ensures f(x) >= 0 {
        assert x in s;
      }
      SumNonNegative(r, f);
    }
  }

  /** `getMonthlyIncome`, and the dashboard's `totalIncome`: never negative
      while the stored amounts are not (the schema's `min: 0`). */
  function MonthlyIncome(payments: seq<Payment>, c: Id, m: int, y: int): (r: int)
    ensures (forall i :: 0 <= i < |payments| ==> payments[i].amount >= 0) ==> r >= 0
  {
    FilterSumNonNegative(payments, PaymentInMonth(c, m, y), PaymentAmount);
    AggregateTotal(Filter(payments, PaymentInMonth(c, m, y)), PaymentAmount)
  }

  /** `getMonthlyExpenses`, and the dashboard's `totalExpenses`. */
  function MonthlyExpenses(expenses: seq<Expense>, c: Id, m: int, y: int): (r: int)
    ensures (forall i :: 0 <= i < |expenses| ==> expenses[i].amount >= 0) ==> r >= 0
  {
    FilterSumNonNegative(expenses, ExpenseInMonth(c, m, y), ExpenseAmount);
    AggregateTotal(Filter(expenses, ExpenseInMonth(c, m, y)), ExpenseAmount)
  }

  /** `getProjectTotalReceived`. */
  function ProjectTotalReceived(payments: seq<Payment>, c: Id, pid: Id): (r: int)
    ensures (forall i :: 0 <= i < |payments| ==> payments[i].amount >= 0) ==> r >= 0
  {
    FilterSumNonNegative(payments, PaymentOfProject(c, pid), PaymentAmount);
    AggregateTotal(Filter(payments, PaymentOfProject(c, pid)), PaymentAmount)
  }

  /** No matching record, no income. */
  lemma {:induction false} NoMatchSumsToZero<T>(s: seq<T>, p: T -> bool, f: T -> int)
    requires forall i :: 0 <= i < |s| ==> !p(s[i])
    ensures Filter(s, p) == []
    ensures Sum(Filter(s, p), f) == 0
  {
    if s != [] {
      NoMatchSumsToZero(s[1..], p, f);
    }
  }

  /** The monthly totals are 0 for a month without records. */
  lemma MonthlyTotalsEmpty(payments: seq<Payment>, expenses: seq<Expense>, c: Id, m: int, y: int)
    requires forall i :: 0 <= i < |payments| ==> !PaymentInMonth(c, m, y)(payments[i])
    requires forall i :: 0 <= i < |expenses| ==> !ExpenseInMonth(c, m, y)(expenses[i])
    ensures MonthlyIncome(payments, c, m, y) == 0
    ensures MonthlyExpenses(expenses, c, m, y) == 0
  {
    NoMatchSumsToZero(payments, PaymentInMonth(c, m, y), PaymentAmount);
    NoMatchSumsToZero(expenses, ExpenseInMonth(c, m, y), ExpenseAmount);
  }

  /** Tenant isolation: a company's monthly income is computed from its own
      records alone; the payments of other companies cannot move it. */
  lemma MonthlyIncomeIsolated(payments: seq<Payment>, c: Id, m: int, y: int)
    ensures MonthlyIncome(payments, c, m, y)
      == MonthlyIncome(Filter(payments, Is(PaymentCompany, c)), c, m, y)
  {
    FilterNarrowing(payments, Is(PaymentCompany, c), PaymentInMonth(c, m, y));
  }

  /** The same isolation for monthly expenses. */
  lemma MonthlyExpensesIsolated(expenses: seq<Expense>, c: Id, m: int, y: int)
    ensures MonthlyExpenses(expenses, c, m, y)
      == MonthlyExpenses(Filter(expenses, Is(ExpenseCompany, c)), c, m, y)
  {
    FilterNarrowing(expenses, Is(ExpenseCompany, c), ExpenseInMonth(c, m, y));
  }

  /** Recording a payment raises exactly its own month's income, by its
      amount, for its own company. */
  lemma MonthlyIncomeAfterAdd(payments: seq<Payment>, p: Payment, c: Id, m: int, y: int)
    ensures MonthlyIncome(payments + [p], c, m, y)
      == MonthlyIncome(payments, c, m, y)
         + (if p.companyId == c && p.month == m && p.year == y then p.amount else 0)
  {
    FilterSumAppendOne(payments, p, PaymentInMonth(c, m, y), PaymentAmount);
  }

  /** Recording an expense raises exactly its own month's expenses. */
  lemma MonthlyExpensesAfterAdd(expenses: seq<Expense>, e: Expense, c: Id, m: int, y: int)
    ensures MonthlyExpenses(expenses + [e], c, m, y)
      == MonthlyExpenses(expenses, c, m, y)
         + (if e.companyId == c && e.month == m && e.year == y then e.amount else 0)
  {
    FilterSumAppendOne(expenses, e, ExpenseInMonth(c, m, y), ExpenseAmount);
  }

  /** Recording a payment changes no other month's or company's income. */
  lemma MonthlyIncomeAfterAddAll(payments: seq<Payment>, p: Payment)
    ensures forall c, m, y ::
      MonthlyIncome(payments + [p], c, m, y) == MonthlyIncome(payments, c, m, y) + (if p.companyId == c && p.month == m && p.year == y then p.amount else 0)
  {
    forall c, m, y ensures MonthlyIncome(payments + [p], c, m, y)
      == MonthlyIncome(payments, c, m, y) + (if p.companyId == c && p.month == m && p.year == y then p.amount else 0)
    {
      MonthlyIncomeAfterAdd(payments, p, c, m, y);
    }
  }

  /** Recording an expense changes no other month's or company's expenses. */
  lemma MonthlyExpensesAfterAddAll(expenses: seq<Expense>, e: Expense)
    ensures forall c, m, y ::
      MonthlyExpenses(expenses + [e], c, m, y) == MonthlyExpenses(expenses, c, m, y) + (if e.companyId == c && e.month == m && e.year == y then e.amount else 0)
  {
    forall c, m, y ensures MonthlyExpenses(expenses + [e], c, m, y)
      == MonthlyExpenses(expenses, c, m, y) + (if e.companyId == c && e.month == m && e.year == y then e.amount else 0)
    {
      MonthlyExpensesAfterAdd(expenses, e, c, m, y);
    }
  }

  /** Deleting the payment at `i` lowers exactly its own month's income, by
      its amount. */
  lemma MonthlyIncomeAfterRemove(payments: seq<Payment>, i: nat, c: Id, m: int, y: int)
    requires i < |payments|
    ensures MonthlyIncome(payments, c, m, y)
      == MonthlyIncome(payments[..i] + payments[i + 1..], c, m, y)
         + (var p := payments[i]; if p.companyId == c && p.month == m && p.year == y then p.amount else 0)
  {
    FilterSumRemoveAt(payments, i, PaymentInMonth(c, m, y), PaymentAmount);
  }

  /** Deleting the expense at `i` lowers exactly its own month's expenses. */
  lemma MonthlyExpensesAfterRemove(expenses: seq<Expense>, i: nat, c: Id, m: int, y: int)
    requires i < |expenses|
    ensures MonthlyExpenses(expenses, c, m, y)
      == MonthlyExpenses(expenses[..i] + expenses[i + 1..], c, m, y)
         + (var e := expenses[i]; if e.companyId == c && e.month == m && e.year == y then e.amount else 0)
  {
    FilterSumRemoveAt(expenses, i, ExpenseInMonth(c, m, y), ExpenseAmount);
  }
}
