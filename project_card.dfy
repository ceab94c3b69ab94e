/** The figures a project card shows beside the project details: the
    selected month's receipts, expenses and team payouts, recomputed from the
    detail lists with `filter` and `reduce`, the net for the month, the
    budget progress and the display currency. */
module ProjectCard {
  import opened Outcome
  import opened Access
  import opened Seqs
  import opened Records
  import opened Queries
  import opened Dashboard

  /** `p.month === currentMonth && p.year === currentYear`. */
  function PaymentInBucket(m: int, y: int): Payment -> bool {
    (p: Payment) => p.month == m && p.year == y
  }

  /** `e.month === currentMonth && e.year === currentYear`. */
  function ExpenseInBucket(m: int, y: int): Expense -> bool {
    (e: Expense) => e.month == m && e.year == y
  }

  /** The same test with `e.type === 'team'` added. */
  function TeamExpenseInBucket(m: int, y: int): Expense -> bool {
    (e: Expense) => e.month == m && e.year == y && e.kind == "team"
  }

  function IsTeamExpense(e: Expense): bool {
    e.kind == "team"
  }

  /** `monthlyReceived`. */
  function MonthlyReceived(payments: seq<Payment>, m: int, y: int): (r: int)
    ensures (forall i :: 0 <= i < |payments| ==> payments[i].amount >= 0) ==> r >= 0
  {
    FilterSumNonNegative(payments, PaymentInBucket(m, y), PaymentAmount);
    Sum(Filter(payments, PaymentInBucket(m, y)), PaymentAmount)
  }

  /** `monthlyExpenses`. */
  function MonthlyExpensesOf(expenses: seq<Expense>, m: int, y: int): (r: int)
    ensures (forall i :: 0 <= i < |expenses| ==> expenses[i].amount >= 0) ==> r >= 0
  {
    FilterSumNonNegative(expenses, ExpenseInBucket(m, y), ExpenseAmount);
    Sum(Filter(expenses, ExpenseInBucket(m, y)), ExpenseAmount)
  }

  /** `monthlyTeamPayouts`. */
  function MonthlyTeamPayouts(expenses: seq<Expense>, m: int, y: int): int {
    Sum(Filter(expenses, TeamExpenseInBucket(m, y)), ExpenseAmount)
  }

  /** The team payouts of the month are the team part of the month's
      expenses, so with amounts that are never negative they never exceed the
      month's expenses. */
  lemma {:induction false} TeamPayoutsWithinExpenses(expenses: seq<Expense>, m: int, y: int)
    ensures MonthlyTeamPayouts(expenses, m, y)
      == Sum(Filter(Filter(expenses, ExpenseInBucket(m, y)), IsTeamExpense), ExpenseAmount)
    ensures (forall e :: e in expenses ==> e.amount >= 0) ==>
      MonthlyTeamPayouts(expenses, m, y) <= MonthlyExpensesOf(expenses, m, y)
  {
    FilterFilter(expenses, ExpenseInBucket(m, y), IsTeamExpense);
    FilterCongruent(expenses, Both(ExpenseInBucket(m, y), IsTeamExpense), TeamExpenseInBucket(m, y));
    if forall e :: e in expenses ==> e.amount >= 0 {
      SumFilterMonotone(expenses, TeamExpenseInBucket(m, y), ExpenseInBucket(m, y), ExpenseAmount);
    }
  }

  /** The monthly sums depend on which records the detail lists hold, not on
      the order they are listed in. */
  lemma {:induction false} MonthlyFiguresIgnoreOrder(
    ps: seq<Payment>, ps': seq<Payment>, es: seq<Expense>, es': seq<Expense>, m: int, y: int)
    requires multiset(ps) == multiset(ps') && multiset(es) == multiset(es')
    ensures MonthlyReceived(ps, m, y) == MonthlyReceived(ps', m, y)
    ensures MonthlyExpensesOf(es, m, y) == MonthlyExpensesOf(es', m, y)
    ensures MonthlyTeamPayouts(es, m, y) == MonthlyTeamPayouts(es', m, y)
  {
    FilterPermutation(ps, ps', PaymentInBucket(m, y));
    SumPermutation(Filter(ps, PaymentInBucket(m, y)), Filter(ps', PaymentInBucket(m, y)), PaymentAmount);
    FilterPermutation(es, es', ExpenseInBucket(m, y));
    SumPermutation(Filter(es, ExpenseInBucket(m, y)), Filter(es', ExpenseInBucket(m, y)), ExpenseAmount);
    FilterPermutation(es, es', TeamExpenseInBucket(m, y));
    SumPermutation(Filter(es, TeamExpenseInBucket(m, y)), Filter(es', TeamExpenseInBucket(m, y)), ExpenseAmount);
  }

  /** The card asks for the details of its own month, so the payments it is
      handed are already that month's: the month's receipts are the whole of
      `totalReceived`, the project's payments in that month. */
  lemma {:induction false} MonthlyReceivedIsTotalReceived(
    ps: seq<Payment>, payments: seq<Payment>, c: Id, pid: Id, m: int, y: int)
    requires m != 0 && y != 0
    requires multiset(ps) == multiset(Filter(payments, DetailPayment(c, pid, Some(m), Some(y))))
    ensures MonthlyReceived(ps, m, y) == Sum(ps, PaymentAmount)
    ensures MonthlyReceived(ps, m, y)
      == Sum(Filter(payments, Both(PaymentOfProject(c, pid), PaymentInBucket(m, y))), PaymentAmount)
  {
    var dp, pb := DetailPayment(c, pid, Some(m), Some(y)), PaymentInBucket(m, y);
    var both := Both(PaymentOfProject(c, pid), pb);
    var shown := Filter(payments, dp);
    forall x | x in payments ensures dp(x) <==> both(x) {
      assert dp(x) == (x.companyId == c && x.projectId == pid && x.month == m && x.year == y);
      assert both(x) == (PaymentOfProject(c, pid)(x) && pb(x));
    }
    forall x | x in ps ensures pb(x) {
      assert x in multiset(shown);
      var i :| 0 <= i < |shown| && shown[i] == x;
      assert dp(x);
    }
    FilterAll(ps, pb);
    SumPermutation(ps, shown, PaymentAmount);
    FilterCongruent(payments, dp, both);
  }

  /** The expenses the card is handed are all of the project's expenses, of
      every month, so its monthly expenses are the project's expenses in the
      selected month, and its team payouts the project's team expenses in
      that month. */
  lemma {:induction false} MonthlyExpensesOfProject(
    es: seq<Expense>, expenses: seq<Expense>, c: Id, pid: Id, m: int, y: int)
    requires multiset(es) == multiset(Filter(expenses, ExpenseOfProject(c, pid)))
    ensures MonthlyExpensesOf(es, m, y)
      == Sum(Filter(expenses, Both(ExpenseOfProject(c, pid), ExpenseInBucket(m, y))), ExpenseAmount)
    ensures MonthlyTeamPayouts(es, m, y)
      == Sum(Filter(expenses, Both(TeamExpenseOfProject(c, pid), ExpenseInBucket(m, y))), ExpenseAmount)
  {
    var spent := Filter(expenses, ExpenseOfProject(c, pid));
    FilterPermutation(es, spent, ExpenseInBucket(m, y));
    SumPermutation(Filter(es, ExpenseInBucket(m, y)), Filter(spent, ExpenseInBucket(m, y)), ExpenseAmount);
    FilterFilter(expenses, ExpenseOfProject(c, pid), ExpenseInBucket(m, y));
    FilterPermutation(es, spent, TeamExpenseInBucket(m, y));
    SumPermutation(Filter(es, TeamExpenseInBucket(m, y)), Filter(spent, TeamExpenseInBucket(m, y)), ExpenseAmount);
    FilterFilter(expenses, ExpenseOfProject(c, pid), TeamExpenseInBucket(m, y));
    FilterCongruent(expenses, Both(ExpenseOfProject(c, pid), TeamExpenseInBucket(m, y)),
                    Both(TeamExpenseOfProject(c, pid), ExpenseInBucket(m, y)));
  }

  /** `progress`: the share of the budget received, in percent, and 0 for a
      project without a positive budget. */
  function Progress(totalBudget: int, totalReceived: int): (r: real)
    ensures totalBudget <= 0 ==> r == 0.0
    ensures totalBudget > 0 ==> r * totalBudget as real == totalReceived as real * 100.0
  {
    if totalBudget > 0 then (totalReceived as real / totalBudget as real) * 100.0 else 0.0
  }

  /** Progress stays between 0 and 100 while no more than the budget has been
      received, and reaches 100 exactly when the whole budget has. */
  lemma ProgressBounds(totalBudget: int, totalReceived: int)
    requires totalBudget > 0 && 0 <= totalReceived
    ensures totalReceived <= totalBudget ==> 0.0 <= Progress(totalBudget, totalReceived) <= 100.0
    ensures Progress(totalBudget, totalReceived) >= 100.0 <==> totalReceived >= totalBudget
  {
    var r := Progress(totalBudget, totalReceived);
    var b := totalBudget as real;
    assert r * b == totalReceived as real * 100.0;
    if r > 100.0 {
      assert r * b > 100.0 * b;
    }
    if r < 100.0 {
      assert r * b < 100.0 * b;
    }
  }

  /** What the card shows once its details have loaded. */
  datatype CardFigures = CardFigures(
    currency: string,
    monthlyReceived: int,
    monthlyExpenses: int,
    monthlyTeamPayouts: int,
    netThisMonth: int,
    progress: real)

  /** The card for `project` in the selected month: nothing when the details
      could not be loaded, otherwise the figures computed from them. */
  function Card(project: Project, details: Result<ProjectDetails>, m: int, y: int): (card: Option<CardFigures>)
    ensures card.None? <==> details.Err?
    ensures card.Some? ==>
      var f := card.value;
      && f.currency != ""
      && (project.currency != "" ==> f.currency == project.currency)
      && (project.currency == "" ==> f.currency == "USD")
      && f.netThisMonth == f.monthlyReceived - f.monthlyExpenses
      && (project.totalBudget <= 0 ==> f.progress == 0.0)
      && ((forall e :: e in details.value.expenses ==> e.amount >= 0) ==>
            f.monthlyTeamPayouts <= f.monthlyExpenses)
  {
    match details
    case Err(_) => None
    case Ok(d) =>
      var received := MonthlyReceived(d.payments, m, y);
      var spent := MonthlyExpensesOf(d.expenses, m, y);
      TeamPayoutsWithinExpenses(d.expenses, m, y);
      Some(CardFigures(
        CurrencyOrUsd(project.currency),
        received,
        spent,
        MonthlyTeamPayouts(d.expenses, m, y),
        received - spent,
        Progress(project.totalBudget, d.totalReceived)))
  }
}
