/** The aggregation engine behind the dashboard and the project detail page:
    month totals, the per-project income/expense join, the team payout join,
    the most common currency and the six-month trend window.

    `$lookup` followed by `$unwind` is an inner join on the document id: a
    group whose id matches no document is dropped, and so is a group keyed by
    a missing team member.  The lookup is not scoped to the company. */
module Dashboard {
  import opened Outcome
  import opened Text
  import opened JsObject
  import opened Calendar
  import opened Access
  import opened Seqs
  import opened Records
  import opened Queries

  // ---------------------------------------------------------------- results

  /** One `projectProfitability` entry. */
  datatype ProjectRow = ProjectRow(
    projectId: Id, projectName: string, currency: string, income: int, expenses: int, profit: int)

  /** One trend entry: a month bucket (shown as a label) and its totals. */
  datatype TrendPoint = TrendPoint(bucket: MonthKey, income: int, expenses: int)

  /** One `teamPayoutDistribution` entry. */
  datatype PayoutSlice = PayoutSlice(name: string, amount: int, memberId: Id)

  datatype DashboardData = DashboardData(
    totalIncome: int,
    totalExpenses: int,
    netProfit: int,
    activeProjectsCount: nat,
    projectProfitability: seq<ProjectRow>,
    trend: seq<TrendPoint>,
    teamPayoutDistribution: seq<PayoutSlice>,
    defaultCurrency: string)

  /** One `monthlyBreakdown` entry. */
  datatype MonthTotal = MonthTotal(month: int, year: int, total: int)

  /** One `teamPayouts` entry of the project detail page. */
  datatype MemberPayout = MemberPayout(teamMemberId: Id, name: string, role: string, totalPaid: int, paymentCount: nat)

  datatype ProjectDetails = ProjectDetails(
    project: Project,
    payments: seq<Payment>,
    expenses: seq<Expense>,
    totalReceived: int,
    totalExpenses: int,
    netProfit: int,
    remaining: int,
    monthlyBreakdown: seq<MonthTotal>,
    teamPayouts: seq<MemberPayout>)

  // ------------------------------------------------------- per-project join

  /** The income groups joined with their project (`$lookup` + `$unwind`) and
      paired with the expense group of the same project, or 0 expenses when
      there is none. */
  function ProfitRows(incomeGroups: seq<Group<Id>>, expenseGroups: seq<Group<Id>>, projects: seq<Project>)
    : (rows: seq<ProjectRow>)
    ensures |rows| <= |incomeGroups|
    ensures forall i :: 0 <= i < |rows| ==> rows[i].profit == rows[i].income - rows[i].expenses
  {
    if incomeGroups == [] then []
    else
      var g := incomeGroups[0];
      var rest := ProfitRows(incomeGroups[1..], expenseGroups, projects);
      match Find(projects, Is(ProjectKey, g.key))
      case None => rest
      case Some(p) =>
        var expenses := TotalOrZero(FindGroup(expenseGroups, g.key));
        [ProjectRow(g.key, p.name, CurrencyOrUsd(p.currency), g.total, expenses, g.total - expenses)] + rest
  }

  /** Over income groups with distinct keys, every row is the income group of
      its project, the expense group of the same project (or 0) and the
      project found by id, with profit their difference. */
  lemma {:induction false} ProfitRowsSound(incomeGroups: seq<Group<Id>>, expenseGroups: seq<Group<Id>>, projects: seq<Project>)
    requires forall a, b :: 0 <= a < b < |incomeGroups| ==> incomeGroups[a].key != incomeGroups[b].key
    ensures forall r :: r in ProfitRows(incomeGroups, expenseGroups, projects) ==>
      && FindGroup(incomeGroups, r.projectId).Some?
      && r.income == FindGroup(incomeGroups, r.projectId).value.total
      && r.expenses == TotalOrZero(FindGroup(expenseGroups, r.projectId))
      && r.profit == r.income - r.expenses
      && Find(projects, Is(ProjectKey, r.projectId)).Some?
      && r.projectName == Find(projects, Is(ProjectKey, r.projectId)).value.name
      && r.currency == CurrencyOrUsd(Find(projects, Is(ProjectKey, r.projectId)).value.currency)
  {
    if incomeGroups != [] {
      var g := incomeGroups[0];
      var tail := incomeGroups[1..];
      assert forall a, b :: 0 <= a < b < |tail| ==> tail[a] == incomeGroups[a + 1] && tail[b] == incomeGroups[b + 1];
      ProfitRowsSound(tail, expenseGroups, projects);
      var rest := ProfitRows(tail, expenseGroups, projects);
      forall r | r in rest ensures FindGroup(incomeGroups, r.projectId) == FindGroup(tail, r.projectId) {
        var f := FindGroup(tail, r.projectId).value;
        var b :| 0 <= b < |tail| && tail[b] == f;
        assert incomeGroups[b + 1] == f;
      }
    }
  }

  /** Every income group whose project exists has a row. */
  lemma {:induction false} ProfitRowsComplete(incomeGroups: seq<Group<Id>>, expenseGroups: seq<Group<Id>>, projects: seq<Project>, i: nat)
    requires i < |incomeGroups|
    requires Find(projects, Is(ProjectKey, incomeGroups[i].key)).Some?
    ensures exists r :: r in ProfitRows(incomeGroups, expenseGroups, projects) && r.projectId == incomeGroups[i].key
  {
    if i > 0 {
      ProfitRowsComplete(incomeGroups[1..], expenseGroups, projects, i - 1);
      var r :| r in ProfitRows(incomeGroups[1..], expenseGroups, projects) && r.projectId == incomeGroups[i].key;
      assert r in ProfitRows(incomeGroups, expenseGroups, projects);
    } else {
      var rows := ProfitRows(incomeGroups, expenseGroups, projects);
      assert rows[0].projectId == incomeGroups[0].key;
    }
  }

  /** No project has two rows. */
  ghost predicate OneRowPerProject(rows: seq<ProjectRow>) {
    forall a, b :: 0 <= a < b < |rows| ==> rows[a].projectId != rows[b].projectId
  }

  /** Every row comes from one of the income groups. */
  lemma {:induction false} ProfitRowsKeys(incomeGroups: seq<Group<Id>>, expenseGroups: seq<Group<Id>>, projects: seq<Project>)
    ensures forall r :: r in ProfitRows(incomeGroups, expenseGroups, projects) ==>
      exists k :: 0 <= k < |incomeGroups| && incomeGroups[k].key == r.projectId
  {
    if incomeGroups != [] {
      var tail := incomeGroups[1..];
      ProfitRowsKeys(tail, expenseGroups, projects);
      var rest := ProfitRows(tail, expenseGroups, projects);
      forall r | r in ProfitRows(incomeGroups, expenseGroups, projects)
        ensures exists k :: 0 <= k < |incomeGroups| && incomeGroups[k].key == r.projectId
      {
        if r in rest {
          var k :| 0 <= k < |tail| && tail[k].key == r.projectId;
          assert incomeGroups[k + 1].key == r.projectId;
        } else {
          assert incomeGroups[0].key == r.projectId;
        }
      }
    }
  }

  /** Over income groups with distinct keys, no project has two rows. */
  lemma {:induction false} ProfitRowsDistinct(incomeGroups: seq<Group<Id>>, expenseGroups: seq<Group<Id>>, projects: seq<Project>)
    requires forall a, b :: 0 <= a < b < |incomeGroups| ==> incomeGroups[a].key != incomeGroups[b].key
    ensures OneRowPerProject(ProfitRows(incomeGroups, expenseGroups, projects))
  {
    if incomeGroups != [] {
      var g := incomeGroups[0];
      var tail := incomeGroups[1..];
      assert forall a, b :: 0 <= a < b < |tail| ==> tail[a] == incomeGroups[a + 1] && tail[b] == incomeGroups[b + 1];
      ProfitRowsDistinct(tail, expenseGroups, projects);
      var rest := ProfitRows(tail, expenseGroups, projects);
      var rows := ProfitRows(incomeGroups, expenseGroups, projects);
      if Find(projects, Is(ProjectKey, g.key)).Some? {
        assert rows == [rows[0]] + rest && rows[0].projectId == g.key;
        forall b | 0 < b < |rows| ensures rows[0].projectId != rows[b].projectId {
          var x := rest[b - 1];
          assert rows[b] == x && x in rest;
          ProfitRowsKeys(tail, expenseGroups, projects);
          var k :| 0 <= k < |tail| && tail[k].key == x.projectId;
          assert incomeGroups[k + 1].key == x.projectId;
        }
        forall a, b | 0 < a < b < |rows| ensures rows[a].projectId != rows[b].projectId {
          assert rows[a] == rest[a - 1] && rows[b] == rest[b - 1];
        }
      } else {
        assert rows == rest;
      }
    }
  }

  /** `projectProfitability` for company `c` and month (m, y). */
  function ProjectProfitability(payments: seq<Payment>, expenses: seq<Expense>, projects: seq<Project>, c: Id, m: int, y: int)
    : (rows: seq<ProjectRow>)
    ensures forall i :: 0 <= i < |rows| ==> rows[i].profit == rows[i].income - rows[i].expenses
  {
    ProfitRows(
      GroupBy(Filter(payments, PaymentInMonth(c, m, y)), PaymentProject, PaymentAmount),
      GroupBy(Filter(expenses, ExpenseInMonth(c, m, y)), ExpenseProject, ExpenseAmount),
      projects)
  }

  /** Every profitability row belongs to an existing project with at least
      one payment of the company in the month; its income is the sum of those
      payments, its expenses the sum of that project's expenses in the month
      (0 when it has none), and profit is their difference.  Every project
      with a payment in the month that exists has a row, so a project with
      expenses but no payment in the month has none. */
  lemma {:induction false} ProjectProfitabilitySpec(payments: seq<Payment>, expenses: seq<Expense>, projects: seq<Project>, c: Id, m: int, y: int)
    ensures var rows := ProjectProfitability(payments, expenses, projects, c, m, y);
      var mp := Filter(payments, PaymentInMonth(c, m, y));
      var me := Filter(expenses, ExpenseInMonth(c, m, y));
      && (forall r :: r in rows ==>
            && r.income == Sum(Filter(mp, Is(PaymentProject, r.projectId)), PaymentAmount)
            && |Filter(mp, Is(PaymentProject, r.projectId))| >= 1
            && r.expenses == Sum(Filter(me, Is(ExpenseProject, r.projectId)), ExpenseAmount)
            && r.profit == r.income - r.expenses
            && Find(projects, Is(ProjectKey, r.projectId)).Some?)
      && (forall k :: 0 <= k < |mp| && Find(projects, Is(ProjectKey, mp[k].projectId)).Some? ==>
            exists r :: r in rows && r.projectId == mp[k].projectId)
  {
    var mp := Filter(payments, PaymentInMonth(c, m, y));
    var me := Filter(expenses, ExpenseInMonth(c, m, y));
    var ig := GroupBy(mp, PaymentProject, PaymentAmount);
    var eg := GroupBy(me, ExpenseProject, ExpenseAmount);
    var rows := ProfitRows(ig, eg, projects);
    GroupBySpec(mp, PaymentProject, PaymentAmount);
    ProfitRowsSound(ig, eg, projects);
    forall r | r in rows
      ensures r.income == Sum(Filter(mp, Is(PaymentProject, r.projectId)), PaymentAmount)
      ensures |Filter(mp, Is(PaymentProject, r.projectId))| >= 1
      ensures r.expenses == Sum(Filter(me, Is(ExpenseProject, r.projectId)), ExpenseAmount)
    {
      FindGroupTotal(mp, PaymentProject, PaymentAmount, r.projectId);
      FindGroupCount(mp, PaymentProject, PaymentAmount, r.projectId);
      FindGroupTotal(me, ExpenseProject, ExpenseAmount, r.projectId);
    }
    forall k | 0 <= k < |mp| && Find(projects, Is(ProjectKey, mp[k].projectId)).Some?
      ensures exists r :: r in rows && r.projectId == mp[k].projectId
    {
      var i :| 0 <= i < |ig| && ig[i].key == PaymentProject(mp[k]);
      ProfitRowsComplete(ig, eg, projects, i);
    }
  }

  /** No project appears twice in `projectProfitability`: together with
      ProjectProfitabilitySpec, every existing project with a payment in the
      month appears exactly once. */
  lemma ProjectProfitabilityOnce(payments: seq<Payment>, expenses: seq<Expense>, projects: seq<Project>, c: Id, m: int, y: int)
    ensures OneRowPerProject(ProjectProfitability(payments, expenses, projects, c, m, y))
  {
    var mp := Filter(payments, PaymentInMonth(c, m, y));
    GroupBySpec(mp, PaymentProject, PaymentAmount);
    ProfitRowsDistinct(GroupBy(mp, PaymentProject, PaymentAmount),
      GroupBy(Filter(expenses, ExpenseInMonth(c, m, y)), ExpenseProject, ExpenseAmount), projects);
  }

  // ----------------------------------------------------------- member joins

  /** A payout group joined with its team member. */
  datatype MemberTotal = MemberTotal(memberId: Id, member: TeamMember, total: int, count: nat)

  /** Groups keyed by `teamMemberId` joined with the member (`$lookup` +
      `$unwind`): a group without a member id, or whose member no longer
      exists, is dropped. */
  function JoinMembers(groups: seq<Group<Option<Id>>>, members: seq<TeamMember>): (js: seq<MemberTotal>)
    ensures |js| <= |groups|
    ensures forall j :: 0 <= j < |js| ==> js[j].member in members && js[j].member.id == js[j].memberId
  {
    if groups == [] then []
    else
      var g := groups[0];
      var rest := JoinMembers(groups[1..], members);
      if g.key.None? then rest
      else
        match Find(members, Is(MemberKey, g.key.value))
        case None => rest
        case Some(tm) =>
          assert MemberKey(tm) == g.key.value;
          var js := [MemberTotal(g.key.value, tm, g.total, g.count)] + rest;
          assert forall j :: 1 <= j < |js| ==> js[j] == rest[j - 1];
          js
  }

  /** Over groups with distinct keys, every joined entry carries the total
      and count of its member's group and the member found by id; every group
      naming an existing member is joined. */
  lemma JoinMembersSpec(groups: seq<Group<Option<Id>>>, members: seq<TeamMember>)
    requires forall a, b :: 0 <= a < b < |groups| ==> groups[a].key != groups[b].key
    ensures var js := JoinMembers(groups, members);
      && (forall t :: t in js ==>
            && FindGroup(groups, Some(t.memberId)).Some?
            && t.total == FindGroup(groups, Some(t.memberId)).value.total
            && t.count == FindGroup(groups, Some(t.memberId)).value.count
            && Find(members, Is(MemberKey, t.memberId)) == Some(t.member))
      && (forall g :: g in groups && g.key.Some? && Find(members, Is(MemberKey, g.key.value)).Some? ==>
            exists t :: t in js && t.memberId == g.key.value)
  {
    JoinMembersSound(groups, members);
    JoinMembersComplete(groups, members);
  }

  /** Every joined entry is its member's group, with the member found by id. */
  lemma {:induction false} JoinMembersSound(groups: seq<Group<Option<Id>>>, members: seq<TeamMember>)
    requires forall a, b :: 0 <= a < b < |groups| ==> groups[a].key != groups[b].key
    ensures forall t :: t in JoinMembers(groups, members) ==>
      && FindGroup(groups, Some(t.memberId)).Some?
      && t.total == FindGroup(groups, Some(t.memberId)).value.total
      && t.count == FindGroup(groups, Some(t.memberId)).value.count
      && Find(members, Is(MemberKey, t.memberId)) == Some(t.member)
  {
    if groups != [] {
      var g := groups[0];
      var tail := groups[1..];
      assert forall a, b :: 0 <= a < b < |tail| ==> tail[a].key == groups[a + 1].key && tail[b].key == groups[b + 1].key;
      JoinMembersSound(tail, members);
      var rest := JoinMembers(tail, members);
      forall t | t in rest ensures FindGroup(groups, Some(t.memberId)) == FindGroup(tail, Some(t.memberId)) {
        var f := FindGroup(tail, Some(t.memberId)).value;
        var b :| 0 <= b < |tail| && tail[b] == f;
        assert groups[b + 1] == f;
        assert g.key != Some(t.memberId);
      }
    }
  }

  /** No member is joined twice. */
  ghost predicate OneEntryPerMember(js: seq<MemberTotal>) {
    forall a, b :: 0 <= a < b < |js| ==> js[a].memberId != js[b].memberId
  }

  /** Every joined entry comes from one of the groups. */
  lemma {:induction false} JoinMembersKeys(groups: seq<Group<Option<Id>>>, members: seq<TeamMember>)
    ensures forall t :: t in JoinMembers(groups, members) ==>
      exists k :: 0 <= k < |groups| && groups[k].key == Some(t.memberId)
  {
    if groups != [] {
      var tail := groups[1..];
      JoinMembersKeys(tail, members);
      var rest := JoinMembers(tail, members);
      forall t | t in JoinMembers(groups, members)
        ensures exists k :: 0 <= k < |groups| && groups[k].key == Some(t.memberId)
      {
        if t in rest {
          var k :| 0 <= k < |tail| && tail[k].key == Some(t.memberId);
          assert groups[k + 1].key == Some(t.memberId);
        } else {
          assert groups[0].key == Some(t.memberId);
        }
      }
    }
  }

  /** Over groups with distinct keys, no member is joined twice. */
  lemma {:induction false} JoinMembersDistinct(groups: seq<Group<Option<Id>>>, members: seq<TeamMember>)
    requires forall a, b :: 0 <= a < b < |groups| ==> groups[a].key != groups[b].key
    ensures OneEntryPerMember(JoinMembers(groups, members))
  {
    if groups != [] {
      var g := groups[0];
      var tail := groups[1..];
      assert forall a, b :: 0 <= a < b < |tail| ==> tail[a] == groups[a + 1] && tail[b] == groups[b + 1];
      JoinMembersDistinct(tail, members);
      var rest := JoinMembers(tail, members);
      var js := JoinMembers(groups, members);
      if g.key.Some? && Find(members, Is(MemberKey, g.key.value)).Some? {
        assert js == [js[0]] + rest && js[0].memberId == g.key.value;
        forall b | 0 < b < |js| ensures js[0].memberId != js[b].memberId {
          var x := rest[b - 1];
          assert js[b] == x && x in rest;
          JoinMembersKeys(tail, members);
          var k :| 0 <= k < |tail| && tail[k].key == Some(x.memberId);
          assert groups[k + 1].key == Some(x.memberId);
        }
        forall a, b | 0 < a < b < |js| ensures js[a].memberId != js[b].memberId {
          assert js[a] == rest[a - 1] && js[b] == rest[b - 1];
        }
      } else {
        assert js == rest;
      }
    }
  }

  /** Every group naming an existing member is joined. */
  lemma {:induction false} JoinMembersComplete(groups: seq<Group<Option<Id>>>, members: seq<TeamMember>)
    ensures forall g :: g in groups && g.key.Some? && Find(members, Is(MemberKey, g.key.value)).Some? ==>
      exists t :: t in JoinMembers(groups, members) && t.memberId == g.key.value
  {
    if groups != [] {
      var g := groups[0];
      var tail := groups[1..];
      JoinMembersComplete(tail, members);
      var js := JoinMembers(groups, members);
      var rest := JoinMembers(tail, members);
      assert forall t :: t in rest ==> t in js;
      forall g' | g' in groups && g' != g ensures g' in tail {
        var b :| 0 <= b < |groups| && groups[b] == g';
        assert tail[b - 1] == g';
      }
    }
  }

  /** A member's payout total is the sum, and its count the number, of the
      given team expenses that name that member, at least one; every named
      member that exists is joined. */
  lemma MemberTotalsSpec(teamExpenses: seq<Expense>, members: seq<TeamMember>)
    ensures var js := JoinMembers(GroupBy(teamExpenses, ExpenseMember, ExpenseAmount), members);
      && (forall t :: t in js ==>
            && t.total == Sum(Filter(teamExpenses, Is(ExpenseMember, Some(t.memberId))), ExpenseAmount)
            && t.count == |Filter(teamExpenses, Is(ExpenseMember, Some(t.memberId)))|
            && t.count >= 1
            && Find(members, Is(MemberKey, t.memberId)) == Some(t.member))
      && (forall k :: 0 <= k < |teamExpenses| && teamExpenses[k].teamMemberId.Some?
                      && Find(members, Is(MemberKey, teamExpenses[k].teamMemberId.value)).Some? ==>
            exists t :: t in js && t.memberId == teamExpenses[k].teamMemberId.value)
  {
    MemberTotalsSound(teamExpenses, members);
    MemberTotalsComplete(teamExpenses, members);
  }

  /** Each joined member carries the sum and the number of its expenses. */
  lemma {:induction false} MemberTotalsSound(teamExpenses: seq<Expense>, members: seq<TeamMember>)
    ensures forall t :: t in JoinMembers(GroupBy(teamExpenses, ExpenseMember, ExpenseAmount), members) ==>
      && t.total == Sum(Filter(teamExpenses, Is(ExpenseMember, Some(t.memberId))), ExpenseAmount)
      && t.count == |Filter(teamExpenses, Is(ExpenseMember, Some(t.memberId)))|
      && t.count >= 1
      && Find(members, Is(MemberKey, t.memberId)) == Some(t.member)
  {
    var gs := GroupBy(teamExpenses, ExpenseMember, ExpenseAmount);
    var js := JoinMembers(gs, members);
    GroupBySpec(teamExpenses, ExpenseMember, ExpenseAmount);
    JoinMembersSound(gs, members);
    forall t | t in js
      ensures t.total == Sum(Filter(teamExpenses, Is(ExpenseMember, Some(t.memberId))), ExpenseAmount)
      ensures t.count == |Filter(teamExpenses, Is(ExpenseMember, Some(t.memberId)))| >= 1
    {
      FindGroupTotal(teamExpenses, ExpenseMember, ExpenseAmount, Some(t.memberId));
      FindGroupCount(teamExpenses, ExpenseMember, ExpenseAmount, Some(t.memberId));
    }
  }

  /** Every existing member named by an expense is joined. */
  lemma {:induction false} MemberTotalsComplete(teamExpenses: seq<Expense>, members: seq<TeamMember>)
    ensures forall k :: 0 <= k < |teamExpenses| && teamExpenses[k].teamMemberId.Some?
                        && Find(members, Is(MemberKey, teamExpenses[k].teamMemberId.value)).Some? ==>
      exists t :: t in JoinMembers(GroupBy(teamExpenses, ExpenseMember, ExpenseAmount), members)
                  && t.memberId == teamExpenses[k].teamMemberId.value
  {
    var gs := GroupBy(teamExpenses, ExpenseMember, ExpenseAmount);
    GroupBySpec(teamExpenses, ExpenseMember, ExpenseAmount);
    JoinMembersComplete(gs, members);
    forall k | 0 <= k < |teamExpenses| && teamExpenses[k].teamMemberId.Some?
                && Find(members, Is(MemberKey, teamExpenses[k].teamMemberId.value)).Some?
      ensures exists t :: t in JoinMembers(gs, members) && t.memberId == teamExpenses[k].teamMemberId.value
    {
      var i :| 0 <= i < |gs| && gs[i].key == ExpenseMember(teamExpenses[k]);
      assert gs[i] in gs;
    }
  }

  /** The slice of one joined member. */
  function SliceOf(t: MemberTotal): PayoutSlice {
    PayoutSlice(t.member.name, t.total, t.memberId)
  }

  function Slices(js: seq<MemberTotal>): (slices: seq<PayoutSlice>)
    ensures |slices| == |js|
    ensures forall j :: 0 <= j < |js| ==> slices[j] == SliceOf(js[j])
  {
    if js == [] then [] else [SliceOf(js[0])] + Slices(js[1..])
  }

  /** Some stored team member has this id and this name. */
  ghost predicate MemberNamed(members: seq<TeamMember>, id: Id, name: string) {
    exists tm :: tm in members && tm.id == id && tm.name == name
  }

  /** `teamPayoutDistribution` for company `c` and month (m, y). */
  function TeamPayoutDistribution(expenses: seq<Expense>, members: seq<TeamMember>, c: Id, m: int, y: int)
    : (slices: seq<PayoutSlice>)
    ensures forall i :: 0 <= i < |slices| ==> MemberNamed(members, slices[i].memberId, slices[i].name)
  {
    Slices(JoinMembers(GroupBy(Filter(expenses, TeamExpenseInMonth(c, m, y)), ExpenseMember, ExpenseAmount), members))
  }

  /** Each slice is an existing member with at least one team expense of the
      company in the month, carrying that member's name and the sum of those
      expenses; every existing member named by such an expense has a slice. */
  lemma {:induction false} TeamPayoutDistributionSpec(expenses: seq<Expense>, members: seq<TeamMember>, c: Id, m: int, y: int)
    ensures var slices := TeamPayoutDistribution(expenses, members, c, m, y);
      var te := Filter(expenses, TeamExpenseInMonth(c, m, y));
      && (forall sl :: sl in slices ==>
            && sl.amount == Sum(Filter(te, Is(ExpenseMember, Some(sl.memberId))), ExpenseAmount)
            && |Filter(te, Is(ExpenseMember, Some(sl.memberId)))| >= 1
            && Find(members, Is(MemberKey, sl.memberId)).Some?
            && Find(members, Is(MemberKey, sl.memberId)).value.name == sl.name)
      && (forall k :: 0 <= k < |te| && te[k].teamMemberId.Some?
                      && Find(members, Is(MemberKey, te[k].teamMemberId.value)).Some? ==>
            exists sl :: sl in slices && sl.memberId == te[k].teamMemberId.value)
  {
    var te := Filter(expenses, TeamExpenseInMonth(c, m, y));
    SlicesSound(te, members);
    SlicesComplete(te, members);
  }

  /** No member has two slices. */
  ghost predicate OneSlicePerMember(slices: seq<PayoutSlice>) {
    forall a, b :: 0 <= a < b < |slices| ==> slices[a].memberId != slices[b].memberId
  }

  /** No member appears twice in `teamPayoutDistribution`. */
  lemma TeamPayoutDistributionOnce(expenses: seq<Expense>, members: seq<TeamMember>, c: Id, m: int, y: int)
    ensures OneSlicePerMember(TeamPayoutDistribution(expenses, members, c, m, y))
  {
    var te := Filter(expenses, TeamExpenseInMonth(c, m, y));
    GroupBySpec(te, ExpenseMember, ExpenseAmount);
    JoinMembersDistinct(GroupBy(te, ExpenseMember, ExpenseAmount), members);
  }

  /** Each slice carries its member's name, total and expense count. */
  lemma {:induction false} SlicesSound(te: seq<Expense>, members: seq<TeamMember>)
    ensures forall sl :: sl in Slices(JoinMembers(GroupBy(te, ExpenseMember, ExpenseAmount), members)) ==>
      && sl.amount == Sum(Filter(te, Is(ExpenseMember, Some(sl.memberId))), ExpenseAmount)
      && |Filter(te, Is(ExpenseMember, Some(sl.memberId)))| >= 1
      && Find(members, Is(MemberKey, sl.memberId)).Some?
      && Find(members, Is(MemberKey, sl.memberId)).value.name == sl.name
  {
    var js := JoinMembers(GroupBy(te, ExpenseMember, ExpenseAmount), members);
    var slices := Slices(js);
    MemberTotalsSound(te, members);
    forall sl | sl in slices
      ensures sl.amount == Sum(Filter(te, Is(ExpenseMember, Some(sl.memberId))), ExpenseAmount)
      ensures |Filter(te, Is(ExpenseMember, Some(sl.memberId)))| >= 1
      ensures Find(members, Is(MemberKey, sl.memberId)).Some?
      ensures Find(members, Is(MemberKey, sl.memberId)).value.name == sl.name
    {
      var j :| 0 <= j < |slices| && slices[j] == sl;
      assert js[j] in js;
    }
  }

  /** Every existing member named by an expense has a slice. */
  lemma {:induction false} SlicesComplete(te: seq<Expense>, members: seq<TeamMember>)
    ensures forall k :: 0 <= k < |te| && te[k].teamMemberId.Some?
                        && Find(members, Is(MemberKey, te[k].teamMemberId.value)).Some? ==>
      exists sl :: sl in Slices(JoinMembers(GroupBy(te, ExpenseMember, ExpenseAmount), members))
                   && sl.memberId == te[k].teamMemberId.value
  {
    var js := JoinMembers(GroupBy(te, ExpenseMember, ExpenseAmount), members);
    var slices := Slices(js);
    forall k | 0 <= k < |te| && te[k].teamMemberId.Some?
                && Find(members, Is(MemberKey, te[k].teamMemberId.value)).Some?
      ensures exists sl :: sl in slices && sl.memberId == te[k].teamMemberId.value
    {
      MemberTotalsComplete(te, members);
      var t :| t in js && t.memberId == te[k].teamMemberId.value;
      var j :| 0 <= j < |js| && js[j] == t;
      assert slices[j] == SliceOf(t) && slices[j] in slices;
    }
  }

  // ------------------------------------------------------- default currency

  /** How many of `projects` are counted under currency `k`. */
  function CurrencyCount(projects: seq<Project>, k: string): nat {
    |Filter(projects, Is(ProjectCurrency, k))|
  }

  /** The `currencyCounts` object, built project by project: the currency of
      each project gains one, every currency counting as an own key (names
      inherited from `Object.prototype` behave otherwise in the source; for
      `__proto__` see `CurrencyCountsAsWritten`). */
  function CurrencyCounts(projects: seq<Project>): map<string, nat> {
    if projects == [] then map[]
    else Tally(CurrencyCounts(projects[..|projects| - 1]), ProjectCurrency(projects[|projects| - 1]))
  }

  /** `currencyCounts[curr] = (currencyCounts[curr] || 0) + 1`. */
  function Tally(counts: map<string, nat>, curr: string): map<string, nat> {
    counts[curr := (if curr in counts then counts[curr] else 0) + 1]
  }

  /** The object has an entry exactly for the currencies seen, and each entry
      is the number of projects counted under that currency. */
  lemma {:induction false} CurrencyCountsSpec(projects: seq<Project>, k: string)
    ensures k in CurrencyCounts(projects) <==> k in Keys(projects, ProjectCurrency)
    ensures k in CurrencyCounts(projects) ==> CurrencyCounts(projects)[k] == CurrencyCount(projects, k)
  {
    if projects != [] {
      var init := projects[..|projects| - 1];
      var p := projects[|projects| - 1];
      assert projects == init + [p];
      CurrencyCountsSpec(init, k);
      KeysSnoc(init, p, ProjectCurrency);
      FilterAppend(init, [p], Is(ProjectCurrency, k));
      if k !in CurrencyCounts(init) {
        FilterNoKey(init, ProjectCurrency, k);
      }
    }
  }

  /** `keys.reduce((a, b) => counts[a] > counts[b] ? a : b)` over the distinct
      keys of an object: a left fold that keeps the running winner only while
      it is strictly ahead, so the winner has the highest count and every key
      after it has a strictly lower one. */
  function ReduceMode(keys: seq<string>, counts: map<string, nat>): (r: string)
    requires |keys| > 0
    requires forall i :: 0 <= i < |keys| ==> keys[i] in counts
    requires forall i, j :: 0 <= i < j < |keys| ==> keys[i] != keys[j]
    ensures r in keys && r in counts
    ensures forall i :: 0 <= i < |keys| ==> counts[keys[i]] <= counts[r]
    ensures forall d, i :: 0 <= d < i < |keys| && keys[d] == r ==> counts[keys[i]] < counts[r]
    decreases |keys|
  {
    if |keys| == 1 then keys[0]
    else
      var init := keys[..|keys| - 1];
      assert forall i :: 0 <= i < |init| ==> init[i] == keys[i];
      var a := ReduceMode(init, counts);
      var b := keys[|keys| - 1];
      if counts[a] > counts[b] then a else b
  }

  /** `Object.keys(currencyCounts)`. */
  function CurrencyKeys(projects: seq<Project>): seq<string> {
    ObjectKeys(Keys(projects, ProjectCurrency))
  }

  /** `Object.keys(currencyCounts)` lists each currency once and every
      project's currency, each counted under its number of projects, at least
      one. */
  lemma CurrencyKeysSpec(projects: seq<Project>)
    ensures var ks := CurrencyKeys(projects);
      && (forall i, j :: 0 <= i < j < |ks| ==> ks[i] != ks[j])
      && (forall i :: 0 <= i < |ks| ==>
            && ks[i] in CurrencyCounts(projects)
            && CurrencyCounts(projects)[ks[i]] == CurrencyCount(projects, ks[i])
            && CurrencyCount(projects, ks[i]) >= 1)
      && (forall k :: 0 <= k < |projects| ==> ProjectCurrency(projects[k]) in ks)
  {
    var keys := Keys(projects, ProjectCurrency);
    var ks := CurrencyKeys(projects);
    ObjectKeysPermutation(keys);
    PermutationDistinct(keys, ks);
    forall i | 0 <= i < |ks|
      ensures ks[i] in CurrencyCounts(projects)
      ensures CurrencyCounts(projects)[ks[i]] == CurrencyCount(projects, ks[i])
      ensures CurrencyCount(projects, ks[i]) >= 1
    {
      CountedKeyAt(projects, ks[i]);
    }
    forall k | 0 <= k < |projects| ensures ProjectCurrency(projects[k]) in ks {
      assert ProjectCurrency(projects[k]) in keys;
      assert ProjectCurrency(projects[k]) in multiset(keys);
    }
  }

  /** A key listed by `Object.keys` is a counted currency. */
  lemma CountedKeyAt(projects: seq<Project>, k: string)
    requires k in multiset(Keys(projects, ProjectCurrency))
    ensures k in CurrencyCounts(projects) && CurrencyCounts(projects)[k] == CurrencyCount(projects, k)
    ensures CurrencyCount(projects, k) >= 1
  {
    var keys := Keys(projects, ProjectCurrency);
    var j :| 0 <= j < |keys| && keys[j] == k;
    CountedKeys(projects);
    KeysSound(projects, ProjectCurrency, j);
    var w :| 0 <= w < |projects| && ProjectCurrency(projects[w]) == k;
    FilterKeeps(projects, Is(ProjectCurrency, k), w);
  }

  /** `defaultCurrency` as a value: USD for no projects, otherwise the
      reduction over `Object.keys` of the counts. */
  function ModeCurrency(projects: seq<Project>): (r: string)
    ensures projects == [] ==> r == "USD"
    ensures projects != [] ==> r in Keys(projects, ProjectCurrency)
  {
    var keys := CurrencyKeys(projects);
    CurrencyKeysSpec(projects);
    ObjectKeysPermutation(Keys(projects, ProjectCurrency));
    assert projects == [] ==> |keys| == |multiset(keys)| == 0;
    if keys == [] then "USD"
    else
      var r := ReduceMode(keys, CurrencyCounts(projects));
      assert r in multiset(Keys(projects, ProjectCurrency));
      r
  }

  /** Every currency seen has an entry, holding its count. */
  lemma {:induction false} CountedKeys(projects: seq<Project>)
    ensures forall i :: 0 <= i < |Keys(projects, ProjectCurrency)| ==>
      var k := Keys(projects, ProjectCurrency)[i];
      k in CurrencyCounts(projects) && CurrencyCounts(projects)[k] == CurrencyCount(projects, k)
  {
    forall i | 0 <= i < |Keys(projects, ProjectCurrency)|
      ensures var k := Keys(projects, ProjectCurrency)[i];
        k in CurrencyCounts(projects) && CurrencyCounts(projects)[k] == CurrencyCount(projects, k)
    {
      CurrencyCountsSpec(projects, Keys(projects, ProjectCurrency)[i]);
    }
  }

  /** The default currency is USD when there are no projects; otherwise it is
      the currency of at least one project (an absent currency counting as
      USD), no currency is counted more often, and among currencies counted
      as often it is the one listed last by `Object.keys`: every currency
      listed after it is counted strictly less often. */
  lemma {:induction false} ModeCurrencySpec(projects: seq<Project>)
    ensures projects == [] ==> ModeCurrency(projects) == "USD"
    ensures projects != [] ==>
      var r := ModeCurrency(projects);
      var keys := CurrencyKeys(projects);
      && CurrencyCount(projects, r) >= 1
      && (forall k :: 0 <= k < |projects| ==>
            CurrencyCount(projects, ProjectCurrency(projects[k])) <= CurrencyCount(projects, r))
      && (forall d, i :: 0 <= d < i < |keys| && keys[d] == r ==>
            CurrencyCount(projects, keys[i]) < CurrencyCount(projects, r))
  {
    if projects != [] {
      ModeCurrencyMost(projects);
      ModeCurrencyLastOfTies(projects);
    }
  }

  /** No project's currency is counted more often than the reduction's pick,
      and the pick is counted at least once. */
  lemma {:induction false} ModeCurrencyMost(projects: seq<Project>)
    requires projects != []
    ensures CurrencyCount(projects, ModeCurrency(projects)) >= 1
    ensures forall k :: 0 <= k < |projects| ==>
      CurrencyCount(projects, ProjectCurrency(projects[k])) <= CurrencyCount(projects, ModeCurrency(projects))
  {
    var keys := CurrencyKeys(projects);
    var counts := CurrencyCounts(projects);
    CurrencyKeysSpec(projects);
    assert ProjectCurrency(projects[0]) in keys;
    var r := ReduceMode(keys, counts);
    assert ModeCurrency(projects) == r;
    var j :| 0 <= j < |keys| && keys[j] == r;
    forall k | 0 <= k < |projects|
      ensures CurrencyCount(projects, ProjectCurrency(projects[k])) <= CurrencyCount(projects, r)
    {
      var i :| 0 <= i < |keys| && keys[i] == ProjectCurrency(projects[k]);
      assert counts[keys[i]] <= counts[r];
    }
  }

  /** Every currency listed after the pick is counted strictly less often. */
  lemma {:induction false} ModeCurrencyLastOfTies(projects: seq<Project>)
    requires projects != []
    ensures var keys := CurrencyKeys(projects);
      forall d, i :: 0 <= d < i < |keys| && keys[d] == ModeCurrency(projects) ==>
        CurrencyCount(projects, keys[i]) < CurrencyCount(projects, ModeCurrency(projects))
  {
    var keys := CurrencyKeys(projects);
    var counts := CurrencyCounts(projects);
    CurrencyKeysSpec(projects);
    assert ProjectCurrency(projects[0]) in keys;
    var r := ReduceMode(keys, counts);
    assert ModeCurrency(projects) == r;
    var j :| 0 <= j < |keys| && keys[j] == r;
    forall d, i | 0 <= d < i < |keys| && keys[d] == r
      ensures CurrencyCount(projects, keys[i]) < CurrencyCount(projects, r)
    {
      assert counts[keys[i]] < counts[r];
    }
  }

  /** Two keys counted equally: the reduction keeps the later one. */
  lemma ReduceModeTie(keys: seq<string>, counts: map<string, nat>)
    requires |keys| == 2 && keys[0] != keys[1]
    requires keys[0] in counts && keys[1] in counts && counts[keys[0]] == counts[keys[1]]
    ensures ReduceMode(keys, counts) == keys[1]
  {
    assert keys[..1] == [keys[0]];
  }

  /** Two projects of different currencies: each is counted once. */
  lemma {:induction false} CountsOfTwo(p: Project, q: Project)
    requires ProjectCurrency(p) != ProjectCurrency(q)
    ensures Keys([p, q], ProjectCurrency) == [ProjectCurrency(p), ProjectCurrency(q)]
    ensures var counts := CurrencyCounts([p, q]);
      && ProjectCurrency(p) in counts && counts[ProjectCurrency(p)] == 1
      && ProjectCurrency(q) in counts && counts[ProjectCurrency(q)] == 1
  {
    var ps := [p, q];
    assert ps[..1] == [p] && [p][..0] == [];
    assert Keys([p], ProjectCurrency) == [ProjectCurrency(p)];
    assert CurrencyCounts([p]) == Tally(CurrencyCounts([]), ProjectCurrency(p));
    assert CurrencyCounts(ps) == Tally(CurrencyCounts([p]), ProjectCurrency(q));
  }

  /** Two projects of different currencies tie at one each, so the
      reduction picks whichever `Object.keys` lists second. */
  lemma {:induction false} ModeOfTwo(p: Project, q: Project)
    requires ProjectCurrency(p) != ProjectCurrency(q)
    ensures |ObjectKeys([ProjectCurrency(p), ProjectCurrency(q)])| == 2
    ensures ModeCurrency([p, q]) == ObjectKeys([ProjectCurrency(p), ProjectCurrency(q)])[1]
  {
    TwoKeysTie(p, q);
    ModeOfTie([p, q]);
  }

  /** Two listed currencies counted equally: the default is the second. */
  lemma ModeOfTie(projects: seq<Project>)
    requires var ks, counts := CurrencyKeys(projects), CurrencyCounts(projects);
      && |ks| == 2 && ks[0] != ks[1]
      && ks[0] in counts && ks[1] in counts && counts[ks[0]] == counts[ks[1]]
    ensures ModeCurrency(projects) == CurrencyKeys(projects)[1]
  {
    ReduceModeTie(CurrencyKeys(projects), CurrencyCounts(projects));
  }

  /** Two projects of different currencies: `Object.keys` lists two keys,
      both counted, and counted equally. */
  lemma {:induction false} TwoKeysTie(p: Project, q: Project)
    requires ProjectCurrency(p) != ProjectCurrency(q)
    ensures CurrencyKeys([p, q]) == ObjectKeys([ProjectCurrency(p), ProjectCurrency(q)])
    ensures var ks, counts := CurrencyKeys([p, q]), CurrencyCounts([p, q]);
      && |ks| == 2 && ks[0] != ks[1]
      && ks[0] in counts && ks[1] in counts && counts[ks[0]] == counts[ks[1]]
  {
    var a, b := ProjectCurrency(p), ProjectCurrency(q);
    CountsOfTwo(p, q);
    ObjectKeysPermutation([a, b]);
    PermutationOfTwo(ObjectKeys([a, b]), a, b);
  }

  /** A tie between two currency codes counted once each: the one seen
      second wins. */
  lemma ModeCurrencyTieGoesLater(p: Project, q: Project)
    requires p.currency == "EUR" && q.currency == "GBP"
    ensures ModeCurrency([p, q]) == "GBP"
  {
    var a, b := ProjectCurrency(p), ProjectCurrency(q);
    assert a == "EUR" && b == "GBP";
    assert !IsDigit(a[0]) && !IsDigit(b[0]);
    ObjectKeysPlain([a, b]);
    ModeOfTwo(p, q);
  }

  /** A tie between a currency code and an array-index string (the update
      path runs no enum validator, so any string can be stored): `Object.keys`
      lists "1" first, so the code seen first wins. */
  lemma ModeCurrencyIndexKeyFirst(p: Project, q: Project)
    requires p.currency == "USD" && q.currency == "1"
    ensures ModeCurrency([p, q]) == "USD"
  {
    assert ProjectCurrency(p) == "USD" && ProjectCurrency(q) == "1";
    ModeOfTwo(p, q);
    IndexKeyListedFirst();
  }

  /** Counting one more project adds one to its currency's entry, and adds
      the currency to the keys when it is new. */
  lemma CountStep(projects: seq<Project>, n: nat)
    requires n < |projects|
    ensures var keys := Keys(projects[..n], ProjectCurrency);
      var counts := CurrencyCounts(projects[..n]);
      var curr := ProjectCurrency(projects[n]);
      && Keys(projects[..n + 1], ProjectCurrency) == (if curr in keys then keys else keys + [curr])
      && CurrencyCounts(projects[..n + 1]) == Tally(counts, curr)
  {
    var next := projects[..n + 1];
    assert next == projects[..n] + [projects[n]];
    assert next[..|next| - 1] == projects[..n] && next[|next| - 1] == projects[n];
    KeysSnoc(projects[..n], projects[n], ProjectCurrency);
  }

  /** The `forEach` that fills `currencyCounts`: the object's own keys in the
      order they were added, and the count under each. */
  method CountCurrencies(projects: seq<Project>) returns (keys: seq<string>, counts: map<string, nat>)
    ensures keys == Keys(projects, ProjectCurrency)
    ensures counts == CurrencyCounts(projects)
  {
    keys, counts := [], map[];
    var n := 0;
    while n < |projects|
      invariant 0 <= n <= |projects|
      invariant keys == Keys(projects[..n], ProjectCurrency)
      invariant counts == CurrencyCounts(projects[..n])
    {
      CountStep(projects, n);
      var curr := ProjectCurrency(projects[n]);
      counts := Tally(counts, curr);
      if curr !in keys {
        keys := keys + [curr];
      }
      n := n + 1;
    }
    assert projects[..n] == projects;
  }

  /** `defaultCurrency`: count with the loop, list the keys as `Object.keys`
      does, then reduce. */
  method DefaultCurrency(projects: seq<Project>) returns (currency: string)
    ensures currency == ModeCurrency(projects)
  {
    var added, counts := CountCurrencies(projects);
    var keys := ObjectKeys(added);
    CurrencyKeysSpec(projects);
    if |keys| > 0 {
      currency := ReduceMode(keys, counts);
    } else {
      currency := "USD";
    }
  }

  // ------------------------------------------ the `__proto__` name as written

  /** Whether counting a project's currency makes an own key of the plain
      `{}`. For `__proto__` it does not: the count expression reads the
      inherited prototype object and evaluates to the string
      "[object Object]1", and the `__proto__` setter ignores a value that is
      not an object. */
  predicate SetsOwnKey(p: Project) {
    ProjectCurrency(p) != "__proto__"
  }

  /** One step of the `forEach` as written, for the `__proto__` name. */
  function TallyAsWritten(counts: map<string, nat>, curr: string): map<string, nat> {
    if curr == "__proto__" then counts else Tally(counts, curr)
  }

  /** The counts object the `forEach` builds as written. */
  function CurrencyCountsAsWritten(projects: seq<Project>): map<string, nat> {
    if projects == [] then map[]
    else TallyAsWritten(CurrencyCountsAsWritten(projects[..|projects| - 1]), ProjectCurrency(projects[|projects| - 1]))
  }

  /** The own keys the `forEach` adds as written, in the order it adds them. */
  function AddedAsWritten(projects: seq<Project>): seq<string> {
    if projects == [] then []
    else
      var ks := AddedAsWritten(projects[..|projects| - 1]);
      var c := ProjectCurrency(projects[|projects| - 1]);
      if c == "__proto__" || c in ks then ks else ks + [c]
  }

  /** Filtering a sequence that ends in `p`. */
  lemma FilterSnoc(init: seq<Project>, p: Project)
    ensures Filter(init + [p], SetsOwnKey) == Filter(init, SetsOwnKey) + (if SetsOwnKey(p) then [p] else [])
  {
    FilterAppend(init, [p], SetsOwnKey);
    assert [p][1..] == [];
  }

  /** As written, the loop counts and lists the projects whose currency is not
      `__proto__`, and only those. */
  lemma {:induction false} AsWrittenSkipsProto(projects: seq<Project>)
    ensures CurrencyCountsAsWritten(projects) == CurrencyCounts(Filter(projects, SetsOwnKey))
    ensures AddedAsWritten(projects) == Keys(Filter(projects, SetsOwnKey), ProjectCurrency)
  {
    if projects != [] {
      var init := projects[..|projects| - 1];
      var p := projects[|projects| - 1];
      assert projects == init + [p];
      AsWrittenSkipsProto(init);
      FilterSnoc(init, p);
      var f := Filter(init, SetsOwnKey);
      if SetsOwnKey(p) {
        assert (f + [p])[..|f + [p]| - 1] == f;
        KeysSnoc(f, p, ProjectCurrency);
      } else {
        assert f + [] == f;
      }
    }
  }

  /** The pick over the projects that set an own key is never `__proto__`. */
  lemma PickedKeyNotProto(projects: seq<Project>)
    ensures ModeCurrency(Filter(projects, SetsOwnKey)) != "__proto__"
  {
    var f := Filter(projects, SetsOwnKey);
    if f != [] {
      var ks := Keys(f, ProjectCurrency);
      var j :| 0 <= j < |ks| && ks[j] == ModeCurrency(f);
      KeysSound(f, ProjectCurrency, j);
    }
  }

  /** `defaultCurrency` as written: `Object.keys` and `reduce` over the object
      the loop builds as written. It is the default currency of the projects
      whose currency is not `__proto__`, and never `__proto__` itself. */
  function ModeCurrencyAsWritten(projects: seq<Project>): (r: string)
    ensures r == ModeCurrency(Filter(projects, SetsOwnKey))
    ensures r != "__proto__"
  {
    var f := Filter(projects, SetsOwnKey);
    AsWrittenSkipsProto(projects);
    CurrencyKeysSpec(f);
    PickedKeyNotProto(projects);
    var keys := ObjectKeys(AddedAsWritten(projects));
    if keys == [] then "USD" else ReduceMode(keys, CurrencyCountsAsWritten(projects))
  }

  /** A USD project and a `__proto__` project: as written the default
      currency is USD, while counting every currency gives a one-one tie that
      the later key, `__proto__`, wins. */
  lemma ProtoCurrencyIgnored(p: Project, q: Project)
    requires p.currency == "USD" && q.currency == "__proto__"
    ensures ModeCurrencyAsWritten([p, q]) == "USD"
    ensures ModeCurrency([p, q]) == "__proto__"
  {
    var a, b := ProjectCurrency(p), ProjectCurrency(q);
    assert a == "USD" && b == "__proto__";
    assert !IsDigit(a[0]) && !IsDigit(b[0]);
    ObjectKeysPlain([a, b]);
    ModeOfTwo(p, q);
    ProtoFilteredOut(p, q);
    ModeOfOne(p);
  }

  /** A `__proto__` project after an ordinary one is filtered out. */
  lemma ProtoFilteredOut(p: Project, q: Project)
    requires SetsOwnKey(p) && !SetsOwnKey(q)
    ensures Filter([p, q], SetsOwnKey) == [p]
  {
    FilterSnoc([p], q);
    assert [p] + [q] == [p, q];
    FilterSnoc([], p);
    assert [] + [p] == [p];
  }

  /** One project: its currency is the default. */
  lemma ModeOfOne(p: Project)
    ensures ModeCurrency([p]) == ProjectCurrency(p)
  {
    var ps := [p];
    assert ps[..0] == [];
    assert Keys(ps, ProjectCurrency) == [ProjectCurrency(p)];
  }

  // ---------------------------------------------------------- trend window

  /** The k-th bucket (k = 0 oldest) of the window ending at (month, year):
      `new Date(year, month - 1 - i, 1)` for i = 5 - k. */
  function WindowBucket(month: int, year: int, k: int): MonthKey {
    MonthStart(year, month - 1 - (5 - k))
  }

  /** The buckets are real months with consecutive month indexes, the last
      one at the target's own index, so the window rolls over year
      boundaries; for a real month in a year `new Date` reads literally, the
      last bucket is the target itself. */
  lemma {:induction false} WindowBucketSpec(month: int, year: int)
    ensures forall k :: 0 <= k < 6 ==> 1 <= WindowBucket(month, year, k).month <= 12
    ensures forall k :: 0 <= k < 5 ==>
      MonthIndex(WindowBucket(month, year, k + 1)) == MonthIndex(WindowBucket(month, year, k)) + 1
    ensures MonthIndex(WindowBucket(month, year, 5)) == JsYear(year) * 12 + month - 1
    ensures 1 <= month <= 12 && LiteralYear(year) ==> WindowBucket(month, year, 5) == MonthKey(month, year)
  {
    if 1 <= month <= 12 && LiteralYear(year) {
      FromIndexOfMonthIndex(MonthKey(month, year));
    }
  }

  /** A window ending in February starts in September of the year before. */
  lemma {:induction false} WindowCrossesYear(year: int)
    requires year >= 100
    ensures WindowBucket(2, year, 0) == MonthKey(9, year - 1)
    ensures WindowBucket(2, year, 4) == MonthKey(1, year)
  {
    FromIndexOfMonthIndex(MonthKey(9, year - 1));
    FromIndexOfMonthIndex(MonthKey(1, year));
  }

  /** The loop that fills `months`, oldest bucket first. */
  method TrendWindow(month: int, year: int) returns (window: seq<MonthKey>)
    ensures |window| == 6
    ensures forall k :: 0 <= k < 6 ==> window[k] == WindowBucket(month, year, k)
  {
    window := [];
    var i := 5;
    while i >= 0
      invariant -1 <= i <= 5
      invariant |window| == 5 - i
      invariant forall k :: 0 <= k < |window| ==> window[k] == WindowBucket(month, year, k)
    {
      window := window + [MonthStart(year, month - 1 - i)];
      i := i - 1;
    }
  }

  /** The trend entry of one bucket: that bucket's income and expenses. */
  function TrendPointOf(payments: seq<Payment>, expenses: seq<Expense>, c: Id, b: MonthKey): TrendPoint {
    TrendPoint(b, MonthlyIncome(payments, c, b.month, b.year), MonthlyExpenses(expenses, c, b.month, b.year))
  }

  /** The trend entries of a window of buckets (`months.map`). */
  function Trend(payments: seq<Payment>, expenses: seq<Expense>, c: Id, window: seq<MonthKey>): (t: seq<TrendPoint>)
    ensures |t| == |window|
    ensures forall k :: 0 <= k < |window| ==>
      t[k].bucket == window[k]
      && t[k].income == MonthlyIncome(payments, c, window[k].month, window[k].year)
      && t[k].expenses == MonthlyExpenses(expenses, c, window[k].month, window[k].year)
  {
    if window == [] then []
    else [TrendPointOf(payments, expenses, c, window[0])] + Trend(payments, expenses, c, window[1..])
  }

  // ------------------------------------------------------------- dashboard

  /** `getDashboardData(month, year)` for the signed-in session.  The project
      and team member lookups see every stored project and member. */
  method GetDashboardData(
    session: Option<SessionUser>, month: int, year: int,
    payments: seq<Payment>, expenses: seq<Expense>, projects: seq<Project>, members: seq<TeamMember>)
    returns (r: Result<DashboardData>)
    ensures r.Err? <==> CurrentCompanyId(session).Err?
    ensures r.Err? ==> r.failure == CurrentCompanyId(session).failure
    ensures r.Ok? ==>
      var c := CurrentCompanyId(session).value;
      var d := r.value;
      && d.totalIncome == MonthlyIncome(payments, c, month, year)
      && d.totalExpenses == MonthlyExpenses(expenses, c, month, year)
      && d.netProfit == d.totalIncome - d.totalExpenses
      && d.activeProjectsCount == |Filter(projects, Is(ProjectCompany, c))|
      && d.projectProfitability == ProjectProfitability(payments, expenses, projects, c, month, year)
      && |d.trend| == 6
      && (forall k :: 0 <= k < 6 ==> d.trend[k] == TrendPointOf(payments, expenses, c, WindowBucket(month, year, k)))
      && (1 <= month <= 12 && LiteralYear(year) ==>
            d.trend[5].income == d.totalIncome && d.trend[5].expenses == d.totalExpenses)
      && d.teamPayoutDistribution == TeamPayoutDistribution(expenses, members, c, month, year)
      && d.defaultCurrency == ModeCurrency(Filter(projects, Is(ProjectCompany, c)))
  {
    var company := CurrentCompanyId(session);
    if company.Err? {
      return Err(company.failure);
    }
    var c := company.value;
    var totalIncome := MonthlyIncome(payments, c, month, year);
    var totalExpenses := MonthlyExpenses(expenses, c, month, year);
    var ownProjects := Filter(projects, Is(ProjectCompany, c));
    var defaultCurrency := DefaultCurrency(ownProjects);
    var window := TrendWindow(month, year);
    WindowBucketSpec(month, year);
    var trend := Trend(payments, expenses, c, window);
    r := Ok(DashboardData(
      totalIncome,
      totalExpenses,
      totalIncome - totalExpenses,
      |ownProjects|,
      ProjectProfitability(payments, expenses, projects, c, month, year),
      trend,
      TeamPayoutDistribution(expenses, members, c, month, year),
      defaultCurrency));
  }

  /** Tenant isolation of the month figures: the payments and expenses of
      other companies change neither the per-project rows nor the payout
      distribution. */
  lemma {:induction false} DashboardIsolated(payments: seq<Payment>, expenses: seq<Expense>, projects: seq<Project>,
                          members: seq<TeamMember>, c: Id, m: int, y: int)
    ensures ProjectProfitability(payments, expenses, projects, c, m, y)
      == ProjectProfitability(Filter(payments, Is(PaymentCompany, c)), Filter(expenses, Is(ExpenseCompany, c)), projects, c, m, y)
    ensures TeamPayoutDistribution(expenses, members, c, m, y)
      == TeamPayoutDistribution(Filter(expenses, Is(ExpenseCompany, c)), members, c, m, y)
  {
    var pc, pm := Is(PaymentCompany, c), PaymentInMonth(c, m, y);
    forall i | 0 <= i < |payments| && pm(payments[i]) ensures pc(payments[i]) {
      assert pm(payments[i]) == (payments[i].companyId == c && payments[i].month == m && payments[i].year == y);
      assert pc(payments[i]) == (PaymentCompany(payments[i]) == c);
    }
    FilterNarrowing(payments, pc, pm);
    var ec, em, et := Is(ExpenseCompany, c), ExpenseInMonth(c, m, y), TeamExpenseInMonth(c, m, y);
    forall i | 0 <= i < |expenses| && (em(expenses[i]) || et(expenses[i])) ensures ec(expenses[i]) {
      var e := expenses[i];
      assert em(e) == (e.companyId == c && e.month == m && e.year == y);
      assert et(e) == (e.companyId == c && e.month == m && e.year == y && e.kind == "team");
      assert ec(e) == (ExpenseCompany(e) == c);
    }
    FilterNarrowing(expenses, ec, em);
    FilterNarrowing(expenses, ec, et);
  }

  // -------------------------------------------------------- project details

  /** The `$sort` key of a month group: its month index, which orders buckets
      by year and then month for calendar months. */
  function GroupMonth(g: Group<MonthKey>): int {
    MonthIndex(g.key)
  }

  function MonthTotalOf(g: Group<MonthKey>): MonthTotal {
    MonthTotal(g.key.month, g.key.year, g.total)
  }

  function MonthTotals(gs: seq<Group<MonthKey>>): (ms: seq<MonthTotal>)
    ensures |ms| == |gs|
    ensures forall i :: 0 <= i < |gs| ==> ms[i] == MonthTotalOf(gs[i])
  {
    if gs == [] then [] else [MonthTotalOf(gs[0])] + MonthTotals(gs[1..])
  }

  /** The month groups of a project's payments, in `$sort` order. */
  function BreakdownGroups(payments: seq<Payment>, c: Id, pid: Id): seq<Group<MonthKey>> {
    SortAsc(GroupBy(Filter(payments, PaymentOfProject(c, pid)), PaymentBucket, PaymentAmount), GroupMonth)
  }

  /** `monthlyBreakdown`: every month of the project's payments, whatever
      month was asked for. */
  function MonthlyBreakdown(payments: seq<Payment>, c: Id, pid: Id): (b: seq<MonthTotal>)
    ensures forall i, j :: 0 <= i < j < |b| ==> b[i].year * 12 + b[i].month <= b[j].year * 12 + b[j].month
  {
    MonthTotals(BreakdownGroups(payments, c, pid))
  }

  /** Each breakdown entry is one month holding at least one of the
      project's payments, with their sum; no month appears twice and the
      entries run from the earliest month to the latest. */
  lemma {:induction false} MonthlyBreakdownSpec(payments: seq<Payment>, c: Id, pid: Id)
    ensures var b := MonthlyBreakdown(payments, c, pid);
      var pp := Filter(payments, PaymentOfProject(c, pid));
      && (forall i :: 0 <= i < |b| ==>
            && b[i].total == Sum(Filter(pp, Is(PaymentBucket, MonthKey(b[i].month, b[i].year))), PaymentAmount)
            && |Filter(pp, Is(PaymentBucket, MonthKey(b[i].month, b[i].year)))| >= 1)
      && (forall i, j :: 0 <= i < j < |b| ==> MonthKey(b[i].month, b[i].year) != MonthKey(b[j].month, b[j].year))
      && (forall i, j :: 0 <= i < j < |b| ==>
            MonthIndex(MonthKey(b[i].month, b[i].year)) <= MonthIndex(MonthKey(b[j].month, b[j].year)))
  {
    var pp := Filter(payments, PaymentOfProject(c, pid));
    var sorted := BreakdownGroups(payments, c, pid);
    var b := MonthlyBreakdown(payments, c, pid);
    assert forall i :: 0 <= i < |b| ==> MonthKey(b[i].month, b[i].year) == sorted[i].key && b[i].total == sorted[i].total by {
      forall i | 0 <= i < |b| ensures MonthKey(b[i].month, b[i].year) == sorted[i].key && b[i].total == sorted[i].total {
        assert b[i] == MonthTotalOf(sorted[i]);
      }
    }
    forall i | 0 <= i < |b|
      ensures b[i].total == Sum(Filter(pp, Is(PaymentBucket, MonthKey(b[i].month, b[i].year))), PaymentAmount)
      ensures |Filter(pp, Is(PaymentBucket, MonthKey(b[i].month, b[i].year)))| >= 1
    {
      GroupsReordered(pp, PaymentBucket, PaymentAmount, sorted);
    }
    forall i, j | 0 <= i < j < |b| ensures MonthKey(b[i].month, b[i].year) != MonthKey(b[j].month, b[j].year) {
      GroupsReorderedDistinct(pp, PaymentBucket, PaymentAmount, sorted);
    }
    forall i, j | 0 <= i < j < |b|
      ensures MonthIndex(MonthKey(b[i].month, b[i].year)) <= MonthIndex(MonthKey(b[j].month, b[j].year))
    {
      assert GroupMonth(sorted[i]) <= GroupMonth(sorted[j]);
    }
  }

  /** Every month in which the project received a payment has its entry. */
  lemma {:induction false} MonthlyBreakdownCovers(payments: seq<Payment>, c: Id, pid: Id, k: nat)
    requires k < |payments| && payments[k].companyId == c && payments[k].projectId == pid
    ensures exists e :: e in MonthlyBreakdown(payments, c, pid)
                        && e.month == payments[k].month && e.year == payments[k].year
  {
    var own := PaymentOfProject(c, pid);
    var pp := Filter(payments, own);
    var sorted := BreakdownGroups(payments, c, pid);
    assert own(payments[k]) == (payments[k].companyId == c && payments[k].projectId == pid);
    FilterKeeps(payments, own, k);
    GroupsReorderedCover(pp, PaymentBucket, PaymentAmount, sorted, payments[k]);
    var g :| g in sorted && g.key == PaymentBucket(payments[k]);
    var i :| 0 <= i < |sorted| && sorted[i] == g;
    var b := MonthlyBreakdown(payments, c, pid);
    assert b[i] == MonthTotalOf(g);
    assert b[i] in b && b[i].month == payments[k].month && b[i].year == payments[k].year;
  }

  /** Without a month filter the breakdown adds up to the project's total
      received. */
  lemma {:induction false} MonthlyBreakdownAddsUp(payments: seq<Payment>, c: Id, pid: Id)
    ensures Sum(BreakdownGroups(payments, c, pid), TotalOf) == ProjectTotalReceived(payments, c, pid)
  {
    var pp := Filter(payments, PaymentOfProject(c, pid));
    GroupTotalsAddUp(pp, PaymentBucket, PaymentAmount);
    SumPermutation(BreakdownGroups(payments, c, pid), GroupBy(pp, PaymentBucket, PaymentAmount), TotalOf);
  }

  /** The order is the only one: since the stored months are calendar months,
      any ordering of the month groups by year and month is this one. */
  lemma {:induction false} MonthlyBreakdownOrderUnique(payments: seq<Payment>, c: Id, pid: Id, other: seq<Group<MonthKey>>)
    requires forall k :: 0 <= k < |payments| ==> 1 <= payments[k].month <= 12
    requires multiset(other) == multiset(GroupBy(Filter(payments, PaymentOfProject(c, pid)), PaymentBucket, PaymentAmount))
    requires SortedAsc(other, GroupMonth)
    ensures other == BreakdownGroups(payments, c, pid)
  {
    var pp := Filter(payments, PaymentOfProject(c, pid));
    var gs := GroupBy(pp, PaymentBucket, PaymentAmount);
    var sorted := BreakdownGroups(payments, c, pid);
    GroupsReordered(pp, PaymentBucket, PaymentAmount, sorted);
    GroupsReorderedDistinct(pp, PaymentBucket, PaymentAmount, sorted);
    forall i | 0 <= i < |sorted| ensures 1 <= sorted[i].key.month <= 12 {
      var f := Filter(pp, Is(PaymentBucket, sorted[i].key));
      assert f[0] in pp && PaymentBucket(f[0]) == sorted[i].key;
      assert f[0] in payments;
    }
    forall i, j | 0 <= i < |sorted| && 0 <= j < |sorted| && GroupMonth(sorted[i]) == GroupMonth(sorted[j])
      ensures i == j
    {
      MonthIndexInjective(sorted[i].key, sorted[j].key);
    }
    SortedPermutationUnique(sorted, other, GroupMonth);
  }

  /** For calendar months the month index tells buckets apart. */
  lemma {:induction false} MonthIndexInjective(a: MonthKey, b: MonthKey)
    requires 1 <= a.month <= 12 && 1 <= b.month <= 12
    requires MonthIndex(a) == MonthIndex(b)
    ensures a == b
  {
  }

  /** One `teamPayouts` entry from a joined member. */
  function MemberPayoutOf(t: MemberTotal): MemberPayout {
    MemberPayout(t.memberId, t.member.name, t.member.role, t.total, t.count)
  }

  function MemberPayouts(js: seq<MemberTotal>): (ps: seq<MemberPayout>)
    ensures |ps| == |js|
    ensures forall j :: 0 <= j < |js| ==> ps[j] == MemberPayoutOf(js[j])
  {
    if js == [] then [] else [MemberPayoutOf(js[0])] + MemberPayouts(js[1..])
  }

  /** `teamPayouts` of a project, over all months. */
  function ProjectTeamPayouts(expenses: seq<Expense>, members: seq<TeamMember>, c: Id, pid: Id): (ps: seq<MemberPayout>)
    ensures forall i :: 0 <= i < |ps| ==> MemberNamed(members, ps[i].teamMemberId, ps[i].name)
  {
    MemberPayouts(JoinMembers(GroupBy(Filter(expenses, TeamExpenseOfProject(c, pid)), ExpenseMember, ExpenseAmount), members))
  }

  /** Each entry is an existing member paid through at least one team expense
      of the project, with that member's name and role, the sum of those
      expenses and their number; every existing member named by such an
      expense has an entry. */
  lemma {:induction false} ProjectTeamPayoutsSpec(expenses: seq<Expense>, members: seq<TeamMember>, c: Id, pid: Id)
    ensures var ps := ProjectTeamPayouts(expenses, members, c, pid);
      var te := Filter(expenses, TeamExpenseOfProject(c, pid));
      && (forall e :: e in ps ==>
            && e.totalPaid == Sum(Filter(te, Is(ExpenseMember, Some(e.teamMemberId))), ExpenseAmount)
            && e.paymentCount == |Filter(te, Is(ExpenseMember, Some(e.teamMemberId)))| >= 1
            && Find(members, Is(MemberKey, e.teamMemberId)).Some?
            && Find(members, Is(MemberKey, e.teamMemberId)).value.name == e.name
            && Find(members, Is(MemberKey, e.teamMemberId)).value.role == e.role)
      && (forall k :: 0 <= k < |te| && te[k].teamMemberId.Some?
                      && Find(members, Is(MemberKey, te[k].teamMemberId.value)).Some? ==>
            exists e :: e in ps && e.teamMemberId == te[k].teamMemberId.value)
  {
    var te := Filter(expenses, TeamExpenseOfProject(c, pid));
    PayoutsSound(te, members);
    PayoutsComplete(te, members);
  }

  /** No member has two payout entries. */
  ghost predicate OnePayoutPerMember(ps: seq<MemberPayout>) {
    forall a, b :: 0 <= a < b < |ps| ==> ps[a].teamMemberId != ps[b].teamMemberId
  }

  /** No member appears twice in a project's `teamPayouts`. */
  lemma ProjectTeamPayoutsOnce(expenses: seq<Expense>, members: seq<TeamMember>, c: Id, pid: Id)
    ensures OnePayoutPerMember(ProjectTeamPayouts(expenses, members, c, pid))
  {
    var te := Filter(expenses, TeamExpenseOfProject(c, pid));
    GroupBySpec(te, ExpenseMember, ExpenseAmount);
    JoinMembersDistinct(GroupBy(te, ExpenseMember, ExpenseAmount), members);
  }

  /** Each payout entry carries its member's name, role, total and count. */
  lemma {:induction false} PayoutsSound(te: seq<Expense>, members: seq<TeamMember>)
    ensures forall e :: e in MemberPayouts(JoinMembers(GroupBy(te, ExpenseMember, ExpenseAmount), members)) ==>
      && e.totalPaid == Sum(Filter(te, Is(ExpenseMember, Some(e.teamMemberId))), ExpenseAmount)
      && e.paymentCount == |Filter(te, Is(ExpenseMember, Some(e.teamMemberId)))| >= 1
      && Find(members, Is(MemberKey, e.teamMemberId)).Some?
      && Find(members, Is(MemberKey, e.teamMemberId)).value.name == e.name
      && Find(members, Is(MemberKey, e.teamMemberId)).value.role == e.role
  {
    var js := JoinMembers(GroupBy(te, ExpenseMember, ExpenseAmount), members);
    var ps := MemberPayouts(js);
    MemberTotalsSound(te, members);
    forall e | e in ps
      ensures e.totalPaid == Sum(Filter(te, Is(ExpenseMember, Some(e.teamMemberId))), ExpenseAmount)
      ensures e.paymentCount == |Filter(te, Is(ExpenseMember, Some(e.teamMemberId)))| >= 1
      ensures Find(members, Is(MemberKey, e.teamMemberId)).Some?
      ensures Find(members, Is(MemberKey, e.teamMemberId)).value.name == e.name
      ensures Find(members, Is(MemberKey, e.teamMemberId)).value.role == e.role
    {
      var j :| 0 <= j < |ps| && ps[j] == e;
      assert js[j] in js;
    }
  }

  /** Every existing member named by an expense has a payout entry. */
  lemma {:induction false} PayoutsComplete(te: seq<Expense>, members: seq<TeamMember>)
    ensures forall k :: 0 <= k < |te| && te[k].teamMemberId.Some?
                        && Find(members, Is(MemberKey, te[k].teamMemberId.value)).Some? ==>
      exists e :: e in MemberPayouts(JoinMembers(GroupBy(te, ExpenseMember, ExpenseAmount), members))
                  && e.teamMemberId == te[k].teamMemberId.value
  {
    var js := JoinMembers(GroupBy(te, ExpenseMember, ExpenseAmount), members);
    var ps := MemberPayouts(js);
    MemberTotalsComplete(te, members);
    forall k | 0 <= k < |te| && te[k].teamMemberId.Some?
                && Find(members, Is(MemberKey, te[k].teamMemberId.value)).Some?
      ensures exists e :: e in ps && e.teamMemberId == te[k].teamMemberId.value
    {
      var t :| t in js && t.memberId == te[k].teamMemberId.value;
      var j :| 0 <= j < |js| && js[j] == t;
      assert ps[j] in ps;
    }
  }

  /** The payments shown on the project page: the project's payments of the
      company, restricted to one month only when both month and year are
      given and non-zero. */
  function DetailPayment(c: Id, pid: Id, month: Option<int>, year: Option<int>): Payment -> bool {
    (p: Payment) => p.companyId == c && p.projectId == pid
      && (Truthy(month) && Truthy(year) ==> p.month == month.value && p.year == year.value)
  }

  /** The query `getProjectDetails` builds selects the detail payments. */
  lemma DetailQuerySelects(payments: seq<Payment>, q: ListQuery, c: Id, pid: Id, month: Option<int>, year: Option<int>)
    requires q.companyId == c && q.projectId == Some(pid)
    requires q.bucket.Some? <==> Truthy(month) && Truthy(year)
    requires q.bucket.Some? ==> q.bucket.value == MonthKey(month.value, year.value)
    ensures Filter(payments, PaymentMatches(q)) == Filter(payments, DetailPayment(c, pid, month, year))
  {
    var pm, dp := PaymentMatches(q), DetailPayment(c, pid, month, year);
    forall x | x in payments ensures pm(x) <==> dp(x) {
      assert pm(x) == (x.companyId == q.companyId
        && (q.bucket.None? || (x.month == q.bucket.value.month && x.year == q.bucket.value.year))
        && (q.projectId.None? || x.projectId == q.projectId.value));
      assert dp(x) == (x.companyId == c && x.projectId == pid
        && (Truthy(month) && Truthy(year) ==> x.month == month.value && x.year == year.value));
    }
    FilterCongruent(payments, pm, dp);
  }

  /** `getProjectDetails(projectId, month?, year?)` for the signed-in session. */
  method GetProjectDetails(
    session: Option<SessionUser>, projectId: Id, month: Option<int>, year: Option<int>,
    payments: seq<Payment>, expenses: seq<Expense>, projects: seq<Project>, members: seq<TeamMember>)
    returns (r: Result<ProjectDetails>)
    ensures CurrentCompanyId(session).Err? ==> r == Err(CurrentCompanyId(session).failure)
    ensures CurrentCompanyId(session).Ok? ==>
      var c := CurrentCompanyId(session).value;
      var found := Find(projects, Both(Is(ProjectKey, projectId), Is(ProjectCompany, c)));
      && (found.None? <==> r.Err?)
      && (found.None? ==> r.failure == Message("Project not found"))
      && (r.Ok? ==>
            var d := r.value;
            var shown := Filter(payments, DetailPayment(c, projectId, month, year));
            var spent := Filter(expenses, ExpenseOfProject(c, projectId));
            && d.project == found.value
            && d.project.id == projectId && d.project.companyId == c
            && multiset(d.payments) == multiset(shown) && SortedDesc(d.payments, PaymentDate)
            && multiset(d.expenses) == multiset(spent) && SortedDesc(d.expenses, ExpenseDate)
            && d.totalReceived == Sum(shown, PaymentAmount)
            && d.totalExpenses == Sum(spent, ExpenseAmount)
            && d.netProfit == d.totalReceived - d.totalExpenses
            && d.remaining == d.project.totalBudget - d.totalReceived
            && d.monthlyBreakdown == MonthlyBreakdown(payments, c, projectId)
            && d.teamPayouts == ProjectTeamPayouts(expenses, members, c, projectId))
  {
    var company := CurrentCompanyId(session);
    if company.Err? {
      return Err(company.failure);
    }
    var c := company.value;
    var found := Find(projects, Both(Is(ProjectKey, projectId), Is(ProjectCompany, c)));
    if found.None? {
      return Err(Message("Project not found"));
    }
    var project := found.value;
    var q := BuildQuery(c, month, year, Some(projectId));
    DetailQuerySelects(payments, q, c, projectId, month, year);
    var shown := SortDesc(Filter(payments, PaymentMatches(q)), PaymentDate);
    var spent := SortDesc(Filter(expenses, ExpenseOfProject(c, projectId)), ExpenseDate);
    SumPermutation(shown, Filter(payments, PaymentMatches(q)), PaymentAmount);
    SumPermutation(spent, Filter(expenses, ExpenseOfProject(c, projectId)), ExpenseAmount);
    var totalReceived := Sum(shown, PaymentAmount);
    var totalExpenses := Sum(spent, ExpenseAmount);
    r := Ok(ProjectDetails(
      project,
      shown,
      spent,
      totalReceived,
      totalExpenses,
      totalReceived - totalExpenses,
      project.totalBudget - totalReceived,
      MonthlyBreakdown(payments, c, projectId),
      ProjectTeamPayouts(expenses, members, c, projectId)));
  }
}
