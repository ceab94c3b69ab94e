/** The ledger store: the payment, expense, project, team-member, user and
    company collections and the server actions that read and change them.

    Every action names its caller, the session user, whose role and company
    are checked in the order the actions check them: the role guard first,
    then the company.  Object ids come from a counter; the clock and the
    password hash are parameters. */
module Store {
  import opened Outcome
  import opened Text
  import opened Calendar
  import opened Access
  import opened Seqs
  import opened Records
  import opened Schema
  import opened Queries

  // ------------------------------------------------------------ guards

  /** `requireManager()` then `getCurrentCompanyId()`. */
  function ManagerScope(caller: SessionUser): (r: Result<Id>)
    ensures r.Ok? <==> CanEdit(caller.role) && caller.companyId.Some?
    ensures r.Ok? ==> r.value == caller.companyId.value
    ensures !CanEdit(caller.role) ==> r == Err(Message(AccessDenied(Manager)))
    ensures CanEdit(caller.role) && caller.companyId.None? ==> r == Err(Message(NoCompany))
  {
    match RequireManager(caller.role)
    case Err(f) => Err(f)
    case Ok(_) => CurrentCompanyId(Some(caller))
  }

  /** `requireAdmin()` then `getCurrentCompanyId()`. */
  function AdminScope(caller: SessionUser): (r: Result<Id>)
    ensures r.Ok? <==> caller.role == Admin && caller.companyId.Some?
    ensures r.Ok? ==> r.value == caller.companyId.value
    ensures caller.role != Admin ==> r == Err(Message(AccessDenied(Admin)))
    ensures caller.role == Admin && caller.companyId.None? ==> r == Err(Message(NoCompany))
  {
    match RequireAdmin(caller.role)
    case Err(f) => Err(f)
    case Ok(_) => CurrentCompanyId(Some(caller))
  }

  /** `getCurrentCompanyId()` alone, for the actions any member may call. */
  function ReadScope(caller: SessionUser): Result<Id> {
    CurrentCompanyId(Some(caller))
  }

  // ------------------------------------------------------------ forms

  /** A submitted payment form, its fields already parsed; an empty `notes`
      field is the empty string. */
  datatype PaymentForm = PaymentForm(projectId: Id, amount: int, date: Date, notes: string)

  /** A submitted expense form; `teamMemberId` is `None` for an empty field. */
  datatype ExpenseForm = ExpenseForm(
    projectId: Id, teamMemberId: Option<Id>, kind: string, amount: int, date: Date, description: string)

  /** A submitted project form; `endDate` is `None` for an empty field. */
  datatype ProjectForm = ProjectForm(
    name: string, clientName: string, startDate: Date, endDate: Option<Date>,
    totalBudget: int, currency: string, description: string)

  /** A submitted team-member form. */
  datatype MemberForm = MemberForm(
    name: string, role: string, payoutType: string, payoutAmount: int, payoutPercentage: int)

  /** `s || undefined` followed by the `trim` setter. */
  function OptionalText(s: string): (r: Option<string>)
    ensures r.None? <==> s == ""
    ensures r.Some? ==> r.value == Trim(s)
  {
    if s == "" then None else Some(Trim(s))
  }

  // ------------------------------------------------------------ documents

  /** The payment `createPayment` builds: filed under the month and year of its
      own date, tagged with the caller's company. */
  function NewPayment(id: Id, c: Id, form: PaymentForm, now: int): (p: Payment)
    ensures p.id == id && p.companyId == c && p.projectId == form.projectId
    ensures p.amount == form.amount && p.date == form.date && p.createdAt == now
    ensures MonthKey(p.month, p.year) == BucketOf(form.date)
    ensures ValidDate(form.date) ==> 1 <= p.month <= 12
    ensures p.notes == OptionalText(form.notes)
  {
    Payment(id, c, form.projectId, form.amount, form.date, form.date.month, form.date.year,
            OptionalText(form.notes), now)
  }

  /** The member an expense records: the submitted one for a team expense,
      none for any other type or for an empty field. */
  function ExpenseMemberFor(kind: string, submitted: Option<Id>): (r: Option<Id>)
    ensures r.Some? <==> kind == "team" && submitted.Some?
    ensures r.Some? ==> r == submitted
  {
    if kind == "team" then submitted else None
  }

  /** The expense `createExpense` builds. */
  function NewExpense(id: Id, c: Id, form: ExpenseForm, now: int): (e: Expense)
    ensures e.id == id && e.companyId == c && e.projectId == form.projectId
    ensures e.kind == form.kind && e.amount == form.amount && e.date == form.date && e.createdAt == now
    ensures e.teamMemberId.Some? ==> e.kind == "team"
    ensures e.teamMemberId == ExpenseMemberFor(form.kind, form.teamMemberId)
    ensures MonthKey(e.month, e.year) == BucketOf(form.date)
    ensures e.description == Trim(form.description)
  {
    Expense(id, c, form.projectId, ExpenseMemberFor(form.kind, form.teamMemberId), form.kind,
            form.amount, form.date, form.date.month, form.date.year, Trim(form.description), now)
  }

  /** The project `createProject` builds: USD when no currency was chosen, no
      end date or description when those fields were empty. */
  function NewProject(id: Id, c: Id, form: ProjectForm, now: int): (p: Project)
    ensures p.id == id && p.companyId == c && p.createdAt == now
    ensures p.name == Trim(form.name) && p.clientName == Trim(form.clientName)
    ensures p.startDate == form.startDate && p.endDate == form.endDate
    ensures p.totalBudget == form.totalBudget
    ensures p.currency == CurrencyOrUsd(form.currency)
    ensures p.description == OptionalText(form.description)
  {
    Project(id, c, Trim(form.name), Trim(form.clientName), form.startDate, form.endDate,
            form.totalBudget, CurrencyOrUsd(form.currency), OptionalText(form.description), now)
  }

  /** What `updateProject` writes over a project.  An empty end date or
      description is sent as `undefined`, which the update drops, so the
      stored value stays. */
  function ApplyProjectForm(form: ProjectForm): (update: Project -> Project)
    ensures forall p :: update(p).id == p.id && update(p).companyId == p.companyId && update(p).createdAt == p.createdAt
  {
    (p: Project) => p.(
      name := Trim(form.name),
      clientName := Trim(form.clientName),
      startDate := form.startDate,
      endDate := if form.endDate.Some? then form.endDate else p.endDate,
      totalBudget := form.totalBudget,
      currency := CurrencyOrUsd(form.currency),
      description := if form.description == "" then p.description else OptionalText(form.description))
  }

  /** An update keeps the project's identity, tenant and creation time, and
      sets every submitted field. */
  lemma ApplyProjectFormSpec(form: ProjectForm, p: Project)
    ensures var q := ApplyProjectForm(form)(p);
      && q.id == p.id && q.companyId == p.companyId && q.createdAt == p.createdAt
      && q.name == Trim(form.name) && q.currency == CurrencyOrUsd(form.currency) && q.currency != ""
      && (form.endDate.Some? ==> q.endDate == form.endDate)
      && (form.endDate.None? ==> q.endDate == p.endDate)
      && (form.description == "" ==> q.description == p.description)
  {
  }

  /** The payout fields a member form sends: an amount for a fixed payout, a
      percentage for a percentage payout, never both. */
  function PayoutFields(form: MemberForm): (r: (Option<int>, Option<int>))
    ensures r.0.Some? <==> form.payoutType == "fixed"
    ensures r.1.Some? <==> form.payoutType == "percentage"
    ensures r.0.Some? ==> r.0.value == form.payoutAmount
    ensures r.1.Some? ==> r.1.value == form.payoutPercentage
    ensures !(r.0.Some? && r.1.Some?)
  {
    (if form.payoutType == "fixed" then Some(form.payoutAmount) else None,
     if form.payoutType == "percentage" then Some(form.payoutPercentage) else None)
  }

  /** The member `createTeamMember` builds. */
  function NewMember(id: Id, c: Id, form: MemberForm, now: int): (m: TeamMember)
    ensures m.id == id && m.companyId == c && m.createdAt == now
    ensures m.name == Trim(form.name) && m.role == Trim(form.role) && m.payoutType == form.payoutType
    ensures (m.payoutAmount, m.payoutPercentage) == PayoutFields(form)
    ensures !(m.payoutAmount.Some? && m.payoutPercentage.Some?)
  {
    var (amount, percentage) := PayoutFields(form);
    TeamMember(id, c, Trim(form.name), Trim(form.role), form.payoutType, amount, percentage, now)
  }

  /** What `updateTeamMember` writes: the payout field of the other type is
      sent as `undefined` and dropped, so the stored one stays. */
  function ApplyMemberForm(form: MemberForm): (update: TeamMember -> TeamMember)
    ensures forall m :: update(m).id == m.id && update(m).companyId == m.companyId && update(m).createdAt == m.createdAt
  {
    (m: TeamMember) =>
      var (amount, percentage) := PayoutFields(form);
      m.(name := Trim(form.name), role := Trim(form.role), payoutType := form.payoutType,
         payoutAmount := if amount.Some? then amount else m.payoutAmount,
         payoutPercentage := if percentage.Some? then percentage else m.payoutPercentage)
  }

  /** An update sets the payout figure of the submitted type, keeps the
      member's identity, and leaves the figure of the other type as it was:
      switching a member from a fixed to a percentage payout keeps the old
      amount beside the new percentage. */
  lemma ApplyMemberFormSpec(form: MemberForm, m: TeamMember)
    ensures var n := ApplyMemberForm(form)(m);
      && n.id == m.id && n.companyId == m.companyId && n.createdAt == m.createdAt
      && n.payoutType == form.payoutType
      && (form.payoutType == "fixed" ==>
            n.payoutAmount == Some(form.payoutAmount) && n.payoutPercentage == m.payoutPercentage)
      && (form.payoutType == "percentage" ==>
            n.payoutPercentage == Some(form.payoutPercentage) && n.payoutAmount == m.payoutAmount)
      && (form.payoutType != "fixed" && form.payoutType != "percentage" ==>
            n.payoutAmount == m.payoutAmount && n.payoutPercentage == m.payoutPercentage)
  {
  }

  /** A user moved into a company with a role. */
  function JoinCompany(c: Id, role: Role): User -> User {
    (u: User) => u.(companyId := Some(c), role := role)
  }

  /** A user given a new role. */
  function WithRole(role: Role): User -> User {
    (u: User) => u.(role := role)
  }

  /** The e-mail a user is stored and looked up under: lower-cased, then
      trimmed by the schema's setters. */
  function StoredEmail(email: string): (r: string)
    ensures r == Lower(Trim(email))
  {
    LowerTrimCommute(email);
    Trim(Lower(email))
  }

  /** `User.findOne({ email })`.  Mongoose casts the filter value through the
      path's setters, so callers pass the stored form of the address. */
  function HasEmail(email: string): User -> bool {
    (u: User) => u.email == email
  }

  /** What `inviteUser` reports. */
  datatype Invitation = Attached(userId: Id) | Created(userId: Id)

  /** What `signup` reports about the new account. */
  datatype Account = Account(id: Id, name: string, email: string, role: Role, companyId: Id)

  /** `{ companyId }` on users. */
  function InCompany(c: Id): User -> bool {
    (u: User) => u.companyId == Some(c)
  }

  /** A user given a company, keeping their role. */
  function WithCompany(c: Id): User -> User {
    (u: User) => u.(companyId := Some(c))
  }

  /** The user `inviteUser` creates: named after the part of the address
      before the first '@', filed under the stored form of the address, in the
      inviting company with the chosen role. */
  function Invitee(id: Id, c: Id, email: string, role: Role, passwordHash: string, now: int): (u: User)
    ensures u.id == id && u.companyId == Some(c) && u.role == role
    ensures u.email == Lower(Trim(email))
    ensures u.name == Trim(BeforeFirstAt(email)) && '@' !in BeforeFirstAt(email)
  {
    User(id, Trim(BeforeFirstAt(email)), StoredEmail(email), passwordHash, Some(c), role, now)
  }

  /** No guard keeps a company's last admin: giving the only admin another
      role leaves the company without one. */
  lemma {:induction false} LastAdminCanBeDemoted(users: seq<User>, id: Id, c: Id, role: Role)
    requires UniqueKeys(users, UserKey)
    requires role != Admin
    requires forall u :: u in users && u.companyId == Some(c) && u.role == Admin ==> u.id == id
    ensures forall u :: u in UpdateFirst(users, Is(UserKey, id), WithRole(role)) && u.companyId == Some(c) ==>
      u.role != Admin
  {
    var r := UpdateFirst(users, Is(UserKey, id), WithRole(role));
    var i := FirstIndex(users, Is(UserKey, id));
    forall u | u in r && u.companyId == Some(c) ensures u.role != Admin {
      var k :| 0 <= k < |r| && r[k] == u;
      if k == i {
        assert u == WithRole(role)(users[k]);
      } else {
        assert u == users[k];
        if k < i {
          assert !Is(UserKey, id)(users[k]);
        } else {
          assert users[i].id == id;
          assert UserKey(users[i]) != UserKey(users[k]);
        }
        assert u.id != id;
      }
    }
  }

  /** The first guard `signup` fails, if any: the required fields, the
      password length, an account already under the lower-cased address, an
      invite token, and a missing company name, in that order. */
  function SignupRejection(users: seq<User>, name: string, email: string, password: string,
                           companyName: string, inviteToken: string): (r: Option<string>)
    ensures r.None? <==>
      && name != "" && email != "" && password != "" && Utf16Length(password) >= 6
      && (forall u :: u in users ==> u.email != Lower(Trim(email)))
      && inviteToken == "" && companyName != ""
    ensures (name == "" || email == "" || password == "") ==>
      r == Some("Name, email, and password are required")
    ensures name != "" && email != "" && password != "" && Utf16Length(password) < 6 ==>
      r == Some("Password must be at least 6 characters")
    ensures name != "" && email != "" && Utf16Length(password) >= 6 && inviteToken != "" ==>
      r == Some("Email already registered") || r == Some("Invite token validation not implemented yet")
    ensures r == Some("Invite token validation not implemented yet") ==> inviteToken != ""
  {
    if name == "" || email == "" || password == "" then Some("Name, email, and password are required")
    else if Utf16Length(password) < 6 then Some("Password must be at least 6 characters")
    else if Find(users, HasEmail(StoredEmail(email))).Some? then Some("Email already registered")
    else if inviteToken != "" then Some("Invite token validation not implemented yet")
    else if companyName != "" then None
    else Some("Either company name or invite token is required")
  }

  /** The length guard counts UTF-16 units, as `password.length` does: three
      emoji outside the Basic Multilingual Plane are long enough. */
  lemma SignupCountsUtf16Units()
    ensures Utf16Length("\U{1F600}\U{1F600}\U{1F600}") == 6
    ensures SignupRejection([], "n", "a@b.co", "\U{1F600}\U{1F600}\U{1F600}", "Co", "") == None
  {
    var p := "\U{1F600}\U{1F600}\U{1F600}";
    assert p[1..][1..][1..] == [];
  }

  /** The account `signup` creates first, as an admin under a placeholder
      company id. */
  function Founder(id: Id, placeholder: Id, name: string, email: string, passwordHash: string, now: int): (u: User)
    ensures u.id == id && u.role == Admin && u.companyId == Some(placeholder)
    ensures u.email == Lower(Trim(email)) && u.name == Trim(name)
  {
    User(id, Trim(name), StoredEmail(email), passwordHash, Some(placeholder), Admin, now)
  }

  // ------------------------------------------------------------ the store

  class Ledger {
    var payments: seq<Payment>
    var expenses: seq<Expense>
    var projects: seq<Project>
    var members: seq<TeamMember>
    var users: seq<User>
    var companies: seq<Company>
    /** The next object id to hand out. */
    var nextId: Id

    /** Ids are unique within each collection and below the counter, and no
        two users share an e-mail (the unique index on `email`). */
    ghost predicate Valid()
      reads this
    {
      && KeysBelow(payments, PaymentKey, nextId) && UniqueKeys(payments, PaymentKey)
      && KeysBelow(expenses, ExpenseKey, nextId) && UniqueKeys(expenses, ExpenseKey)
      && KeysBelow(projects, ProjectKey, nextId) && UniqueKeys(projects, ProjectKey)
      && KeysBelow(members, MemberKey, nextId) && UniqueKeys(members, MemberKey)
      && KeysBelow(users, UserKey, nextId) && UniqueKeys(users, UserKey)
      && KeysBelow(companies, CompanyKey, nextId) && UniqueKeys(companies, CompanyKey)
      && UniqueKeys(users, UserEmail)
    }

    constructor ()
      ensures Valid()
      ensures payments == [] && expenses == [] && projects == [] && members == []
      ensures users == [] && companies == [] && nextId == 0
    {
      payments, expenses, projects, members := [], [], [], [];
      users, companies, nextId := [], [], 0;
    }

    // ---------------------------------------------------------- payments

    /** `createPayment`. */
    method CreatePayment(caller: SessionUser, form: PaymentForm, now: int) returns (r: Result<Payment>)
      requires Valid()
      modifies this
      ensures Valid()
      ensures ManagerScope(caller).Err? ==> r == Err(ManagerScope(caller).failure) && unchanged(this)
      ensures ManagerScope(caller).Ok? ==>
        var p := NewPayment(old(nextId), ManagerScope(caller).value, form, now);
        && r == Validated("Payment", p, PaymentErrors(p))
        && (r.Ok? ==> payments == old(payments) + [p] && nextId == old(nextId) + 1)
        && (r.Err? ==> payments == old(payments) && nextId == old(nextId))
        && expenses == old(expenses) && projects == old(projects) && members == old(members)
        && users == old(users) && companies == old(companies)
      ensures r.Ok? ==>
        forall c, m, y :: MonthlyIncome(payments, c, m, y)
          == old(MonthlyIncome(payments, c, m, y))
              + (if r.value.companyId == c && r.value.month == m && r.value.year == y then r.value.amount else 0)
    {
      var scope := ManagerScope(caller);
      if scope.Err? {
        return Err(scope.failure);
      }
      var p := NewPayment(nextId, scope.value, form, now);
      r := Validated("Payment", p, PaymentErrors(p));
      if r.Ok? {
        InsertPayment(p);
      }
    }

    /** `Payment.create` once validation has passed. */
    method InsertPayment(p: Payment)
      requires Valid()
      requires p.id == nextId
      modifies this
      ensures Valid()
      ensures payments == old(payments) + [p] && nextId == old(nextId) + 1
      ensures expenses == old(expenses) && projects == old(projects) && members == old(members)
      ensures users == old(users) && companies == old(companies)
      ensures forall c, m, y ::
        MonthlyIncome(payments, c, m, y)
          == old(MonthlyIncome(payments, c, m, y)) + (if p.companyId == c && p.month == m && p.year == y then p.amount else 0)
    {
      AppendFresh(payments, p, PaymentKey, nextId);
      MonthlyIncomeAfterAddAll(payments, p);
      payments := payments + [p];
      nextId := nextId + 1;
    }

    /** `getPayments(month?, year?, projectId?)`: the caller's payments
        selected by the optional filters, newest first. */
    method GetPayments(caller: SessionUser, month: Option<int>, year: Option<int>, projectId: Option<Id>)
      returns (r: Result<seq<Payment>>)
      ensures ReadScope(caller).Err? ==> r == Err(ReadScope(caller).failure)
      ensures ReadScope(caller).Ok? ==>
        && r.Ok?
        && multiset(r.value) == multiset(Filter(payments, PaymentListed(ReadScope(caller).value, month, year, projectId)))
        && SortedDesc(r.value, PaymentDate)
        && forall x :: x in r.value ==> x.companyId == ReadScope(caller).value
    {
      var scope := ReadScope(caller);
      if scope.Err? {
        return Err(scope.failure);
      }
      var q := BuildQuery(scope.value, month, year, projectId);
      FilterCongruent(payments, PaymentMatches(q), PaymentListed(scope.value, month, year, projectId));
      var found := SortDesc(Filter(payments, PaymentMatches(q)), PaymentDate);
      forall x | x in found ensures x.companyId == scope.value {
        assert x in multiset(Filter(payments, PaymentMatches(q)));
      }
      r := Ok(found);
    }

    /** `getMonthlyIncome(month, year)`. */
    method GetMonthlyIncome(caller: SessionUser, month: int, year: int) returns (r: Result<int>)
      ensures ReadScope(caller).Err? ==> r == Err(ReadScope(caller).failure)
      ensures ReadScope(caller).Ok? ==>
        && r.Ok?
        && r.value == Sum(Filter(payments, PaymentInMonth(ReadScope(caller).value, month, year)), PaymentAmount)
    {
      var scope := ReadScope(caller);
      if scope.Err? {
        return Err(scope.failure);
      }
      r := Ok(MonthlyIncome(payments, scope.value, month, year));
    }

    /** `getProjectTotalReceived(projectId)`. */
    method GetProjectTotalReceived(caller: SessionUser, projectId: Id) returns (r: Result<int>)
      ensures ReadScope(caller).Err? ==> r == Err(ReadScope(caller).failure)
      ensures ReadScope(caller).Ok? ==>
        && r.Ok?
        && r.value == Sum(Filter(payments, PaymentOfProject(ReadScope(caller).value, projectId)), PaymentAmount)
    {
      var scope := ReadScope(caller);
      if scope.Err? {
        return Err(scope.failure);
      }
      r := Ok(ProjectTotalReceived(payments, scope.value, projectId));
    }

    /** `deletePayment(id)`: removes the caller's payment with that id, if
        there is one, and succeeds either way. */
    method DeletePayment(caller: SessionUser, id: Id) returns (r: Result<()>)
      requires Valid()
      modifies this
      ensures Valid()
      ensures ManagerScope(caller).Err? ==> r == Err(ManagerScope(caller).failure) && unchanged(this)
      ensures ManagerScope(caller).Ok? ==>
        var hit := Both(Is(PaymentKey, id), Is(PaymentCompany, ManagerScope(caller).value));
        && r == Ok(())
        && payments == RemoveFirst(old(payments), hit)
        && (forall x :: x in payments ==> x in old(payments) && !hit(x))
        && (forall x :: x in old(payments) && !hit(x) ==> x in payments)
        && expenses == old(expenses) && projects == old(projects) && members == old(members)
        && users == old(users) && companies == old(companies) && nextId == old(nextId)
    {
      var scope := ManagerScope(caller);
      if scope.Err? {
        return Err(scope.failure);
      }
      var hit := Both(Is(PaymentKey, id), Is(PaymentCompany, scope.value));
      RemoveFirstOnly(payments, hit);
      RemoveFirstKeeps(payments, hit, PaymentKey);
      payments := RemoveFirst(payments, hit);
      r := Ok(());
    }

    // ---------------------------------------------------------- expenses

    /** `createExpense`. */
    method CreateExpense(caller: SessionUser, form: ExpenseForm, now: int) returns (r: Result<Expense>)
      requires Valid()
      modifies this
      ensures Valid()
      ensures ManagerScope(caller).Err? ==> r == Err(ManagerScope(caller).failure) && unchanged(this)
      ensures ManagerScope(caller).Ok? ==>
        var e := NewExpense(old(nextId), ManagerScope(caller).value, form, now);
        && r == Validated("Expense", e, ExpenseErrors(e))
        && (r.Ok? ==> expenses == old(expenses) + [e] && nextId == old(nextId) + 1)
        && (r.Err? ==> expenses == old(expenses) && nextId == old(nextId))
        && payments == old(payments) && projects == old(projects) && members == old(members)
        && users == old(users) && companies == old(companies)
      ensures r.Ok? ==>
        forall c, m, y :: MonthlyExpenses(expenses, c, m, y)
          == old(MonthlyExpenses(expenses, c, m, y))
              + (if r.value.companyId == c && r.value.month == m && r.value.year == y then r.value.amount else 0)
    {
      var scope := ManagerScope(caller);
      if scope.Err? {
        return Err(scope.failure);
      }
      var e := NewExpense(nextId, scope.value, form, now);
      r := Validated("Expense", e, ExpenseErrors(e));
      if r.Ok? {
        InsertExpense(e);
      }
    }

    /** `Expense.create` once validation has passed. */
    method InsertExpense(e: Expense)
      requires Valid()
      requires e.id == nextId
      modifies this
      ensures Valid()
      ensures expenses == old(expenses) + [e] && nextId == old(nextId) + 1
      ensures payments == old(payments) && projects == old(projects) && members == old(members)
      ensures users == old(users) && companies == old(companies)
      ensures forall c, m, y ::
        MonthlyExpenses(expenses, c, m, y)
          == old(MonthlyExpenses(expenses, c, m, y)) + (if e.companyId == c && e.month == m && e.year == y then e.amount else 0)
    {
      AppendFresh(expenses, e, ExpenseKey, nextId);
      MonthlyExpensesAfterAddAll(expenses, e);
      expenses := expenses + [e];
      nextId := nextId + 1;
    }

    /** `getExpenses(month?, year?, projectId?)`. */
    method GetExpenses(caller: SessionUser, month: Option<int>, year: Option<int>, projectId: Option<Id>)
      returns (r: Result<seq<Expense>>)
      ensures ReadScope(caller).Err? ==> r == Err(ReadScope(caller).failure)
      ensures ReadScope(caller).Ok? ==>
        && r.Ok?
        && multiset(r.value) == multiset(Filter(expenses, ExpenseListed(ReadScope(caller).value, month, year, projectId)))
        && SortedDesc(r.value, ExpenseDate)
        && forall x :: x in r.value ==> x.companyId == ReadScope(caller).value
    {
      var scope := ReadScope(caller);
      if scope.Err? {
        return Err(scope.failure);
      }
      var q := BuildQuery(scope.value, month, year, projectId);
      FilterCongruent(expenses, ExpenseMatches(q), ExpenseListed(scope.value, month, year, projectId));
      var found := SortDesc(Filter(expenses, ExpenseMatches(q)), ExpenseDate);
      forall x | x in found ensures x.companyId == scope.value {
        assert x in multiset(Filter(expenses, ExpenseMatches(q)));
      }
      r := Ok(found);
    }

    /** `getMonthlyExpenses(month, year)`. */
    method GetMonthlyExpenses(caller: SessionUser, month: int, year: int) returns (r: Result<int>)
      ensures ReadScope(caller).Err? ==> r == Err(ReadScope(caller).failure)
      ensures ReadScope(caller).Ok? ==>
        && r.Ok?
        && r.value == Sum(Filter(expenses, ExpenseInMonth(ReadScope(caller).value, month, year)), ExpenseAmount)
    {
      var scope := ReadScope(caller);
      if scope.Err? {
        return Err(scope.failure);
      }
      r := Ok(MonthlyExpenses(expenses, scope.value, month, year));
    }

    /** `deleteExpense(id)`. */
    method DeleteExpense(caller: SessionUser, id: Id) returns (r: Result<()>)
      requires Valid()
      modifies this
      ensures Valid()
      ensures ManagerScope(caller).Err? ==> r == Err(ManagerScope(caller).failure) && unchanged(this)
      ensures ManagerScope(caller).Ok? ==>
        var hit := Both(Is(ExpenseKey, id), Is(ExpenseCompany, ManagerScope(caller).value));
        && r == Ok(())
        && expenses == RemoveFirst(old(expenses), hit)
        && (forall x :: x in expenses ==> x in old(expenses) && !hit(x))
        && (forall x :: x in old(expenses) && !hit(x) ==> x in expenses)
        && payments == old(payments) && projects == old(projects) && members == old(members)
        && users == old(users) && companies == old(companies) && nextId == old(nextId)
    {
      var scope := ManagerScope(caller);
      if scope.Err? {
        return Err(scope.failure);
      }
      var hit := Both(Is(ExpenseKey, id), Is(ExpenseCompany, scope.value));
      RemoveFirstOnly(expenses, hit);
      RemoveFirstKeeps(expenses, hit, ExpenseKey);
      expenses := RemoveFirst(expenses, hit);
      r := Ok(());
    }

    // ---------------------------------------------------------- projects

    /** `createProject`. */
    method CreateProject(caller: SessionUser, form: ProjectForm, now: int) returns (r: Result<Project>)
      requires Valid()
      modifies this
      ensures Valid()
      ensures ManagerScope(caller).Err? ==> r == Err(ManagerScope(caller).failure) && unchanged(this)
      ensures ManagerScope(caller).Ok? ==>
        var p := NewProject(old(nextId), ManagerScope(caller).value, form, now);
        && r == Validated("Project", p, ProjectErrors(p))
        && (r.Ok? ==> projects == old(projects) + [p] && nextId == old(nextId) + 1)
        && (r.Err? ==> projects == old(projects) && nextId == old(nextId))
        && payments == old(payments) && expenses == old(expenses) && members == old(members)
        && users == old(users) && companies == old(companies)
    {
      var scope := ManagerScope(caller);
      if scope.Err? {
        return Err(scope.failure);
      }
      var p := NewProject(nextId, scope.value, form, now);
      r := Validated("Project", p, ProjectErrors(p));
      if r.Ok? {
        InsertProject(p);
      }
    }

    /** `Project.create` once validation has passed. */
    method InsertProject(p: Project)
      requires Valid()
      requires p.id == nextId
      modifies this
      ensures Valid()
      ensures projects == old(projects) + [p] && nextId == old(nextId) + 1
      ensures payments == old(payments) && expenses == old(expenses) && members == old(members)
      ensures users == old(users) && companies == old(companies)
    {
      AppendFresh(projects, p, ProjectKey, nextId);
      projects := projects + [p];
      nextId := nextId + 1;
    }

    /** `getProjects()`: the caller's projects, newest first. */
    method GetProjects(caller: SessionUser) returns (r: Result<seq<Project>>)
      ensures ReadScope(caller).Err? ==> r == Err(ReadScope(caller).failure)
      ensures ReadScope(caller).Ok? ==>
        && r.Ok?
        && multiset(r.value) == multiset(Filter(projects, Is(ProjectCompany, ReadScope(caller).value)))
        && SortedDesc(r.value, ProjectCreated)
    {
      var scope := ReadScope(caller);
      if scope.Err? {
        return Err(scope.failure);
      }
      r := Ok(SortDesc(Filter(projects, Is(ProjectCompany, scope.value)), ProjectCreated));
    }

    /** `getProject(id)`: the caller's project with that id. */
    method GetProject(caller: SessionUser, id: Id) returns (r: Result<Project>)
      ensures ReadScope(caller).Err? ==> r == Err(ReadScope(caller).failure)
      ensures ReadScope(caller).Ok? ==>
        var c := ReadScope(caller).value;
        && (r.Ok? <==> exists p :: p in projects && p.id == id && p.companyId == c)
        && (r.Ok? ==> r.value in projects && r.value.id == id && r.value.companyId == c)
        && (r.Err? ==> r.failure == Message("Project not found"))
    {
      var scope := ReadScope(caller);
      if scope.Err? {
        return Err(scope.failure);
      }
      var found := Find(projects, Both(Is(ProjectKey, id), Is(ProjectCompany, scope.value)));
      if found.None? {
        forall x | x in projects ensures !(x.id == id && x.companyId == scope.value) {
          assert !Both(Is(ProjectKey, id), Is(ProjectCompany, scope.value))(x);
        }
        return Err(Message("Project not found"));
      }
      r := Ok(found.value);
    }

    /** `updateProject(id, form)`: rewrites the caller's project with that id;
        the update runs no validators. */
    method UpdateProject(caller: SessionUser, id: Id, form: ProjectForm) returns (r: Result<Project>)
      requires Valid()
      modifies this
      ensures Valid()
      ensures ManagerScope(caller).Err? ==> r == Err(ManagerScope(caller).failure) && unchanged(this)
      ensures ManagerScope(caller).Ok? ==>
        var hit := Both(Is(ProjectKey, id), Is(ProjectCompany, ManagerScope(caller).value));
        var found := Find(old(projects), hit);
        && (found.None? ==> r == Err(Message("Project not found")) && projects == old(projects))
        && (found.Some? ==> r == Ok(ApplyProjectForm(form)(found.value))
                            && projects == UpdateFirst(old(projects), hit, ApplyProjectForm(form)))
        && payments == old(payments) && expenses == old(expenses) && members == old(members)
        && users == old(users) && companies == old(companies) && nextId == old(nextId)
    {
      var scope := ManagerScope(caller);
      if scope.Err? {
        return Err(scope.failure);
      }
      var hit := Both(Is(ProjectKey, id), Is(ProjectCompany, scope.value));
      var found := Find(projects, hit);
      if found.None? {
        return Err(Message("Project not found"));
      }
      UpdateFirstKeeps(projects, hit, ApplyProjectForm(form), ProjectKey);
      projects := UpdateFirst(projects, hit, ApplyProjectForm(form));
      r := Ok(ApplyProjectForm(form)(found.value));
    }

    /** `deleteProject(id)`. */
    method DeleteProject(caller: SessionUser, id: Id) returns (r: Result<()>)
      requires Valid()
      modifies this
      ensures Valid()
      ensures ManagerScope(caller).Err? ==> r == Err(ManagerScope(caller).failure) && unchanged(this)
      ensures ManagerScope(caller).Ok? ==>
        var hit := Both(Is(ProjectKey, id), Is(ProjectCompany, ManagerScope(caller).value));
        && r == Ok(())
        && projects == RemoveFirst(old(projects), hit)
        && (forall x :: x in projects ==> x in old(projects) && !hit(x))
        && (forall x :: x in old(projects) && !hit(x) ==> x in projects)
        && payments == old(payments) && expenses == old(expenses) && members == old(members)
        && users == old(users) && companies == old(companies) && nextId == old(nextId)
    {
      var scope := ManagerScope(caller);
      if scope.Err? {
        return Err(scope.failure);
      }
      var hit := Both(Is(ProjectKey, id), Is(ProjectCompany, scope.value));
      RemoveFirstOnly(projects, hit);
      RemoveFirstKeeps(projects, hit, ProjectKey);
      projects := RemoveFirst(projects, hit);
      r := Ok(());
    }

    // ---------------------------------------------------------- team

    /** `createTeamMember`. */
    method CreateTeamMember(caller: SessionUser, form: MemberForm, now: int) returns (r: Result<TeamMember>)
      requires Valid()
      modifies this
      ensures Valid()
      ensures ManagerScope(caller).Err? ==> r == Err(ManagerScope(caller).failure) && unchanged(this)
      ensures ManagerScope(caller).Ok? ==>
        var m := NewMember(old(nextId), ManagerScope(caller).value, form, now);
        && r == Validated("TeamMember", m, TeamMemberErrors(m))
        && (r.Ok? ==> members == old(members) + [m] && nextId == old(nextId) + 1)
        && (r.Err? ==> members == old(members) && nextId == old(nextId))
        && payments == old(payments) && expenses == old(expenses) && projects == old(projects)
        && users == old(users) && companies == old(companies)
    {
      var scope := ManagerScope(caller);
      if scope.Err? {
        return Err(scope.failure);
      }
      var m := NewMember(nextId, scope.value, form, now);
      r := Validated("TeamMember", m, TeamMemberErrors(m));
      if r.Ok? {
        InsertMember(m);
      }
    }

    /** `TeamMember.create` once validation has passed. */
    method InsertMember(m: TeamMember)
      requires Valid()
      requires m.id == nextId
      modifies this
      ensures Valid()
      ensures members == old(members) + [m] && nextId == old(nextId) + 1
      ensures payments == old(payments) && expenses == old(expenses) && projects == old(projects)
      ensures users == old(users) && companies == old(companies)
    {
      AppendFresh(members, m, MemberKey, nextId);
      members := members + [m];
      nextId := nextId + 1;
    }

    /** `getTeamMembers()`: the caller's team, newest first. */
    method GetTeamMembers(caller: SessionUser) returns (r: Result<seq<TeamMember>>)
      ensures ReadScope(caller).Err? ==> r == Err(ReadScope(caller).failure)
      ensures ReadScope(caller).Ok? ==>
        && r.Ok?
        && multiset(r.value) == multiset(Filter(members, Is(MemberCompany, ReadScope(caller).value)))
        && SortedDesc(r.value, MemberCreated)
    {
      var scope := ReadScope(caller);
      if scope.Err? {
        return Err(scope.failure);
      }
      r := Ok(SortDesc(Filter(members, Is(MemberCompany, scope.value)), MemberCreated));
    }

    /** `getTeamMember(id)`. */
    method GetTeamMember(caller: SessionUser, id: Id) returns (r: Result<TeamMember>)
      ensures ReadScope(caller).Err? ==> r == Err(ReadScope(caller).failure)
      ensures ReadScope(caller).Ok? ==>
        var c := ReadScope(caller).value;
        && (r.Ok? <==> exists m :: m in members && m.id == id && m.companyId == c)
        && (r.Ok? ==> r.value in members && r.value.id == id && r.value.companyId == c)
        && (r.Err? ==> r.failure == Message("Team member not found"))
    {
      var scope := ReadScope(caller);
      if scope.Err? {
        return Err(scope.failure);
      }
      var found := Find(members, Both(Is(MemberKey, id), Is(MemberCompany, scope.value)));
      if found.None? {
        forall x | x in members ensures !(x.id == id && x.companyId == scope.value) {
          assert !Both(Is(MemberKey, id), Is(MemberCompany, scope.value))(x);
        }
        return Err(Message("Team member not found"));
      }
      r := Ok(found.value);
    }

    /** `updateTeamMember(id, form)`; the update runs no validators. */
    method UpdateTeamMember(caller: SessionUser, id: Id, form: MemberForm) returns (r: Result<TeamMember>)
      requires Valid()
      modifies this
      ensures Valid()
      ensures ManagerScope(caller).Err? ==> r == Err(ManagerScope(caller).failure) && unchanged(this)
      ensures ManagerScope(caller).Ok? ==>
        var hit := Both(Is(MemberKey, id), Is(MemberCompany, ManagerScope(caller).value));
        var found := Find(old(members), hit);
        && (found.None? ==> r == Err(Message("Team member not found")) && members == old(members))
        && (found.Some? ==> r == Ok(ApplyMemberForm(form)(found.value))
                            && members == UpdateFirst(old(members), hit, ApplyMemberForm(form)))
        && payments == old(payments) && expenses == old(expenses) && projects == old(projects)
        && users == old(users) && companies == old(companies) && nextId == old(nextId)
    {
      var scope := ManagerScope(caller);
      if scope.Err? {
        return Err(scope.failure);
      }
      var hit := Both(Is(MemberKey, id), Is(MemberCompany, scope.value));
      var found := Find(members, hit);
      if found.None? {
        return Err(Message("Team member not found"));
      }
      UpdateFirstKeeps(members, hit, ApplyMemberForm(form), MemberKey);
      members := UpdateFirst(members, hit, ApplyMemberForm(form));
      r := Ok(ApplyMemberForm(form)(found.value));
    }

    /** `deleteTeamMember(id)`. */
    method DeleteTeamMember(caller: SessionUser, id: Id) returns (r: Result<()>)
      requires Valid()
      modifies this
      ensures Valid()
      ensures ManagerScope(caller).Err? ==> r == Err(ManagerScope(caller).failure) && unchanged(this)
      ensures ManagerScope(caller).Ok? ==>
        var hit := Both(Is(MemberKey, id), Is(MemberCompany, ManagerScope(caller).value));
        && r == Ok(())
        && members == RemoveFirst(old(members), hit)
        && (forall x :: x in members ==> x in old(members) && !hit(x))
        && (forall x :: x in old(members) && !hit(x) ==> x in members)
        && payments == old(payments) && expenses == old(expenses) && projects == old(projects)
        && users == old(users) && companies == old(companies) && nextId == old(nextId)
    {
      var scope := ManagerScope(caller);
      if scope.Err? {
        return Err(scope.failure);
      }
      var hit := Both(Is(MemberKey, id), Is(MemberCompany, scope.value));
      RemoveFirstOnly(members, hit);
      RemoveFirstKeeps(members, hit, MemberKey);
      members := RemoveFirst(members, hit);
      r := Ok(());
    }

    // ---------------------------------------------------------- users

    /** `User.create` once validation has passed and the e-mail is free. */
    method InsertUser(u: User, ids: nat)
      requires Valid()
      requires u.id == nextId && ids >= 1
      requires Find(users, HasEmail(u.email)).None?
      modifies this
      ensures Valid()
      ensures users == old(users) + [u] && nextId == old(nextId) + ids
      ensures payments == old(payments) && expenses == old(expenses) && projects == old(projects)
      ensures members == old(members) && companies == old(companies)
    {
      AppendUnique(users, u, UserKey);
      AppendUnique(users, u, UserEmail);
      users := users + [u];
      nextId := nextId + ids;
    }

    /** `User.findByIdAndUpdate(id, ...)` with an update that leaves the id and
        the e-mail alone. */
    method RewriteUser(id: Id, f: User -> User)
      requires Valid()
      requires forall x :: f(x).id == x.id && f(x).email == x.email
      modifies this
      ensures Valid()
      ensures users == UpdateFirst(old(users), Is(UserKey, id), f)
      ensures payments == old(payments) && expenses == old(expenses) && projects == old(projects)
      ensures members == old(members) && companies == old(companies) && nextId == old(nextId)
    {
      UpdateFirstKeeps(users, Is(UserKey, id), f, UserKey);
      UpdateFirstKeeps(users, Is(UserKey, id), f, UserEmail);
      users := UpdateFirst(users, Is(UserKey, id), f);
    }

    /** `Company.create` once validation has passed. */
    method InsertCompany(co: Company)
      requires Valid()
      requires co.id < nextId && forall x :: x in companies ==> x.id != co.id
      modifies this
      ensures Valid()
      ensures companies == old(companies) + [co]
      ensures payments == old(payments) && expenses == old(expenses) && projects == old(projects)
      ensures members == old(members) && users == old(users) && nextId == old(nextId)
    {
      AppendUnique(companies, co, CompanyKey);
      companies := companies + [co];
    }

    /** `Company.create` followed by `User.findByIdAndUpdate(ownerId, ...)`,
        handing out `ids` more ids first; only the owner's record changes. */
    method OpenCompany(co: Company, ids: nat, f: User -> User)
      requires Valid()
      requires co.id < nextId + ids && forall x :: x in companies ==> x.id != co.id
      requires forall x :: f(x).id == x.id && f(x).email == x.email
      modifies this
      ensures Valid()
      ensures companies == old(companies) + [co] && nextId == old(nextId) + ids
      ensures users == UpdateFirst(old(users), Is(UserKey, co.ownerId), f)
      ensures |users| == |old(users)|
      ensures forall j :: 0 <= j < |users| ==>
        users[j] == if old(users)[j].id == co.ownerId then f(old(users)[j]) else old(users)[j]
      ensures payments == old(payments) && expenses == old(expenses) && projects == old(projects)
      ensures members == old(members)
    {
      nextId := nextId + ids;
      InsertCompany(co);
      UpdateFirstAtKey(users, UserKey, co.ownerId, f);
      RewriteUser(co.ownerId, f);
    }

    // ---------------------------------------------------------- company

    /** `createCompany(name)` for the signed-in user. */
    method CreateCompany(caller: SessionUser, name: string, now: int) returns (r: Result<Company>)
      requires Valid()
      modifies this
      ensures Valid()
      ensures var me := Find(old(users), Is(UserKey, caller.id));
        && (me.Some? && me.value.companyId.Some? ==>
              r == Err(Message("User already belongs to a company")) && unchanged(this))
        && (!(me.Some? && me.value.companyId.Some?) && name == "" ==>
              r == Err(Message("Company name is required")) && unchanged(this))
        && (!(me.Some? && me.value.companyId.Some?) && name != "" ==>
              var co := Company(old(nextId), Trim(name), caller.id, now);
              && r == Validated("Company", co, CompanyErrors(co))
              && (r.Err? ==> unchanged(this))
              && (r.Ok? ==>
                    && companies == old(companies) + [co] && nextId == old(nextId) + 1
                    && users == UpdateFirst(old(users), Is(UserKey, caller.id), JoinCompany(co.id, Admin))))
      ensures payments == old(payments) && expenses == old(expenses)
      ensures projects == old(projects) && members == old(members)
      ensures r.Ok? ==> r.value.ownerId == caller.id && r.value.name != ""
      ensures r.Ok? ==> forall j :: 0 <= j < |users| && users[j].id == caller.id ==>
        users[j].companyId == Some(r.value.id) && users[j].role == Admin
    {
      var me := Find(users, Is(UserKey, caller.id));
      if me.Some? && me.value.companyId.Some? {
        return Err(Message("User already belongs to a company"));
      }
      if name == "" {
        return Err(Message("Company name is required"));
      }
      var co := Company(nextId, Trim(name), caller.id, now);
      r := Validated("Company", co, CompanyErrors(co));
      if r.Err? {
        return;
      }
      OpenCompany(co, 1, JoinCompany(co.id, Admin));
    }

    /** `inviteUser(email, role)`: attach an existing user without a company,
        or create one. */
    method InviteUser(caller: SessionUser, email: string, role: Option<Role>, passwordHash: string, now: int)
      returns (r: Result<Invitation>)
      requires Valid()
      modifies this
      ensures Valid()
      ensures AdminScope(caller).Err? ==> r == Err(AdminScope(caller).failure) && unchanged(this)
      ensures AdminScope(caller).Ok? && (email == "" || role.None?) ==>
        r == Err(Message("Email and role are required")) && unchanged(this)
      ensures AdminScope(caller).Ok? && email != "" && role.Some? ==>
        var c := AdminScope(caller).value;
        var existing := Find(old(users), HasEmail(Lower(Trim(email))));
        && (existing.Some? && existing.value.companyId.Some? ==>
              r == Err(Message("User already belongs to a company")) && unchanged(this))
        && (existing.Some? && existing.value.companyId.None? ==>
              && r == Ok(Attached(existing.value.id))
              && users == UpdateFirst(old(users), Is(UserKey, existing.value.id), JoinCompany(c, role.value))
              && nextId == old(nextId))
        && (existing.None? ==>
              var u := Invitee(old(nextId), c, email, role.value, passwordHash, now);
              var v := Validated("User", u, UserErrors(u));
              && (v.Err? ==> r == Err(v.failure) && unchanged(this))
              && (v.Ok? ==>
                    r == Ok(Created(u.id)) && users == old(users) + [u] && nextId == old(nextId) + 1))
      ensures payments == old(payments) && expenses == old(expenses) && projects == old(projects)
      ensures members == old(members) && companies == old(companies)
    {
      var scope := AdminScope(caller);
      if scope.Err? {
        return Err(scope.failure);
      }
      var c := scope.value;
      if email == "" || role.None? {
        return Err(Message("Email and role are required"));
      }
      var existing := Find(users, HasEmail(StoredEmail(email)));
      if existing.Some? {
        if existing.value.companyId.Some? {
          return Err(Message("User already belongs to a company"));
        }
        RewriteUser(existing.value.id, JoinCompany(c, role.value));
        return Ok(Attached(existing.value.id));
      }
      var u := Invitee(nextId, c, email, role.value, passwordHash, now);
      var v := Validated("User", u, UserErrors(u));
      if v.Err? {
        return Err(v.failure);
      }
      InsertUser(u, 1);
      r := Ok(Created(u.id));
    }

    /** `updateUserRole(userId, role)`: only a user of the caller's company,
        and only their role, changes. */
    method UpdateUserRole(caller: SessionUser, userId: Id, role: Role) returns (r: Result<()>)
      requires Valid()
      modifies this
      ensures Valid()
      ensures AdminScope(caller).Err? ==> r == Err(AdminScope(caller).failure) && unchanged(this)
      ensures AdminScope(caller).Ok? ==>
        var c := AdminScope(caller).value;
        && ((forall u :: u in old(users) ==> !(u.id == userId && u.companyId == Some(c))) ==>
              r == Err(Message("User not found")) && unchanged(this))
        && ((exists u :: u in old(users) && u.id == userId && u.companyId == Some(c)) ==>
              && r == Ok(())
              && |users| == |old(users)|
              && forall j :: 0 <= j < |users| ==>
                   users[j] == if old(users)[j].id == userId then old(users)[j].(role := role) else old(users)[j])
      ensures payments == old(payments) && expenses == old(expenses) && projects == old(projects)
      ensures members == old(members) && companies == old(companies) && nextId == old(nextId)
    {
      var scope := AdminScope(caller);
      if scope.Err? {
        return Err(scope.failure);
      }
      var found := Find(users, Both(Is(UserKey, userId), InCompany(scope.value)));
      if found.None? {
        forall x | x in users ensures !(x.id == userId && x.companyId == Some(scope.value)) {
          assert !Both(Is(UserKey, userId), InCompany(scope.value))(x);
        }
        return Err(Message("User not found"));
      }
      var before := users;
      RewriteUser(userId, WithRole(role));
      UpdateFirstAtKey(before, UserKey, userId, WithRole(role));
      r := Ok(());
    }

    /** `getCompanyUsers()`: the caller's company's users, newest first. */
    method GetCompanyUsers(caller: SessionUser) returns (r: Result<seq<User>>)
      ensures ReadScope(caller).Err? ==> r == Err(ReadScope(caller).failure)
      ensures ReadScope(caller).Ok? ==>
        && r.Ok?
        && multiset(r.value) == multiset(Filter(users, InCompany(ReadScope(caller).value)))
        && SortedDesc(r.value, UserCreated)
    {
      var scope := ReadScope(caller);
      if scope.Err? {
        return Err(scope.failure);
      }
      r := Ok(SortDesc(Filter(users, InCompany(scope.value)), UserCreated));
    }

    // ---------------------------------------------------------- signup

    /** The last steps of `signup`: store the founder's account, create the
        company it owns, then point the account at the company.  A company
        that fails validation leaves the account behind under its
        placeholder company id. */
    method Found(u: User, companyName: string, now: int) returns (r: Result<Account>)
      requires Valid()
      requires u.id == nextId && u.role == Admin
      requires Find(users, HasEmail(u.email)).None?
      modifies this
      ensures Valid()
      ensures var co := Company(old(nextId) + 2, Trim(companyName), u.id, now);
        var cv := Validated("Company", co, CompanyErrors(co));
        && nextId == old(nextId) + 3
        && (cv.Err? ==>
              r == Err(cv.failure) && users == old(users) + [u] && companies == old(companies))
        && (cv.Ok? ==>
              && r == Ok(Account(u.id, u.name, u.email, Admin, co.id))
              && users == old(users) + [u.(companyId := Some(co.id))]
              && companies == old(companies) + [co])
      ensures payments == old(payments) && expenses == old(expenses)
      ensures projects == old(projects) && members == old(members)
    {
      var before, base := users, nextId;
      InsertUser(u, 3);
      var co := Company(base + 2, Trim(companyName), u.id, now);
      var cv := Validated("Company", co, CompanyErrors(co));
      if cv.Err? {
        return Err(cv.failure);
      }
      assert forall i :: 0 <= i < |before| ==> UserKey(before[i]) < u.id;
      var mine := Is(UserKey, u.id);
      assert mine(u) == (UserKey(u) == u.id);
      UpdateFirstLast(before, u, mine, WithCompany(co.id));
      OpenCompany(co, 0, WithCompany(co.id));
      r := Ok(Account(u.id, u.name, u.email, Admin, co.id));
    }


    /** `signup`: create an admin account, then its company, then point the
        account at the company. */
    method Signup(name: string, email: string, password: string, companyName: string, inviteToken: string,
                  passwordHash: string, now: int)
      returns (r: Result<Account>)
      requires Valid()
      modifies this
      ensures Valid()
      ensures SignupRejection(old(users), name, email, password, companyName, inviteToken).Some? ==>
        && r == Err(Message(SignupRejection(old(users), name, email, password, companyName, inviteToken).value))
        && unchanged(this)
      ensures SignupRejection(old(users), name, email, password, companyName, inviteToken).None? ==>
        var u := Founder(old(nextId), old(nextId) + 1, name, email, passwordHash, now);
        var v := Validated("User", u, UserErrors(u));
        && (v.Err? ==> r == Err(v.failure) && unchanged(this))
        && (v.Ok? ==>
              var co := Company(old(nextId) + 2, Trim(companyName), u.id, now);
              var cv := Validated("Company", co, CompanyErrors(co));
              && nextId == old(nextId) + 3
              && (cv.Err? ==>
                    r == Err(cv.failure) && users == old(users) + [u] && companies == old(companies))
              && (cv.Ok? ==>
                    && r == Ok(Account(u.id, u.name, u.email, Admin, co.id))
                    && users == old(users) + [u.(companyId := Some(co.id))]
                    && companies == old(companies) + [co]))
      ensures payments == old(payments) && expenses == old(expenses)
      ensures projects == old(projects) && members == old(members)
      ensures r.Ok? ==> r.value.role == Admin && r.value.email == Lower(Trim(email))
    {
      var rejection := SignupRejection(users, name, email, password, companyName, inviteToken);
      if rejection.Some? {
        return Err(Message(rejection.value));
      }
      var u := Founder(nextId, nextId + 1, name, email, passwordHash, now);
      var v := Validated("User", u, UserErrors(u));
      if v.Err? {
        return Err(v.failure);
      }
      r := Found(u, companyName, now);
    }
  }
}
