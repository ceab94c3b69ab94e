/** The schema validators, as Mongoose runs them when a document is created.

    For every path the `required` validator runs first and the others follow
    in the order they are declared; a path reports its first failing
    validator only, and the paths are reported in schema order.  A validator
    other than `required` is not called on an absent value.  The `trim` and
    `lowercase` setters have already been applied to the stored strings, so
    `required` on a trimmed path fails on the empty string. */
module Schema {
  import opened Outcome
  import opened Text
  import opened Records

  /** One validator: no error when `ok`, otherwise one error on `path`. */
  function Check(ok: bool, path: string, message: string): (es: seq<FieldError>)
    ensures es == [] <==> ok
    ensures !ok ==> es == [FieldError(path, message)]
  {
    if ok then [] else [FieldError(path, message)]
  }

  /** At most one error per path, each on one of the schema's `paths`: a
      path reports its first failing validator only. */
  predicate OneErrorPerPath(es: seq<FieldError>, paths: seq<string>) {
    && (forall i :: 0 <= i < |es| ==> es[i].path in paths)
    && (forall i, j :: 0 <= i < j < |es| ==> es[i].path != es[j].path)
  }

  /** Appending the errors of one more path keeps one error per path. */
  lemma AddPath(es: seq<FieldError>, paths: seq<string>, part: seq<FieldError>, p: string)
    requires OneErrorPerPath(es, paths) && p !in paths
    requires OnPath(part, p)
    ensures OneErrorPerPath(es + part, paths + [p])
  {
    var r := es + part;
    forall i, j | 0 <= i < j < |r| ensures r[i].path != r[j].path {
      if j >= |es| {
        assert r[j] in part;
        assert r[i] == es[i];
      }
    }
  }

  /** At most one error, on path `p`: what one path's validators report. */
  predicate OnPath(part: seq<FieldError>, p: string) {
    |part| <= 1 && forall e :: e in part ==> e.path == p
  }

  lemma Join3(a: seq<FieldError>, b: seq<FieldError>, c: seq<FieldError>, pa: string, pb: string, pc: string)
    requires OnPath(a, pa) && OnPath(b, pb) && OnPath(c, pc)
    requires pa != pb && pa != pc && pb != pc
    ensures OneErrorPerPath(a + b + c, [pa, pb, pc])
  {
    AddPath([], [], a, pa);
    assert [] + a == a;
    AddPath(a, [pa], b, pb);
    AddPath(a + b, [pa, pb], c, pc);
  }

  lemma Join4(a: seq<FieldError>, b: seq<FieldError>, c: seq<FieldError>, d: seq<FieldError>,
              pa: string, pb: string, pc: string, pd: string)
    requires OnPath(a, pa) && OnPath(b, pb) && OnPath(c, pc) && OnPath(d, pd)
    requires pa != pb && pa != pc && pa != pd && pb != pc && pb != pd && pc != pd
    ensures OneErrorPerPath(a + b + c + d, [pa, pb, pc, pd])
  {
    Join3(a, b, c, pa, pb, pc);
    AddPath(a + b + c, [pa, pb, pc], d, pd);
  }

  lemma Join5(a: seq<FieldError>, b: seq<FieldError>, c: seq<FieldError>, d: seq<FieldError>, e: seq<FieldError>,
              pa: string, pb: string, pc: string, pd: string, pe: string)
    requires OnPath(a, pa) && OnPath(b, pb) && OnPath(c, pc) && OnPath(d, pd) && OnPath(e, pe)
    requires pa != pb && pa != pc && pa != pd && pa != pe && pb != pc && pb != pd && pb != pe
    requires pc != pd && pc != pe && pd != pe
    ensures OneErrorPerPath(a + b + c + d + e, [pa, pb, pc, pd, pe])
  {
    Join4(a, b, c, d, pa, pb, pc, pd);
    AddPath(a + b + c + d, [pa, pb, pc, pd], e, pe);
  }

  /** The message of a failed `enum` validator. */
  function EnumMessage(value: string, path: string): string {
    "`" + value + "` is not a valid enum value for path `" + path + "`."
  }

  /** `min: [0, message]` on a number. */
  function Min0(v: int, path: string, message: string): (es: seq<FieldError>)
    ensures OnPath(es, path)
  {
    Check(v >= 0, path, message)
  }

  /** `min: [1, ...]` and `max: [12, ...]` on a month, both with one message. */
  function MonthErrors(m: int): (es: seq<FieldError>)
    ensures es == [] <==> 1 <= m <= 12
    ensures OnPath(es, "month")
  {
    if m < 1 then [FieldError("month", "Month must be between 1 and 12")]
    else Check(m <= 12, "month", "Month must be between 1 and 12")
  }

  /** The `enum` test: `v` is one of `values`, scanning from the front. */
  predicate Listed(v: string, values: seq<string>)
    decreases |values|
  {
    values != [] && (values[0] == v || Listed(v, values[1..]))
  }

  lemma {:induction false} ListedIsMembership(v: string, values: seq<string>)
    ensures Listed(v, values) <==> v in values
    decreases |values|
  {
    if values != [] {
      ListedIsMembership(v, values[1..]);
      assert values == [values[0]] + values[1..];
    }
  }

  /** A required string path that must take one of `values`. */
  function RequiredEnum(v: string, values: seq<string>, path: string, requiredMessage: string): (es: seq<FieldError>)
    ensures OnPath(es, path)
  {
    if v == "" then [FieldError(path, requiredMessage)]
    else Check(Listed(v, values), path, EnumMessage(v, path))
  }

  // ---------------------------------------------------------------- Payment

  function PaymentErrors(p: Payment): (es: seq<FieldError>)
    ensures OneErrorPerPath(es, ["amount", "month", "year"])
  {
    var amount := Min0(p.amount, "amount", "Amount must be positive");
    var month := MonthErrors(p.month);
    var year := Check(p.year >= 2000, "year", "Year must be valid");
    Join3(amount, month, year, "amount", "month", "year");
    amount + month + year
  }

  /** A payment is accepted exactly when its amount is not negative, its month
      is a calendar month and its year is 2000 or later; every rejection names
      the path at fault with the schema's message. */
  lemma PaymentErrorsSpec(p: Payment)
    ensures PaymentErrors(p) == [] <==> p.amount >= 0 && 1 <= p.month <= 12 && p.year >= 2000
    ensures p.amount < 0 ==> FieldError("amount", "Amount must be positive") in PaymentErrors(p)
    ensures !(1 <= p.month <= 12) ==> FieldError("month", "Month must be between 1 and 12") in PaymentErrors(p)
    ensures p.year < 2000 ==> FieldError("year", "Year must be valid") in PaymentErrors(p)
  {
  }

  // ---------------------------------------------------------------- Expense

  /** `teamMemberId` has no validator, so a team expense without a member is
      accepted. */
  function ExpenseErrors(e: Expense): (es: seq<FieldError>)
    ensures OneErrorPerPath(es, ["type", "amount", "month", "year", "description"])
  {
    var kind := RequiredEnum(e.kind, ExpenseTypes, "type", "Expense type is required");
    var amount := Min0(e.amount, "amount", "Amount must be positive");
    var month := MonthErrors(e.month);
    var year := Check(e.year >= 2000, "year", "Year must be valid");
    var description := Check(e.description != "", "description", "Description is required");
    Join5(kind, amount, month, year, description, "type", "amount", "month", "year", "description");
    kind + amount + month + year + description
  }

  lemma ExpenseErrorsSpec(e: Expense)
    ensures ExpenseErrors(e) == [] <==>
      e.kind in ExpenseTypes && e.amount >= 0 && 1 <= e.month <= 12 && e.year >= 2000
      && e.description != ""
    ensures e.kind == "" ==> ExpenseErrors(e)[0] == FieldError("type", "Expense type is required")
    ensures e.kind != "" && e.kind !in ExpenseTypes ==>
      ExpenseErrors(e)[0] == FieldError("type", EnumMessage(e.kind, "type"))
    ensures e.description == "" ==> FieldError("description", "Description is required") in ExpenseErrors(e)
  {
    assert "" !in ExpenseTypes;
  }

  /** A team expense with no team member passes validation. */
  lemma TeamExpenseWithoutMember(e: Expense)
    requires e.kind == "team" && e.teamMemberId.None?
    requires e.amount >= 0 && 1 <= e.month <= 12 && e.year >= 2000 && e.description != ""
    ensures ExpenseErrors(e) == []
  {
    ExpenseErrorsSpec(e);
  }

  // ---------------------------------------------------------------- Project

  /** The Project validators, for a given list of accepted currencies. */
  function ProjectErrorsWith(p: Project, currencies: seq<string>): (es: seq<FieldError>)
    ensures OneErrorPerPath(es, ["name", "clientName", "totalBudget", "currency"])
  {
    var name := Check(p.name != "", "name", "Project name is required");
    var client := Check(p.clientName != "", "clientName", "Client name is required");
    var budget := Min0(p.totalBudget, "totalBudget", "Amount must be positive");
    var currency := RequiredEnum(p.currency, currencies, "currency", "Currency is required");
    Join4(name, client, budget, currency, "name", "clientName", "totalBudget", "currency");
    name + client + budget + currency
  }

  function ProjectErrors(p: Project): (es: seq<FieldError>)
    ensures OneErrorPerPath(es, ["name", "clientName", "totalBudget", "currency"])
  {
    ProjectErrorsWith(p, Currencies)
  }

  lemma ProjectErrorsWithSpec(p: Project, currencies: seq<string>)
    ensures ProjectErrorsWith(p, currencies) == [] <==>
      p.name != "" && p.clientName != "" && p.totalBudget >= 0 && p.currency != ""
      && Listed(p.currency, currencies)
    ensures p.name == "" ==> ProjectErrorsWith(p, currencies)[0] == FieldError("name", "Project name is required")
  {
  }

  /** A project is accepted exactly when name and client name are set, the
      budget is not negative and the currency is one of the listed codes. */
  lemma ProjectErrorsSpec(p: Project)
    ensures ProjectErrors(p) == [] <==>
      p.name != "" && p.clientName != "" && p.totalBudget >= 0 && p.currency != "" && p.currency in Currencies
    ensures p.name == "" ==> ProjectErrors(p)[0] == FieldError("name", "Project name is required")
  {
    ProjectErrorsWithSpec(p, Currencies);
    ListedIsMembership(p.currency, Currencies);
  }

  /** The list holds 112 codes, among them the default USD and the two crypto
      tags. */
  lemma CurrencyListFacts()
    ensures |Currencies| == 112
    ensures "USD" in Currencies && "BTC" in Currencies && "ETH" in Currencies
  {
    assert Currencies[0] == "USD";
    assert Currencies[110] == "BTC" && Currencies[111] == "ETH";
  }

  // ------------------------------------------------------------- TeamMember

  /** `payoutAmount`: `min` and then the custom validator, neither of which is
      called when the amount is absent. */
  function PayoutAmountErrors(m: TeamMember): (es: seq<FieldError>)
    ensures OnPath(es, "payoutAmount")
  {
    match m.payoutAmount
    case None => []
    case Some(v) =>
      if v < 0 then [FieldError("payoutAmount", "Payout amount must be positive")]
      else Check(m.payoutType != "fixed" || v >= 0, "payoutAmount",
                 "Fixed payout amount is required when payout type is fixed")
  }

  /** `payoutPercentage`: `min`, `max`, then the custom validator, none of which
      is called when the percentage is absent. */
  function PayoutPercentageErrors(m: TeamMember): (es: seq<FieldError>)
    ensures OnPath(es, "payoutPercentage")
  {
    match m.payoutPercentage
    case None => []
    case Some(v) =>
      if v < 0 || v > 100 then [FieldError("payoutPercentage", "Percentage must be between 0 and 100")]
      else Check(m.payoutType != "percentage" || (0 <= v <= 100), "payoutPercentage",
                 "Payout percentage is required when payout type is percentage")
  }

  function TeamMemberErrors(m: TeamMember): (es: seq<FieldError>)
    ensures OneErrorPerPath(es, ["name", "role", "payoutType", "payoutAmount", "payoutPercentage"])
  {
    var name := Check(m.name != "", "name", "Team member name is required");
    var role := Check(m.role != "", "role", "Role is required");
    var kind := RequiredEnum(m.payoutType, PayoutTypes, "payoutType", "Payout type is required");
    var amount := PayoutAmountErrors(m);
    var percentage := PayoutPercentageErrors(m);
    Join5(name, role, kind, amount, percentage, "name", "role", "payoutType", "payoutAmount", "payoutPercentage");
    name + role + kind + amount + percentage
  }

  /** A member is accepted exactly when name, role and payout type are set,
      and each payout figure that is present is in range: an amount not
      negative, a percentage between 0 and 100. */
  lemma TeamMemberErrorsSpec(m: TeamMember)
    ensures TeamMemberErrors(m) == [] <==>
      m.name != "" && m.role != "" && m.payoutType in PayoutTypes
      && (m.payoutAmount.Some? ==> m.payoutAmount.value >= 0)
      && (m.payoutPercentage.Some? ==> 0 <= m.payoutPercentage.value <= 100)
  {
    assert "" !in PayoutTypes;
  }

  /** The conditional validators never report: when they are called the
      range validator before them has either failed already or guaranteed
      that they pass, so each payout path fails with its range message or not
      at all. */
  lemma PayoutConditionalsNeverFire(m: TeamMember)
    ensures PayoutAmountErrors(m) == []
      || PayoutAmountErrors(m) == [FieldError("payoutAmount", "Payout amount must be positive")]
    ensures PayoutPercentageErrors(m) == []
      || PayoutPercentageErrors(m) == [FieldError("payoutPercentage", "Percentage must be between 0 and 100")]
  {
  }

  /** So a fixed-payout member without an amount, or a percentage member
      without a percentage, is accepted. */
  lemma MissingPayoutAccepted(m: TeamMember)
    requires m.name != "" && m.role != "" && m.payoutAmount.None? && m.payoutPercentage.None?
    requires m.payoutType == "fixed" || m.payoutType == "percentage"
    ensures TeamMemberErrors(m) == []
  {
    TeamMemberErrorsSpec(m);
  }

  // ------------------------------------------------------------------- User

  /** `companyId` is required; `role` is an enumeration the `Role` type
      already enforces. */
  /** `email`: `required`, then `match`, which accepts the shape `a@b.c`. */
  function EmailErrors(email: string): (es: seq<FieldError>)
    ensures OnPath(es, "email")
    ensures es == [] <==> EmailShape(email)
  {
    MatchesEmailPatternIff(email);
    if email == "" then [FieldError("email", "Email is required")]
    else Check(MatchesEmailPattern(email), "email", "Please enter a valid email")
  }

  /** `passwordHash`: `required`, then `minlength`, which counts UTF-16 code
      units. */
  function PasswordErrors(hash: string): (es: seq<FieldError>)
    ensures OnPath(es, "passwordHash")
    ensures es == [] <==> Utf16Length(hash) >= 6
  {
    if hash == "" then [FieldError("passwordHash", "Password is required")]
    else Check(Utf16Length(hash) >= 6, "passwordHash", "Password must be at least 6 characters")
  }

  function UserErrors(u: User): (es: seq<FieldError>)
    ensures OneErrorPerPath(es, ["name", "email", "passwordHash", "companyId"])
  {
    var name := Check(u.name != "", "name", "Name is required");
    var email := EmailErrors(u.email);
    var password := PasswordErrors(u.passwordHash);
    var company := Check(u.companyId.Some?, "companyId", "Path `companyId` is required.");
    Join4(name, email, password, company, "name", "email", "passwordHash", "companyId");
    name + email + password + company
  }

  /** A user is accepted exactly when the name is set, the e-mail has the
      shape `a@b.c` without whitespace, the password hash has at least six
      characters and the user has a company. */
  lemma UserErrorsSpec(u: User)
    ensures UserErrors(u) == [] <==>
      u.name != "" && EmailShape(u.email) && Utf16Length(u.passwordHash) >= 6 && u.companyId.Some?
    ensures !EmailShape(u.email) ==>
      FieldError("email", if u.email == "" then "Email is required" else "Please enter a valid email")
      in UserErrors(u)
  {
    MatchesEmailPatternIff(u.email);
    var nameErrors := Check(u.name != "", "name", "Name is required");
    var emailErrors := EmailErrors(u.email);
    var passwordErrors := PasswordErrors(u.passwordHash);
    var companyErrors := Check(u.companyId.Some?, "companyId", "Path `companyId` is required.");
    assert UserErrors(u) == nameErrors + emailErrors + passwordErrors + companyErrors;
    assert u.passwordHash == "" ==> Utf16Length(u.passwordHash) == 0;
  }

  // ---------------------------------------------------------------- Company

  function CompanyErrors(c: Company): (es: seq<FieldError>)
    ensures OneErrorPerPath(es, ["name"])
  {
    var name := Check(c.name != "", "name", "Company name is required");
    AddPath([], [], name, "name");
    name
  }

  /** The stored (trimmed) company name is required: a name of blanks is
      rejected. */
  lemma CompanyErrorsSpec(c: Company, submitted: string)
    requires c.name == Trim(submitted)
    ensures CompanyErrors(c) == [] <==> !AllSpace(submitted)
  {
    TrimEmptyIffAllSpace(submitted);
  }

  /** Run a model's validators: the document, or a validation failure that
      lists every failing path. */
  function Validated<T>(model: string, doc: T, errors: seq<FieldError>): (r: Result<T>)
    ensures r.Ok? <==> errors == []
    ensures r.Ok? ==> r.value == doc
    ensures r.Err? ==> r.failure == Invalid(model, errors)
  {
    if errors == [] then Ok(doc) else Err(Invalid(model, errors))
  }
}
