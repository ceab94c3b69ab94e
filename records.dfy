/** The stored documents of the ledger, one datatype per collection, with the
    fixed value lists the schemas enumerate.  Object ids are natural numbers;
    `createdAt` is the timestamp Mongoose writes, as a number. */
module Records {
  import opened Outcome
  import opened Calendar
  import opened Access

  datatype Payment = Payment(
    id: Id,
    companyId: Id,
    projectId: Id,
    amount: int,
    date: Date,
    month: int,
    year: int,
    notes: Option<string>,
    createdAt: int)

  datatype Expense = Expense(
    id: Id,
    companyId: Id,
    projectId: Id,
    teamMemberId: Option<Id>,
    kind: string,
    amount: int,
    date: Date,
    month: int,
    year: int,
    description: string,
    createdAt: int)

  datatype Project = Project(
    id: Id,
    companyId: Id,
    name: string,
    clientName: string,
    startDate: Date,
    endDate: Option<Date>,
    totalBudget: int,
    currency: string,
    description: Option<string>,
    createdAt: int)

  datatype TeamMember = TeamMember(
    id: Id,
    companyId: Id,
    name: string,
    role: string,
    payoutType: string,
    payoutAmount: Option<int>,
    payoutPercentage: Option<int>,
    createdAt: int)

  datatype User = User(
    id: Id,
    name: string,
    email: string,
    passwordHash: string,
    companyId: Option<Id>,
    role: Role,
    createdAt: int)

  datatype Company = Company(id: Id, name: string, ownerId: Id, createdAt: int)

  /** The `ExpenseType` enumeration. */
  const ExpenseTypes: seq<string> := ["team", "tools", "misc"]

  /** The payout types a team member may have. */
  const PayoutTypes: seq<string> := ["fixed", "percentage"]

  /** The currency codes a project may carry: ISO codes plus BTC and ETH, used
      as display tags only. */
  const CurrencyRow0: seq<string> := ["USD", "EUR", "GBP", "INR", "CAD", "AUD", "JPY", "CNY", "AED", "SAR"]
  const CurrencyRow1: seq<string> := ["PKR", "BDT", "LKR", "NPR", "MYR", "SGD", "THB", "PHP", "IDR", "VND"]
  const CurrencyRow2: seq<string> := ["KRW", "HKD", "NZD", "ZAR", "BRL", "MXN", "CHF", "SEK", "NOK", "DKK"]
  const CurrencyRow3: seq<string> := ["PLN", "CZK", "HUF", "RON", "BGN", "HRK", "RUB", "TRY", "ILS", "EGP"]
  const CurrencyRow4: seq<string> := ["NGN", "KES", "GHS", "UGX", "TZS", "ETB", "MAD", "TND", "DZD", "SDG"]
  const CurrencyRow5: seq<string> := ["SSP", "ZWL", "XOF", "XAF", "XPF", "ANG", "AWG", "BBD", "BMD", "BZD"]
  const CurrencyRow6: seq<string> := ["BSD", "BWP", "BND", "KHR", "KYD", "FJD", "GYD", "HTG", "JMD", "KZT"]
  const CurrencyRow7: seq<string> := ["KWD", "KGS", "LAK", "LBP", "LRD", "LSL", "MOP", "MUR", "MVR", "MWK"]
  const CurrencyRow8: seq<string> := ["MZN", "NAD", "NIO", "OMR", "PAB", "PGK", "PYG", "QAR", "RWF", "SBD"]
  const CurrencyRow9: seq<string> := ["SCR", "SLL", "SOS", "SRD", "STN", "SYP", "SZL", "TJS", "TMT", "TOP"]
  const CurrencyRow10: seq<string> := ["TTD", "TWD", "UAH", "UYU", "UZS", "VUV", "WST", "XCD", "YER", "ZMW"]
  const CurrencyRow11: seq<string> := ["BTC", "ETH"]
  const Currencies: seq<string> :=
    CurrencyRow0 + CurrencyRow1 + CurrencyRow2 + CurrencyRow3 + CurrencyRow4 + CurrencyRow5
    + CurrencyRow6 + CurrencyRow7 + CurrencyRow8 + CurrencyRow9 + CurrencyRow10 + CurrencyRow11

  /** The currency a project is shown and counted in: its own, or USD when it
      has none (the `currency || 'USD'` fallback). */
  function CurrencyOrUsd(currency: string): (c: string)
    ensures c != ""
    ensures currency != "" ==> c == currency
  {
    if currency == "" then "USD" else currency
  }

  // Field accessors, passed as keys and amounts to the sequence combinators.

  function PaymentKey(p: Payment): Id { p.id }
  function PaymentCompany(p: Payment): Id { p.companyId }
  function PaymentProject(p: Payment): Id { p.projectId }
  function PaymentAmount(p: Payment): int { p.amount }
  function PaymentBucket(p: Payment): MonthKey { MonthKey(p.month, p.year) }
  function PaymentDate(p: Payment): int { DateOrdinal(p.date) }

  function ExpenseKey(e: Expense): Id { e.id }
  function ExpenseCompany(e: Expense): Id { e.companyId }
  function ExpenseProject(e: Expense): Id { e.projectId }
  function ExpenseAmount(e: Expense): int { e.amount }
  function ExpenseMember(e: Expense): Option<Id> { e.teamMemberId }
  function ExpenseDate(e: Expense): int { DateOrdinal(e.date) }

  function ProjectKey(p: Project): Id { p.id }
  function ProjectCompany(p: Project): Id { p.companyId }
  function ProjectCreated(p: Project): int { p.createdAt }
  function ProjectCurrency(p: Project): string { CurrencyOrUsd(p.currency) }

  function MemberKey(m: TeamMember): Id { m.id }
  function MemberCompany(m: TeamMember): Id { m.companyId }
  function MemberCreated(m: TeamMember): int { m.createdAt }

  function UserKey(u: User): Id { u.id }
  function UserEmail(u: User): string { u.email }
  function UserCreated(u: User): int { u.createdAt }

  function CompanyKey(c: Company): Id { c.id }
}
