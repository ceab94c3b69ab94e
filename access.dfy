/** Access policy: the three roles, their ranks, the role guards every action
    calls first, and the session guards used by pages.  The session is a
    parameter: resolving it from cookies is not part of this model. */
module Access {
  import opened Outcome

  datatype Role = Admin | Manager | Member

  function RoleName(r: Role): string {
    match r
    case Admin => "admin"
    case Manager => "manager"
    case Member => "member"
  }

  /** The `roleHierarchy` table: member 1, manager 2, admin 3. */
  function Rank(r: Role): int {
    match r
    case Member => 1
    case Manager => 2
    case Admin => 3
  }

  /** The ranks order the roles strictly, member < manager < admin, so no two
      roles share a rank. */
  lemma RankOrder(a: Role, b: Role)
    ensures Rank(Member) < Rank(Manager) < Rank(Admin)
    ensures 1 <= Rank(a) <= 3
    ensures Rank(a) == Rank(b) <==> a == b
  {
  }

  /** The message `requireRole` throws. */
  function AccessDenied(required: Role): string {
    "Access denied. Requires " + RoleName(required) + " role."
  }

  /** `requireRole(required)` for a caller holding `actual`: throws when the
      caller's rank is below the required one, otherwise hands back the
      caller's own role. */
  function RequireRole(actual: Role, required: Role): (r: Result<Role>)
    ensures r.Ok? <==> Rank(actual) >= Rank(required)
    ensures r.Ok? ==> r.value == actual
  {
    if Rank(actual) < Rank(required) then Err(Message(AccessDenied(required)))
    else Ok(actual)
  }

  /** The guard fails exactly when the caller ranks below the requirement, and
      on success returns the caller's role unchanged, not the required one. */
  lemma RequireRoleSpec(actual: Role, required: Role)
    ensures RequireRole(actual, required).Err? <==> Rank(actual) < Rank(required)
    ensures RequireRole(actual, required).Ok? ==> RequireRole(actual, required).value == actual
    ensures RequireRole(actual, required).Err? ==>
      RequireRole(actual, required).failure == Message(AccessDenied(required))
  {
  }

  /** A role that passes a requirement passes every requirement of lower or
      equal rank. */
  lemma RequireRoleMonotone(actual: Role, required: Role, weaker: Role)
    requires RequireRole(actual, required).Ok?
    requires Rank(weaker) <= Rank(required)
    ensures RequireRole(actual, weaker).Ok?
  {
  }

  function RequireAdmin(actual: Role): (r: Result<Role>)
    ensures r.Ok? <==> actual == Admin
  {
    RequireRole(actual, Admin)
  }

  function RequireManager(actual: Role): (r: Result<Role>)
    ensures r.Ok? <==> actual != Member
  {
    RequireRole(actual, Manager)
  }

  /** `requireAdmin` admits the admin alone. */
  lemma RequireAdminIff(actual: Role)
    ensures RequireAdmin(actual).Ok? <==> actual == Admin
  {
  }

  /** `requireManager` admits managers and admins and turns members away. */
  lemma RequireManagerIff(actual: Role)
    ensures RequireManager(actual).Ok? <==> actual == Manager || actual == Admin
    ensures RequireManager(Member) == Err(Message("Access denied. Requires manager role."))
  {
    assert AccessDenied(Manager) == "Access denied. Requires manager role.";
  }

  /** `canEdit`: admins and managers may edit. */
  predicate CanEdit(r: Role)
    ensures CanEdit(r) <==> Rank(r) >= Rank(Manager)
  {
    r == Admin || r == Manager
  }

  /** The page-level `canEdit` agrees with the server-side manager guard, and
      with rank at least 2. */
  lemma CanEditAgreesWithGuard(r: Role)
    ensures CanEdit(r) <==> RequireManager(r).Ok?
    ensures CanEdit(r) <==> Rank(r) >= 2
    ensures !CanEdit(Member)
  {
  }

  type Id = nat

  /** The user carried by the session token. */
  datatype SessionUser = SessionUser(id: Id, role: Role, companyId: Option<Id>)

  const NoCompany: string := "No company associated with user"

  /** `getCurrentCompanyId`: fails when there is no session user or the user
      has no company. */
  function CurrentCompanyId(session: Option<SessionUser>): (r: Result<Id>)
    ensures r.Ok? ==> session.Some? && session.value.companyId == Some(r.value)
    ensures session.Some? && session.value.companyId.Some? ==> r.Ok?
  {
    if session.Some? && session.value.companyId.Some? then Ok(session.value.companyId.value)
    else Err(Message(NoCompany))
  }

  lemma CurrentCompanyIdSpec(session: Option<SessionUser>)
    ensures CurrentCompanyId(session).Ok? <==> session.Some? && session.value.companyId.Some?
    ensures CurrentCompanyId(session).Ok? ==> CurrentCompanyId(session).value == session.value.companyId.value
    ensures CurrentCompanyId(session).Err? ==> CurrentCompanyId(session).failure == Message(NoCompany)
  {
  }

  /** What a page guard does: let the request through with a value, or
      redirect to another page. */
  datatype Guard<+T> = Pass(value: T) | Redirect(path: string)

  /** `requireAuth`: redirect to the login page when there is no user. */
  function RequireAuth(session: Option<SessionUser>): (g: Guard<SessionUser>)
    ensures g.Pass? <==> session.Some?
    ensures g.Pass? ==> g.value == session.value
  {
    match session
    case None => Redirect("/login")
    case Some(u) => Pass(u)
  }

  /** `requireTeamLead`: an authenticated admin passes; anyone else is sent to
      the dashboard. */
  function RequireTeamLead(session: Option<SessionUser>): (g: Guard<SessionUser>)
    ensures g.Pass? <==> session.Some? && session.value.role == Admin
    ensures g.Pass? ==> g.value == session.value
  {
    match RequireAuth(session)
    case Redirect(p) => Redirect(p)
    case Pass(u) => if u.role != Admin then Redirect("/dashboard") else Pass(u)
  }

  /** Without a user both guards send the visitor to the login page; with one,
      the team-lead guard passes exactly the admins and passes them unchanged. */
  lemma SessionGuards(session: Option<SessionUser>)
    ensures session.None? ==> RequireAuth(session) == Redirect("/login")
    ensures session.None? ==> RequireTeamLead(session) == Redirect("/login")
    ensures session.Some? ==> RequireAuth(session) == Pass(session.value)
    ensures RequireTeamLead(session).Pass? <==> session.Some? && session.value.role == Admin
    ensures RequireTeamLead(session).Pass? ==> RequireTeamLead(session).value == session.value
    ensures session.Some? && session.value.role != Admin ==> RequireTeamLead(session) == Redirect("/dashboard")
  {
  }

  /** The team-lead page guard and the server-side admin guard admit the same
      users. */
  lemma TeamLeadIsAdmin(u: SessionUser)
    ensures RequireTeamLead(Some(u)).Pass? <==> RequireAdmin(u.role).Ok?
  {
  }
}
