/**
 * Role-based access control of backend/auth.py: the three-level role
 * hierarchy, the active-user gate in front of every protected route, the
 * role checker that require_role builds, and the content-ownership rule.
 * Token decoding and password hashing are not part of this model; the
 * authenticated user is an input.
 */
module Auth {
  import opened Common
  import opened Models

  const BadRequest := 400
  const Forbidden := 403

  /** The hierarchy as a rank: admin above editor above author. */
  function Rank(r: UserRole): nat {
    match r
    case Admin => 3
    case Editor => 2
    case Author => 1
  }

  /** has_permission(user, required_role), branch for branch. */
  function HasPermission(u: User, required: UserRole): (ok: bool)
    ensures required == Admin ==> (ok <==> u.role == Admin)
    ensures required == Editor ==> (ok <==> u.role == Admin || u.role == Editor)
    ensures required == Author ==> ok
  {
    if required == Admin then u.role == Admin
    else if required == Editor then u.role in {Admin, Editor}
    else true
  }

  /** The branches of has_permission agree with comparing ranks. */
  lemma PermissionIsRankOrder(u: User, required: UserRole)
    ensures HasPermission(u, required) <==> Rank(u.role) >= Rank(required)
  {
    match required
    case Admin =>
    case Editor => assert HasPermission(u, Editor) <==> u.role in {Admin, Editor};
    case Author =>
  }

  /** Permissions are monotone: admin permission implies editor permission, which implies author permission. */
  lemma PermissionMonotone(u: User)
    ensures HasPermission(u, Admin) ==> HasPermission(u, Editor)
    ensures HasPermission(u, Editor) ==> HasPermission(u, Author)
  {
    PermissionIsRankOrder(u, Admin);
    PermissionIsRankOrder(u, Editor);
  }

  /** get_current_active_user: an inactive user is refused with 400. */
  function GetCurrentActiveUser(u: User): (r: Result<User, HttpError>)
    ensures r.Ok? <==> u.isActive
    ensures r.Ok? ==> r.value == u
    ensures r.Err? ==> r.error == HttpError(BadRequest, "Inactive user")
  {
    if !u.isActive then Err(HttpError(BadRequest, "Inactive user")) else Ok(u)
  }

  /**
   * The role_checker built by require_role(required): the active-user gate,
   * then 403 unless the user holds the required permission.
   */
  function RoleChecker(required: UserRole, u: User): (r: Result<User, HttpError>)
    ensures r.Ok? <==> u.isActive && HasPermission(u, required)
    ensures r.Ok? ==> r.value == u
    ensures r.Err? && u.isActive ==> r.error.status == Forbidden
    ensures !u.isActive ==> r == Err(HttpError(BadRequest, "Inactive user"))
  {
    match GetCurrentActiveUser(u)
    case Err(e) => Err(e)
    case Ok(user) =>
      if required == Admin && user.role != Admin then
        Err(HttpError(Forbidden, "Admin access required"))
      else if required == Editor && user.role !in {Admin, Editor} then
        Err(HttpError(Forbidden, "Editor access required"))
      else Ok(user)
  }

  /** A user who passes a stricter role check passes every weaker one. */
  lemma RoleCheckerMonotone(u: User, stricter: UserRole, weaker: UserRole)
    requires Rank(weaker) <= Rank(stricter)
    requires RoleChecker(stricter, u).Ok?
    ensures RoleChecker(weaker, u).Ok?
  {
    PermissionIsRankOrder(u, stricter);
    PermissionIsRankOrder(u, weaker);
  }

  /** can_edit_content(user, author_id): admins and editors edit anything, authors their own content. */
  function CanEditContent(u: User, authorId: string): (ok: bool)
    ensures ok <==> HasPermission(u, Editor) || u.id == authorId
    ensures u.role == Author ==> (ok <==> u.id == authorId)
  {
    if u.role in {Admin, Editor} then true else u.id == authorId
  }
}
