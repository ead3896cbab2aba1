/**
 * The access and update rules of backend/routes/user_routes.py: who may
 * list, view, create, update and delete users, how an update is filtered,
 * the soft delete, and role changes. The users collection is a sequence of
 * records with distinct ids; password hashing is an input.
 */
module UserRoutes {
  import opened Common
  import opened Values
  import opened Models
  import opened Store
  import opened Auth

  const NotFound := 404

  /** Distinct ids, as the store's primary key guarantees. */
  predicate UniqueIds(users: seq<User>) {
    forall i, j | 0 <= i < |users| && 0 <= j < |users| && users[i].id == users[j].id :: i == j
  }

  /** find_document("users", {"_id": id, "is_active": True}) */
  function FindActiveUser(users: seq<User>, id: string): (r: Option<User>)
    ensures r.Some? ==> r.value in users && r.value.id == id && r.value.isActive
    ensures r.None? <==> forall i | 0 <= i < |users| :: !(users[i].id == id && users[i].isActive)
  {
    if users == [] then None
    else if users[0].id == id && users[0].isActive then Some(users[0])
    else FindActiveUser(users[1..], id)
  }

  /** The position of the user with a given id. */
  function IndexOf(users: seq<User>, id: string): (i: nat)
    requires exists k | 0 <= k < |users| :: users[k].id == id
    ensures i < |users| && users[i].id == id
  {
    if users[0].id == id then 0 else 1 + IndexOf(users[1..], id)
  }

  // ---------------------------------------------------------------------------
  // get_users and get_user_stats
  // ---------------------------------------------------------------------------

  /** filter_dict of get_users; the search clause is kept as its text. */
  datatype UserFilter = UserFilter(activeOnly: bool, role: Option<UserRole>, search: Option<string>)

  function UsersFilter(role: Option<UserRole>, search: Option<string>): (f: UserFilter)
    ensures f.activeOnly
    ensures f.role == role
    ensures f.search == (if search.Some? && search.value != "" then search else None)
  {
    UserFilter(true, role, if search.Some? && search.value != "" then search else None)
  }

  predicate MatchesUserFilter(f: UserFilter, u: User) {
    (f.activeOnly ==> u.isActive) && (f.role.Some? ==> u.role == f.role.value)
  }

  /**
   * get_users (editors and admins): `found` is what the store returns for the
   * filter. Deactivated users are never listed.
   */
  method GetUsers(caller: User, users: seq<User>, role: Option<UserRole>, search: Option<string>,
                  limit: int, found: seq<User>)
    returns (r: Result<seq<User>, HttpError>)
    requires forall i | 0 <= i < |found| :: found[i] in users && MatchesUserFilter(UsersFilter(role, search), found[i])
    requires WithinLimit(|found|, limit)
    ensures r.Ok? <==> RoleChecker(Editor, caller).Ok?
    ensures r.Err? ==> r.error == RoleChecker(Editor, caller).error
    ensures r.Ok? ==> r.value == found
    ensures r.Ok? ==> forall i | 0 <= i < |r.value| :: r.value[i].isActive && r.value[i] in users
    ensures r.Ok? && role.Some? ==> forall i | 0 <= i < |r.value| :: r.value[i].role == role.value
  {
    var gate := RoleChecker(Editor, caller);
    if gate.Err? {
      return Err(gate.error);
    }
    r := Ok(found);
  }

  function ActiveUser(): User -> bool {
    (u: User) => u.isActive
  }

  function ActiveWithRole(role: UserRole): User -> bool {
    (u: User) => u.isActive && u.role == role
  }

  datatype UserStats = UserStats(total: nat, admin: nat, editor: nat, author: nat)

  /** get_user_stats (admins only): active users, in total and by role. */
  function GetUserStats(caller: User, users: seq<User>): (r: Result<UserStats, HttpError>)
    ensures r.Ok? <==> RoleChecker(Admin, caller).Ok?
    ensures r.Ok? ==> r.value.total <= |users|
    ensures r.Ok? ==> r.value.admin + r.value.editor + r.value.author == r.value.total
  {
    match RoleChecker(Admin, caller)
    case Err(e) => Err(e)
    case Ok(_) =>
      RoleCountsPartition(users);
      Ok(UserStats(Count(users, ActiveUser()),
                   Count(users, ActiveWithRole(Admin)),
                   Count(users, ActiveWithRole(Editor)),
                   Count(users, ActiveWithRole(Author))))
  }

  /** Every user holds exactly one of the three roles, so the role counts add up to the total. */
  lemma {:induction false} RoleCountsPartition(users: seq<User>)
    ensures Count(users, ActiveWithRole(Admin)) + Count(users, ActiveWithRole(Editor))
            + Count(users, ActiveWithRole(Author)) == Count(users, ActiveUser())
  {
    if users != [] {
      RoleCountsPartition(users[..|users| - 1]);
    }
  }

  // ---------------------------------------------------------------------------
  // get_user
  // ---------------------------------------------------------------------------

  /** A profile is visible to its owner and to editors and admins. */
  predicate CanViewUser(caller: User, targetId: string) {
    targetId == caller.id || HasPermission(caller, Editor)
  }

  /** get_user: the permission check comes before the lookup, which sees active users only. */
  function GetUser(caller: User, users: seq<User>, id: string): (r: Result<User, HttpError>)
    ensures r.Ok? <==> caller.isActive && CanViewUser(caller, id) && FindActiveUser(users, id).Some?
    ensures r.Ok? ==> r.value.id == id && r.value.isActive && r.value in users
    ensures caller.isActive && !CanViewUser(caller, id) ==> r == Err(HttpError(Forbidden, "Not authorized to view this user"))
    ensures caller.isActive && CanViewUser(caller, id) && r.Err? ==> r == Err(HttpError(NotFound, "User not found"))
  {
    if !caller.isActive then Err(HttpError(BadRequest, "Inactive user"))
    else if !CanViewUser(caller, id) then Err(HttpError(Forbidden, "Not authorized to view this user"))
    else match FindActiveUser(users, id)
      case None => Err(HttpError(NotFound, "User not found"))
      case Some(t) => Ok(t)
  }

  /** Anyone active may view themselves; an author may view nobody else. */
  lemma ViewRules(caller: User, users: seq<User>, id: string)
    requires caller.isActive
    ensures id == caller.id && FindActiveUser(users, id).Some? ==> GetUser(caller, users, id).Ok?
    ensures caller.role == Author && id != caller.id ==> GetUser(caller, users, id).Err?
  {
  }

  // ---------------------------------------------------------------------------
  // create_user
  // ---------------------------------------------------------------------------

  /** The avatar a new user is given, keyed by email. */
  function AvatarFor(email: string): string {
    "https://api.dicebear.com/7.x/avataaars/svg?seed=" + email
  }

  predicate EmailTaken(users: seq<User>, email: string) {
    exists i | 0 <= i < |users| :: users[i].email == email
  }

  /**
   * create_user (admins only): 400 when the email is registered to any user,
   * active or not; otherwise a new active user with a generated avatar.
   */
  function CreateUser(caller: User, data: UserCreate, users: seq<User>, newId: string,
                      passwordHash: string, now: int): (r: Result<User, HttpError>)
    ensures r.Ok? <==> RoleChecker(Admin, caller).Ok? && !EmailTaken(users, data.email)
    ensures RoleChecker(Admin, caller).Ok? && EmailTaken(users, data.email) ==> r == Err(HttpError(BadRequest, "Email already registered"))
    ensures r.Ok? ==> r.value.isActive && r.value.email == data.email && r.value.name == data.name && r.value.role == data.role
    ensures r.Ok? ==> r.value.avatar == Some(AvatarFor(data.email)) && r.value.passwordHash == passwordHash
    ensures r.Ok? ==> r.value.createdAt == now && r.value.updatedAt == now
  {
    match RoleChecker(Admin, caller)
    case Err(e) => Err(e)
    case Ok(_) =>
      if EmailTaken(users, data.email) then Err(HttpError(BadRequest, "Email already registered"))
      else Ok(User(newId, data.name, data.email, passwordHash, data.role, Some(AvatarFor(data.email)), true, now, now))
  }

  /** After a successful creation the email is registered, so repeating the request fails. */
  lemma CreateUserTwiceFails(caller: User, data: UserCreate, users: seq<User>, id1: string, id2: string,
                             h1: string, h2: string, t1: int, t2: int)
    requires CreateUser(caller, data, users, id1, h1, t1).Ok?
    ensures CreateUser(caller, data, users + [CreateUser(caller, data, users, id1, h1, t1).value], id2, h2, t2)
            == Err(HttpError(BadRequest, "Email already registered"))
  {
    var s := users + [CreateUser(caller, data, users, id1, h1, t1).value];
    assert s[|users|].email == data.email;
  }

  // ---------------------------------------------------------------------------
  // update_user
  // ---------------------------------------------------------------------------

  /** UserUpdate: every field optional. */
  datatype UserUpdate = UserUpdate(
    name: Option<string>,
    email: Option<string>,
    role: Option<UserRole>,
    isActive: Option<bool>,
    avatar: Option<string>)

  /** update_dict is empty: every field is None. */
  predicate EmptyUserUpdate(d: UserUpdate) {
    d.name.None? && d.email.None? && d.role.None? && d.isActive.None? && d.avatar.None?
  }

  /** Profiles are editable by their owner and by admins. */
  predicate CanUpdateUser(caller: User, targetId: string) {
    targetId == caller.id || HasPermission(caller, Admin)
  }

  /** update_dict after its role entry is dropped for a caller who is not an admin. */
  function EffectiveUpdate(caller: User, d: UserUpdate): (e: UserUpdate)
    ensures e.role.Some? <==> d.role.Some? && HasPermission(caller, Admin)
    ensures e.role.Some? ==> e.role == d.role
    ensures e.name == d.name && e.email == d.email && e.isActive == d.isActive && e.avatar == d.avatar
  {
    if d.role.Some? && !HasPermission(caller, Admin) then d.(role := None) else d
  }

  /** update_document with the fields present: each replaces the stored one, and updated_at is stamped. */
  function ApplyUserUpdate(u: User, d: UserUpdate, now: int): (v: User)
    ensures v.id == u.id && v.passwordHash == u.passwordHash && v.createdAt == u.createdAt
    ensures v.name == (if d.name.Some? then d.name.value else u.name)
    ensures v.email == (if d.email.Some? then d.email.value else u.email)
    ensures v.role == (if d.role.Some? then d.role.value else u.role)
    ensures v.isActive == (if d.isActive.Some? then d.isActive.value else u.isActive)
    ensures v.avatar == (if d.avatar.Some? then d.avatar else u.avatar)
    ensures v.updatedAt == now
  {
    u.(name := if d.name.Some? then d.name.value else u.name,
       email := if d.email.Some? then d.email.value else u.email,
       role := if d.role.Some? then d.role.value else u.role,
       isActive := if d.isActive.Some? then d.isActive.value else u.isActive,
       avatar := if d.avatar.Some? then d.avatar else u.avatar,
       updatedAt := now)
  }

  /** The result of update_user and whether it wrote to the store. */
  datatype UserUpdateOutcome = UserUpdateOutcome(user: User, written: bool)

  /**
   * update_user: 403 unless the caller is the target or an admin, then 404
   * unless the target is active; a non-admin's role change is dropped, and an
   * update left empty returns the stored user with no write.
   */
  function UpdateUser(caller: User, users: seq<User>, id: string, d: UserUpdate, now: int)
    : (r: Result<UserUpdateOutcome, HttpError>)
    ensures r.Ok? <==> caller.isActive && CanUpdateUser(caller, id) && FindActiveUser(users, id).Some?
    ensures caller.isActive && !CanUpdateUser(caller, id) ==> r == Err(HttpError(Forbidden, "Not authorized to update this user"))
    ensures caller.isActive && CanUpdateUser(caller, id) && r.Err? ==> r == Err(HttpError(NotFound, "User not found"))
    ensures r.Ok? ==> (r.value.written <==> !EmptyUserUpdate(EffectiveUpdate(caller, d)))
    ensures r.Ok? && !r.value.written ==> r.value.user == FindActiveUser(users, id).value
    ensures r.Ok? && r.value.written ==> r.value.user == ApplyUserUpdate(FindActiveUser(users, id).value, EffectiveUpdate(caller, d), now)
    ensures r.Ok? && !HasPermission(caller, Admin) ==> r.value.user.role == FindActiveUser(users, id).value.role
  {
    if !caller.isActive then Err(HttpError(BadRequest, "Inactive user"))
    else if !CanUpdateUser(caller, id) then Err(HttpError(Forbidden, "Not authorized to update this user"))
    else match FindActiveUser(users, id)
      case None => Err(HttpError(NotFound, "User not found"))
      case Some(t) =>
        var e := EffectiveUpdate(caller, d);
        if EmptyUserUpdate(e) then Ok(UserUpdateOutcome(t, false))
        else Ok(UserUpdateOutcome(ApplyUserUpdate(t, e, now), true))
  }

  /** A non-admin who sends only a role change gets their profile back untouched. */
  lemma RoleOnlyUpdateByNonAdminIsNoOp(caller: User, users: seq<User>, d: UserUpdate, now: int)
    requires caller.isActive && !HasPermission(caller, Admin)
    requires FindActiveUser(users, caller.id).Some?
    requires d.role.Some? && d.name.None? && d.email.None? && d.isActive.None? && d.avatar.None?
    ensures UpdateUser(caller, users, caller.id, d, now) == Ok(UserUpdateOutcome(FindActiveUser(users, caller.id).value, false))
  {
  }

  // ---------------------------------------------------------------------------
  // delete_user and update_user_role
  // ---------------------------------------------------------------------------

  /**
   * delete_user (admins only): nobody deletes themselves; otherwise the active
   * target is deactivated in place and every other record is left as it was.
   */
  function DeleteUser(caller: User, users: seq<User>, id: string, now: int): (r: Result<seq<User>, HttpError>)
    requires UniqueIds(users)
    ensures r.Ok? <==> RoleChecker(Admin, caller).Ok? && id != caller.id && FindActiveUser(users, id).Some?
    ensures RoleChecker(Admin, caller).Ok? && id == caller.id ==> r == Err(HttpError(BadRequest, "Cannot delete your own account"))
    ensures RoleChecker(Admin, caller).Ok? && id != caller.id && r.Err? ==> r == Err(HttpError(NotFound, "User not found"))
    ensures r.Ok? ==> |r.value| == |users|
    ensures r.Ok? ==> forall i | 0 <= i < |users| && users[i].id != id :: r.value[i] == users[i]
    ensures r.Ok? ==> forall i | 0 <= i < |users| && users[i].id == id ::
                        r.value[i] == users[i].(isActive := false, updatedAt := now)
  {
    match RoleChecker(Admin, caller)
    case Err(e) => Err(e)
    case Ok(_) =>
      if id == caller.id then Err(HttpError(BadRequest, "Cannot delete your own account"))
      else match FindActiveUser(users, id)
        case None => Err(HttpError(NotFound, "User not found"))
        case Some(t) =>
          var i := IndexOf(users, id);
          Ok(users[i := users[i].(isActive := false, updatedAt := now)])
  }

  /** A deleted user can no longer be found, viewed or deleted again. */
  lemma DeletedUserIsGone(caller: User, users: seq<User>, id: string, now: int)
    requires UniqueIds(users)
    requires DeleteUser(caller, users, id, now).Ok?
    ensures FindActiveUser(DeleteUser(caller, users, id, now).value, id).None?
  {
    var after := DeleteUser(caller, users, id, now).value;
    forall i | 0 <= i < |after|
      ensures !(after[i].id == id && after[i].isActive)
    {
      if users[i].id == id {
        assert after[i] == users[i].(isActive := false, updatedAt := now);
      } else {
        assert after[i] == users[i];
      }
    }
  }

  /** role_data["role"]: a present, non-empty role value naming one of the three roles. */
  function RequestedRole(roleData: map<string, Value>): (r: Option<UserRole>)
    ensures r.Some? <==> "role" in roleData && roleData["role"].Str? && ParseRole(roleData["role"].s).Some?
    ensures r.Some? ==> RoleValue(r.value) == roleData["role"].s
  {
    match Get(roleData, "role", Null)
    case Str(s) =>
      (match ParseRole(s)
       case Some(role) => EnumValuesRoundTrip(role, Published, Available); Some(role)
       case None => None)
    case _ => None
  }

  /**
   * update_user_role (admins only): the requested role is validated (400)
   * before the target is looked up (404); the target's role is then replaced.
   */
  function UpdateUserRole(caller: User, users: seq<User>, id: string, roleData: map<string, Value>, now: int)
    : (r: Result<seq<User>, HttpError>)
    requires UniqueIds(users)
    ensures r.Ok? <==> RoleChecker(Admin, caller).Ok? && RequestedRole(roleData).Some? && FindActiveUser(users, id).Some?
    ensures RoleChecker(Admin, caller).Ok? && RequestedRole(roleData).None? ==> r == Err(HttpError(BadRequest, "Invalid role specified"))
    ensures RoleChecker(Admin, caller).Ok? && RequestedRole(roleData).Some? && r.Err? ==> r == Err(HttpError(NotFound, "User not found"))
    ensures r.Ok? ==> |r.value| == |users|
    ensures r.Ok? ==> forall i | 0 <= i < |users| && users[i].id != id :: r.value[i] == users[i]
    ensures r.Ok? ==> forall i | 0 <= i < |users| && users[i].id == id ::
                        r.value[i] == users[i].(role := RequestedRole(roleData).value, updatedAt := now)
  {
    match RoleChecker(Admin, caller)
    case Err(e) => Err(e)
    case Ok(_) =>
      match RequestedRole(roleData)
      case None => Err(HttpError(BadRequest, "Invalid role specified"))
      case Some(role) =>
        match FindActiveUser(users, id)
        case None => Err(HttpError(NotFound, "User not found"))
        case Some(_) =>
          var i := IndexOf(users, id);
          Ok(users[i := users[i].(role := role, updatedAt := now)])
  }

  /** An invalid role is refused with 400 whether or not the target exists. */
  lemma InvalidRoleBeforeLookup(caller: User, users: seq<User>, others: seq<User>, id: string,
                                roleData: map<string, Value>, now: int)
    requires UniqueIds(users) && UniqueIds(others)
    requires RoleChecker(Admin, caller).Ok? && RequestedRole(roleData).None?
    ensures UpdateUserRole(caller, users, id, roleData, now) == UpdateUserRole(caller, others, id, roleData, now)
  {
  }
}
