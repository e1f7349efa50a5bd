/** The user administration handlers of src/controllers/user.controller.ts: replies never carry
    a password, only administrators may send a role, and nobody may delete or deactivate their
    own account. */
module UserController {
  import opened Wrappers
  import opened Types
  import opened Strings
  import opened UserStore
  import AuthService
  import Authorization

  /** `const { password, ...user } = user`: every field but the password. */
  function Sanitize(u: User): (p: PublicUser)
    ensures p.id == u.id && p.email == u.email && p.username == u.username && p.role == u.role
    ensures p.isActive == u.isActive && p.storeInfo == u.storeInfo && p.profile == u.profile
    ensures p.createdAt == u.createdAt && p.updatedAt == u.updatedAt
  {
    PublicUser(u.id, u.email, u.username, u.role, u.isActive, u.createdAt, u.updatedAt, u.storeInfo, u.profile)
  }

  /** The password never shows: two users that differ only in their password look the same,
      and nothing else of the object is lost (the document key is not one of its fields). */
  lemma SanitizeHidesOnlyPassword(u: User, v: User)
    ensures Sanitize(u) == Sanitize(v) <==> u.(password := v.password, key := v.key) == v
  {
  }

  /** `users.map(({ password, ...user }) => user)` */
  function SanitizeAll(users: seq<User>): (r: seq<PublicUser>)
    ensures |r| == |users|
    ensures forall i :: 0 <= i < |users| ==> r[i] == Sanitize(users[i])
  {
    seq(|users|, i requires 0 <= i < |users| => Sanitize(users[i]))
  }

  /** `req.user?.id === id` */
  predicate IsSelf(caller: Option<Caller>, id: string) {
    caller.Some? && caller.value.id == id
  }

  /** `req.user?.role !== UserRole.ADMIN` */
  predicate IsAdmin(caller: Option<Caller>) {
    caller.Some? && caller.value.role == ADMIN
  }

  datatype UserReply =
    | IdRequired
    | UserMissing(id: string)
    | InvalidRole(message: string)
    | RoleChangeForbidden
    | SelfActionRefused(message: string)
    | UserFound(user: PublicUser)
    | UsersListed(users: seq<PublicUser>, total: nat)
    | Done(message: string)
    | StatusToggled(id: string, isActive: bool, message: string)
    | Failed(message: string)
  {
    function Status(): int {
      match this
      case IdRequired => 400
      case UserMissing(_) => 404
      case InvalidRole(_) => 400
      case RoleChangeForbidden => 403
      case SelfActionRefused(_) => 400
      case Failed(_) => 500
      case _ => 200
    }
  }

  /** `getAllUsers`: every user, without passwords, and their number. */
  method GetAllUsers(table: UserTable) returns (reply: UserReply)
    ensures reply == UsersListed(SanitizeAll(table.users), |table.users|)
  {
    var users := table.GetAll();
    reply := UsersListed(SanitizeAll(users), |users|);
  }

  /** `getUserById`: an empty id is a 400, an unknown one a 404. */
  method GetUserById(table: UserTable, id: string) returns (reply: UserReply)
    requires table.Valid()
    ensures id == "" ==> reply == IdRequired
    ensures id != "" && FirstIndex(table.users, Id, id).None? ==> reply == UserMissing(id)
    ensures id != "" && FirstIndex(table.users, Id, id).Some? ==>
      reply == UserFound(Sanitize(table.users[FirstIndex(table.users, Id, id).value]))
  {
    if id == "" {
      return IdRequired;
    }
    var i := table.IndexOf(Id, id);
    if i.None? {
      return UserMissing(id);
    }
    reply := UserFound(Sanitize(table.users[i.value]));
  }

  /** "El rol debe ser: user, store, admin" */
  function RoleListMessage(): string {
    "El rol debe ser: " + Join(UserRoles, ", ")
  }

  /** `getUsersByRole`: a role outside the enumeration is a 400; otherwise the users of that
      role, without passwords. */
  method GetUsersByRole(table: UserTable, role: string) returns (reply: UserReply)
    ensures !IsUserRole(role) ==> reply == InvalidRole(RoleListMessage())
    ensures IsUserRole(role) ==>
      reply == UsersListed(SanitizeAll(WithRole(table.users, role)), |WithRole(table.users, role)|)
  {
    if role !in UserRoles {
      return InvalidRole(RoleListMessage());
    }
    var users := table.GetUsersByRole(role);
    reply := UsersListed(SanitizeAll(users), |users|);
  }

  /** Every user listed for a role has that role, and every user of that role is listed. */
  lemma UsersByRoleSpec(users: seq<User>, role: string)
    requires IsUserRole(role)
    ensures forall p :: p in SanitizeAll(WithRole(users, role)) ==> p.role == role
    ensures forall u :: u in users && u.role == role ==> Sanitize(u) in SanitizeAll(WithRole(users, role))
  {
    WithRoleMembers(users, role);
    var listed := WithRole(users, role);
    forall u | u in users && u.role == role
      ensures Sanitize(u) in SanitizeAll(listed)
    {
      var k :| 0 <= k < |listed| && listed[k] == u;
      assert SanitizeAll(listed)[k] == Sanitize(u);
    }
    forall p | p in SanitizeAll(listed)
      ensures p.role == role
    {
      var k :| 0 <= k < |listed| && SanitizeAll(listed)[k] == p;
      assert listed[k] in listed;
    }
  }

  /** The checks of `updateUser` before anything is written. */
  function UpdateGuard(caller: Option<Caller>, id: string, changes: UpdateUserData): (r: Option<UserReply>)
    ensures r.None? <==> id != "" && (IsAdmin(caller) || !Truthy(changes.role))
    ensures id != "" && !IsAdmin(caller) && Truthy(changes.role) ==> r == Some(RoleChangeForbidden)
  {
    if id == "" then Some(IdRequired)
    else if !IsAdmin(caller) && Truthy(changes.role) then Some(RoleChangeForbidden)
    else None
  }

  /** The changes as written: a non-empty password replaced by its hash. */
  function Hashed(changes: UpdateUserData, hash: string -> string): (d: UpdateUserData)
    ensures Truthy(changes.password) ==> d.password == Some(hash(changes.password.value))
    ensures !Truthy(changes.password) ==> d.password == changes.password
    ensures d.(password := changes.password) == changes
  {
    if Truthy(changes.password) then changes.(password := Some(hash(changes.password.value))) else changes
  }

  /** `updateUser`: the guards, then the merge of the (hashed) changes into that user; an
      unknown id is a 500 carrying the model's message. */
  method UpdateUser(table: UserTable, caller: Option<Caller>, id: string, changes: UpdateUserData,
                    hash: string -> string, now: string)
    returns (reply: UserReply)
    requires table.Valid()
    modifies table
    ensures table.Valid()
    ensures UpdateGuard(caller, id, changes).Some? ==>
      reply == UpdateGuard(caller, id, changes).value && table.users == old(table.users)
    ensures UpdateGuard(caller, id, changes).None? && FirstIndex(old(table.users), Id, id).None? ==>
      reply == Failed(UPDATE_USER_ERROR + UserNotFound(id)) && table.users == old(table.users)
    ensures UpdateGuard(caller, id, changes).None? && FirstIndex(old(table.users), Id, id).Some? ==>
      var i := FirstIndex(old(table.users), Id, id).value;
      reply == Done("Usuario actualizado exitosamente")
      && table.users == old(table.users)[i := Merge(old(table.users)[i], Hashed(changes, hash), now)]
  {
    var guard := UpdateGuard(caller, id, changes);
    if guard.Some? {
      return guard.value;
    }
    var updateData := changes;
    if Truthy(changes.password) {
      updateData := updateData.(password := Some(hash(changes.password.value)));
    }
    var result := table.UpdateUser(id, updateData, now);
    if result.Failure? {
      return Failed(result.message);
    }
    reply := Done("Usuario actualizado exitosamente");
  }

  /** What an update that gets through does to the stored user: a non-empty password is stored
      hashed, never as sent; a caller who is not an administrator keeps the role, unless the
      role sent is the empty text, which the truthiness test lets through; the document keeps
      its id, but an `id` or `createdAt` in the body, which nothing checks, is written over
      the id the user is read with and over the creation time, whoever the caller is. */
  lemma UpdateEffect(u: User, caller: Option<Caller>, changes: UpdateUserData, hash: string -> string, now: string)
    requires UpdateGuard(caller, u.key, changes).None?
    ensures var stored := Merge(u, Hashed(changes, hash), now);
            && (Truthy(changes.password) ==> stored.password == hash(changes.password.value))
            && (!IsAdmin(caller) ==> stored.role == u.role || changes.role == Some(""))
            && stored.key == u.key
            && (changes.id.Some? ==> stored.id == changes.id.value)
            && (changes.createdAt.Some? ==> stored.createdAt == changes.createdAt.value)
  {
  }

  /** What an `id` in an update body reaches: the user is read back under that id from then on,
      so logging in signs it into the token, and the ownership gate then lets the caller act
      on the document with that id as its owner. */
  lemma RenamedUserSignsNewId(users: seq<User>, i: nat, changes: UpdateUserData, password: string,
                              hash: string -> string, matches: (string, string) -> bool,
                              sign: UserSummary -> string, now: string, iat: int, exp: int)
    requires i < |users| && Unique(users, Email)
    requires Truthy(changes.id) && changes.email.None? && changes.isActive.None? && changes.password.None?
    requires users[i].isActive && matches(password, users[i].password)
    ensures var after := users[i := Merge(users[i], Hashed(changes, hash), now)];
            var r := AuthService.LoginDecision(FirstWith(after, Email, users[i].email), password, matches, sign);
            && r.Success? && r.value.user.id == changes.id.value
            && var claims := r.value.user;
               Authorization.RequireOwnerOrAdmin(Some(Caller(claims.id, claims.email, claims.username, claims.role, iat, exp)),
                                                 Authorization.RouteParams(changes.id, None)) == Authorization.Next
  {
    var after := users[i := Merge(users[i], Hashed(changes, hash), now)];
    var email := users[i].email;
    assert Email.Of(after[i]) == email;
  }

  /** `deleteUser`: an empty id is a 400, the caller's own id a 400; otherwise the model
      removes the user, or fails with a 500 for an unknown id. */
  method DeleteUser(table: UserTable, caller: Option<Caller>, id: string) returns (reply: UserReply)
    requires table.Valid()
    modifies table
    ensures table.Valid()
    ensures id == "" ==> reply == IdRequired && table.users == old(table.users)
    ensures id != "" && IsSelf(caller, id) ==>
      reply == SelfActionRefused("No puedes eliminar tu propia cuenta") && table.users == old(table.users)
    ensures id != "" && !IsSelf(caller, id) ==>
      && (FirstIndex(old(table.users), Id, id).None? ==>
            reply == Failed(DELETE_USER_ERROR + UserNotFound(id)) && table.users == old(table.users))
      && (FirstIndex(old(table.users), Id, id).Some? ==>
            reply == Done("Usuario eliminado exitosamente")
            && table.users == Without(old(table.users), FirstIndex(old(table.users), Id, id).value))
    ensures IsSelf(caller, id) ==> table.users == old(table.users)
  {
    if id == "" {
      return IdRequired;
    }
    if IsSelf(caller, id) {
      return SelfActionRefused("No puedes eliminar tu propia cuenta");
    }
    var result := table.DeleteUser(id);
    if result.Failure? {
      return Failed(result.message);
    }
    reply := Done("Usuario eliminado exitosamente");
  }

  /** "Usuario desactivado exitosamente" or "Usuario activado exitosamente", by the status
      before the toggle. */
  function ToggleMessage(wasActive: bool): string {
    "Usuario " + (if wasActive then "desactivado" else "activado") + " exitosamente"
  }

  /** `toggleUserStatus`: an empty id is a 400, an unknown one a 404 (even the caller's own),
      the caller's own a 400; otherwise that user's status flips. */
  method ToggleUserStatus(table: UserTable, caller: Option<Caller>, id: string, now: string)
    returns (reply: UserReply)
    requires table.Valid()
    modifies table
    ensures table.Valid()
    ensures id == "" ==> reply == IdRequired && table.users == old(table.users)
    ensures id != "" && FirstIndex(old(table.users), Id, id).None? ==>
      reply == UserMissing(id) && table.users == old(table.users)
    ensures id != "" && FirstIndex(old(table.users), Id, id).Some? && IsSelf(caller, id) ==>
      reply == SelfActionRefused("No puedes desactivar tu propia cuenta") && table.users == old(table.users)
    ensures id != "" && FirstIndex(old(table.users), Id, id).Some? && !IsSelf(caller, id) ==>
      var i := FirstIndex(old(table.users), Id, id).value;
      var user := old(table.users)[i];
      && reply == StatusToggled(id, !user.isActive, ToggleMessage(user.isActive))
      && table.users == old(table.users)[i := user.(isActive := !user.isActive, updatedAt := Some(now))]
  {
    if id == "" {
      return IdRequired;
    }
    var i := table.IndexOf(Id, id);
    if i.None? {
      return UserMissing(id);
    }
    var user := table.users[i.value];
    if IsSelf(caller, id) {
      return SelfActionRefused("No puedes desactivar tu propia cuenta");
    }
    var _ := table.UpdateUser(id, NoUserChanges.(isActive := Some(!user.isActive)), now);
    reply := StatusToggled(id, !user.isActive, ToggleMessage(user.isActive));
  }
}
