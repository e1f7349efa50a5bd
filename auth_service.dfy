/** The account operations of src/services/auth.service.ts over the user table. Password hashing
    and comparison (bcrypt) and token signing (JWT) are opaque functions passed in: `hash` maps a
    password to its stored form, `matches(plain, stored)` is the comparison, `sign` the token of
    a set of claims. */
module AuthService {
  import opened Wrappers
  import opened Types
  import opened UserStore

  const REGISTER_ERROR: string := "Error en registro: "
  const EMAIL_TAKEN: string := "El email ya está registrado"
  const USERNAME_TAKEN: string := "El username ya está en uso"
  const INVALID_CREDENTIALS: string := "Credenciales inválidas"
  const INACTIVE_USER: string := "Usuario inactivo. Contacta al administrador"
  const USER_NOT_FOUND: string := "Usuario no encontrado"
  const WRONG_PASSWORD: string := "Contraseña actual incorrecta"

  predicate EmailTaken(users: seq<User>, email: string) {
    exists u :: u in users && u.email == email
  }

  predicate UsernameTaken(users: seq<User>, username: string) {
    exists u :: u in users && u.username == username
  }

  /** The claims of a token and the user summary of a reply. */
  function Summary(u: User): UserSummary {
    UserSummary(u.id, u.email, u.username, u.role)
  }

  /** `register`: a taken email fails first, then a taken username; otherwise the user is
      created with the hashed password and a token for it is returned. */
  method Register(table: UserTable, data: CreateUserData, hash: string -> string,
                  sign: UserSummary -> string, newId: string, now: string)
    returns (r: Result<AuthResponse>)
    requires table.Valid()
    requires forall u :: u in table.users ==> u.key != newId
    modifies table
    ensures table.Valid()
    ensures EmailTaken(old(table.users), data.email) ==>
      r == Failure(REGISTER_ERROR + EMAIL_TAKEN) && table.users == old(table.users)
    ensures !EmailTaken(old(table.users), data.email) && UsernameTaken(old(table.users), data.username) ==>
      r == Failure(REGISTER_ERROR + USERNAME_TAKEN) && table.users == old(table.users)
    ensures !EmailTaken(old(table.users), data.email) && !UsernameTaken(old(table.users), data.username) ==>
      var stored := NewUser(newId, data.(password := hash(data.password)), now);
      && table.users == Insert(old(table.users), stored)
      && r == Success(AuthResponse(sign(Summary(stored)), Summary(stored)))
  {
    var existingEmail := table.GetUserByEmail(data.email);
    if existingEmail.Some? {
      return Failure(REGISTER_ERROR + EMAIL_TAKEN);
    }
    var existingUsername := table.GetUserByUsername(data.username);
    if existingUsername.Some? {
      return Failure(REGISTER_ERROR + USERNAME_TAKEN);
    }
    var hashedPassword := hash(data.password);
    var id := table.CreateUser(data.(password := hashedPassword), newId, now);
    var user := UserSummary(id, data.email, data.username, data.role);
    r := Success(AuthResponse(sign(user), user));
  }

  /** After a registration, every email and every username in the table is held by one user
      only, provided that was so before. */
  lemma RegisterKeepsUnique(before: seq<User>, stored: User)
    requires Unique(before, Email) && Unique(before, Username)
    requires !EmailTaken(before, stored.email) && !UsernameTaken(before, stored.username)
    ensures Unique(Insert(before, stored), Email) && Unique(Insert(before, stored), Username)
  {
    InsertKeepsUnique(before, stored, Email);
    InsertKeepsUnique(before, stored, Username);
  }

  /** The `login` decision for the user found under the email: unknown email and wrong password
      give the same message; an inactive account is refused before its password is checked. */
  function LoginDecision(found: Option<User>, password: string, matches: (string, string) -> bool,
                         sign: UserSummary -> string): (r: Result<AuthResponse>)
    ensures r.Success? <==> found.Some? && found.value.isActive && matches(password, found.value.password)
    ensures found.Some? && !found.value.isActive ==> r == Failure(INACTIVE_USER)
    ensures r.Success? ==> r.value == AuthResponse(sign(Summary(found.value)), Summary(found.value))
    ensures r.Failure? && r.message != INACTIVE_USER ==> r.message == INVALID_CREDENTIALS
  {
    if found.None? then Failure(INVALID_CREDENTIALS)
    else if !found.value.isActive then Failure(INACTIVE_USER)
    else if !matches(password, found.value.password) then Failure(INVALID_CREDENTIALS)
    else
      var user := Summary(found.value);
      Success(AuthResponse(sign(user), user))
  }

  /** `login`: the decision for the first user with that email. */
  method Login(table: UserTable, email: string, password: string,
               matches: (string, string) -> bool, sign: UserSummary -> string)
    returns (r: Result<AuthResponse>)
    ensures r == LoginDecision(FirstWith(table.users, Email, email), password, matches, sign)
  {
    var user := table.GetUserByEmail(email);
    if user.None? {
      return Failure(INVALID_CREDENTIALS);
    }
    if !user.value.isActive {
      return Failure(INACTIVE_USER);
    }
    var isPasswordValid := matches(password, user.value.password);
    if !isPasswordValid {
      return Failure(INVALID_CREDENTIALS);
    }
    var summary := Summary(user.value);
    r := Success(AuthResponse(sign(summary), summary));
  }

  /** Logging in right after registering, with the same password, succeeds for the registered
      account when the comparison accepts a password against its own hash. */
  lemma LoginAfterRegister(before: seq<User>, id: string, data: CreateUserData, now: string,
                           hash: string -> string, matches: (string, string) -> bool, sign: UserSummary -> string)
    requires !EmailTaken(before, data.email)
    requires matches(data.password, hash(data.password))
    ensures var stored := NewUser(id, data.(password := hash(data.password)), now);
            LoginDecision(FirstWith(Insert(before, stored), Email, data.email), data.password, matches, sign)
              == Success(AuthResponse(sign(Summary(stored)), Summary(stored)))
  {
    var stored := NewUser(id, data.(password := hash(data.password)), now);
    var users := Insert(before, stored);
    var k :| 0 <= k < |users| && users[k] == stored;
    assert Email.Of(users[k]) == data.email;
    var i := FirstIndex(users, Email, data.email).value;
    assert users[i] in users;
  }

  /** `changePassword`: an unknown user fails, then a wrong current password; otherwise only
      the password of that user changes, to the hash of the new one, and the update is
      time-stamped. */
  method ChangePassword(table: UserTable, userId: string, currentPassword: string, newPassword: string,
                        matches: (string, string) -> bool, hash: string -> string, now: string)
    returns (r: Result<()>)
    requires table.Valid()
    modifies table
    ensures table.Valid()
    ensures FirstIndex(old(table.users), Id, userId).None? ==>
      r == Failure(USER_NOT_FOUND) && table.users == old(table.users)
    ensures FirstIndex(old(table.users), Id, userId).Some? ==>
      var i := FirstIndex(old(table.users), Id, userId).value;
      var user := old(table.users)[i];
      && (!matches(currentPassword, user.password) ==>
            r == Failure(WRONG_PASSWORD) && table.users == old(table.users))
      && (matches(currentPassword, user.password) ==>
            r == Success(()) && table.users == old(table.users)[i := user.(password := hash(newPassword), updatedAt := Some(now))])
  {
    var i := table.IndexOf(Id, userId);
    if i.None? {
      return Failure(USER_NOT_FOUND);
    }
    var user := table.users[i.value];
    var isPasswordValid := matches(currentPassword, user.password);
    if !isPasswordValid {
      return Failure(WRONG_PASSWORD);
    }
    var hashedPassword := hash(newPassword);
    var _ := table.UpdateUser(userId, NoUserChanges.(password := Some(hashedPassword)), now);
    r := Success(());
  }
}
