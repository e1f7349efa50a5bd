/** The account handlers of src/controllers/auth.controller.ts: the checks a registration body
    passes before the service sees it, the record it becomes, and the guards of the password
    change and profile endpoints. */
module AuthController {
  import opened Wrappers
  import opened Types
  import opened Strings
  import opened UserStore
  import opened AuthService

  const MIN_PASSWORD_LENGTH: int := 6

  // ---------------------------------------------------------------- the email pattern

  /** A character of the class `[^\s@]`. */
  predicate EmailChar(c: char) {
    !IsSpace(c) && c != '@'
  }

  predicate AllEmailChars(s: string) {
    forall k :: 0 <= k < |s| ==> EmailChar(s[k])
  }

  /** `s` matches `^[^\s@]+@[^\s@]+\.[^\s@]+$` with its `@` at `i` and the `\.` at `j`. */
  predicate EmailShapeAt(s: string, i: int, j: int) {
    0 < i && i + 1 < j && j + 1 < |s| && s[i] == '@' && s[j] == '.'
    && (forall k :: 0 <= k < |s| && k != i ==> EmailChar(s[k]))
  }

  /** The language of the email expression. */
  ghost predicate MatchesEmailPattern(s: string) {
    exists i, j :: EmailShapeAt(s, i, j)
  }

  /** `emailRegex.test(email)`, computed: one `@` with a non-empty local part before it, and a
      domain after it with a `.` that is neither its first nor its last character, and no white
      space anywhere. */
  function IsValidEmail(s: string): bool {
    match IndexOf(s, '@')
    case None => false
    case Some(i) =>
      var local, domain := s[..i], s[i + 1..];
      |local| >= 1 && AllEmailChars(local) && AllEmailChars(domain)
      && |domain| >= 3 && '.' in domain[1..|domain| - 1]
  }

  /** The computed test accepts exactly the language of the expression. */
  lemma IsValidEmailSpec(s: string)
    ensures IsValidEmail(s) <==> MatchesEmailPattern(s)
  {
    if IsValidEmail(s) {
      var i := IndexOf(s, '@').value;
      var domain := s[i + 1..];
      var d :| 0 <= d < |domain[1..|domain| - 1]| && domain[1..|domain| - 1][d] == '.';
      var j := i + 2 + d;
      assert s[j] == '.';
      forall k | 0 <= k < |s| && k != i
        ensures EmailChar(s[k])
      {
        if k < i {
          assert s[k] == s[..i][k];
        } else {
          assert s[k] == domain[k - i - 1];
        }
      }
      assert EmailShapeAt(s, i, j);
    }
    if MatchesEmailPattern(s) {
      var i, j :| EmailShapeAt(s, i, j);
      assert '@' in s;
      var domain := s[i + 1..];
      assert domain[1..|domain| - 1][j - i - 2] == '.';
      assert forall k :: 0 <= k < |domain| ==> domain[k] == s[i + 1 + k];
    }
  }

  /** Examples of the pattern: a plain address passes, and so does one with dots on both
      sides of the `@`. */
  lemma EmailAccepted()
    ensures MatchesEmailPattern("a@b.c") && IsValidEmail("a@b.c")
    ensures MatchesEmailPattern("a.b@c.d.e")
  {
    assert EmailShapeAt("a@b.c", 1, 3);
    IsValidEmailSpec("a@b.c");
    assert EmailShapeAt("a.b@c.d.e", 3, 5);
  }

  /** Examples the pattern refuses: no `@`, two of them, a `.` right after the `@` or at the
      very end, and white space. */
  lemma EmailRefused()
    ensures !MatchesEmailPattern("ab.c")
    ensures !MatchesEmailPattern("a@@b.c")
    ensures !MatchesEmailPattern("a@.c")
    ensures !MatchesEmailPattern("a@b.")
    ensures !MatchesEmailPattern("a @b.c")
  {
    IsValidEmailSpec("ab.c");
    IsValidEmailSpec("a@@b.c");
    assert !EmailChar("a@@b.c"[2..][0]);
    IsValidEmailSpec("a@.c");
    IsValidEmailSpec("a@b.");
    IsValidEmailSpec("a @b.c");
    assert !EmailChar("a @b.c"[..2][1]);
  }

  // ---------------------------------------------------------------- registration

  /** The `storeInfo` of a registration body. */
  datatype StoreInfoBody = StoreInfoBody(storeName: Option<string>, description: Option<string>, logo: Option<string>)

  /** A registration body; absent fields are `None`. */
  datatype RegisterBody = RegisterBody(
    email: Option<string>, password: Option<string>, username: Option<string>, role: Option<string>,
    storeInfo: Option<StoreInfoBody>, profile: Option<UserProfile>)

  /** The reasons a registration body is refused, in the order they are checked; each is a 400. */
  datatype Rejection = MissingCredentials | InvalidEmail | WeakPassword | StoreNameRequired | AdminRefused {
    function Message(): string {
      match this
      case MissingCredentials => "Email, password y username son requeridos"
      case InvalidEmail => "Por favor proporciona un email válido"
      case WeakPassword => "La contraseña debe tener al menos 6 caracteres"
      case StoreNameRequired => "Las tiendas deben proporcionar un nombre de tienda"
      case AdminRefused => "No puedes registrar un administrador"
    }
  }

  predicate HasStoreName(b: RegisterBody) {
    b.storeInfo.Some? && Truthy(b.storeInfo.value.storeName)
  }

  /** The first check a registration body fails, if any. */
  function RegisterRejection(b: RegisterBody): (r: Option<Rejection>)
    ensures r.None? ==> Truthy(b.email) && Truthy(b.password) && Truthy(b.username)
  {
    if !Truthy(b.email) || !Truthy(b.password) || !Truthy(b.username) then Some(MissingCredentials)
    else if !IsValidEmail(b.email.value) then Some(InvalidEmail)
    else if |b.password.value| < MIN_PASSWORD_LENGTH then Some(WeakPassword)
    else if b.role == Some(STORE) && !HasStoreName(b) then Some(StoreNameRequired)
    else if b.role == Some(ADMIN) then Some(AdminRefused)
    else None
  }

  /** A body passes exactly when it has the three credentials, a well-formed email, a password
      of at least six characters, a store name if it asks for a store, and does not ask for an
      administrator. A later check is reported only when the earlier ones pass. */
  lemma RegisterRejectionSpec(b: RegisterBody)
    ensures RegisterRejection(b).None? <==>
      && Truthy(b.email) && Truthy(b.password) && Truthy(b.username)
      && MatchesEmailPattern(b.email.value) && |b.password.value| >= MIN_PASSWORD_LENGTH
      && (b.role == Some(STORE) ==> HasStoreName(b))
      && b.role != Some(ADMIN)
    ensures RegisterRejection(b) == Some(WeakPassword) ==> MatchesEmailPattern(b.email.value)
    ensures RegisterRejection(b) == Some(StoreNameRequired) ==>
      MatchesEmailPattern(b.email.value) && |b.password.value| >= MIN_PASSWORD_LENGTH
    ensures RegisterRejection(b) == Some(AdminRefused) ==>
      MatchesEmailPattern(b.email.value) && |b.password.value| >= MIN_PASSWORD_LENGTH
  {
    if Truthy(b.email) {
      IsValidEmailSpec(b.email.value);
    }
  }

  /** The store information of a new store: the given name, description and logo (empty when
      absent), unverified, no sales, rating 0. */
  function NewStoreInfo(s: StoreInfoBody): StoreInfo
    requires Truthy(s.storeName)
  {
    StoreInfo(s.storeName.value, Some(OrElse(s.description, "")), Some(OrElse(s.logo, "")), false, Some(0), Some(0.0))
  }

  /** The record an accepted body becomes. */
  function UserDataOf(b: RegisterBody): CreateUserData
    requires RegisterRejection(b).None?
  {
    CreateUserData(
      b.email.value, b.password.value, b.username.value, OrElse(b.role, USER),
      if b.role == Some(STORE) then Some(NewStoreInfo(b.storeInfo.value)) else None,
      Some(b.profile.GetOr(EmptyProfile)))
  }

  /** What an accepted body is stored as: never an administrator; a user when no role is given;
      store information exactly for stores, with the given name; a profile always. */
  lemma UserDataSpec(b: RegisterBody)
    requires RegisterRejection(b).None?
    ensures var d := UserDataOf(b);
            && d.role != ADMIN
            && (!Truthy(b.role) ==> d.role == USER)
            && (d.storeInfo.Some? <==> d.role == STORE)
            && (d.storeInfo.Some? ==> d.storeInfo.value.storeName == b.storeInfo.value.storeName.value
                                      && !d.storeInfo.value.verified)
            && d.profile.Some?
  {
  }

  /** The role is not checked against the enumeration: an accepted body may carry any other
      role, which is stored as given. */
  lemma UnlistedRoleAccepted()
    ensures var b := RegisterBody(Some("a@b.c"), Some("secreto"), Some("ana"), Some("superuser"), None, None);
            RegisterRejection(b).None? && UserDataOf(b).role == "superuser" && !IsUserRole(UserDataOf(b).role)
  {
    EmailAccepted();
  }

  /** Building `userData`, then adding the store information for a store. */
  method BuildUserData(b: RegisterBody) returns (userData: CreateUserData)
    requires RegisterRejection(b).None?
    ensures userData == UserDataOf(b)
  {
    userData := CreateUserData(b.email.value, b.password.value, b.username.value,
                               OrElse(b.role, USER), None, Some(b.profile.GetOr(EmptyProfile)));
    if b.role == Some(STORE) {
      var storeInfo := b.storeInfo.value;
      userData := userData.(storeInfo := Some(StoreInfo(storeInfo.storeName.value,
                                                        Some(OrElse(storeInfo.description, "")),
                                                        Some(OrElse(storeInfo.logo, "")),
                                                        false, Some(0), Some(0.0))));
    }
  }

  datatype RegisterReply = Refused(reason: Rejection) | Registered(payload: AuthResponse) | RegisterFailed(message: string) {
    function Status(): int {
      if Registered? then 201 else 400
    }
  }

  /** `register`: a refused body is a 400 and stores nothing; an accepted one goes to the
      service, whose failure is also a 400. */
  method Register(table: UserTable, b: RegisterBody, hash: string -> string, sign: UserSummary -> string,
                  newId: string, now: string)
    returns (reply: RegisterReply)
    requires table.Valid()
    requires forall u :: u in table.users ==> u.key != newId
    modifies table
    ensures table.Valid()
    ensures RegisterRejection(b).Some? ==> reply == Refused(RegisterRejection(b).value) && table.users == old(table.users)
    ensures RegisterRejection(b).None? ==>
      var d := UserDataOf(b);
      && (EmailTaken(old(table.users), d.email) ==>
            reply == RegisterFailed(REGISTER_ERROR + EMAIL_TAKEN) && table.users == old(table.users))
      && (!EmailTaken(old(table.users), d.email) && UsernameTaken(old(table.users), d.username) ==>
            reply == RegisterFailed(REGISTER_ERROR + USERNAME_TAKEN) && table.users == old(table.users))
      && (!EmailTaken(old(table.users), d.email) && !UsernameTaken(old(table.users), d.username) ==>
            var stored := NewUser(newId, d.(password := hash(d.password)), now);
            && reply == Registered(AuthResponse(sign(Summary(stored)), Summary(stored)))
            && table.users == Insert(old(table.users), stored))
  {
    var rejection := RegisterRejection(b);
    if rejection.Some? {
      return Refused(rejection.value);
    }
    var userData := BuildUserData(b);
    var result := AuthService.Register(table, userData, hash, sign, newId, now);
    if result.Failure? {
      return RegisterFailed(result.message);
    }
    reply := Registered(result.value);
  }

  // ---------------------------------------------------------------- login, password, profile

  datatype LoginReply = LoginMissing | LoggedIn(payload: AuthResponse) | LoginRefused(message: string) {
    function Status(): int {
      match this
      case LoginMissing => 400
      case LoggedIn(_) => 200
      case LoginRefused(_) => 401
    }
  }

  /** `login`: a missing email or password is a 400; a refused login a 401 with the service's
      message. */
  method Login(table: UserTable, email: Option<string>, password: Option<string>,
               matches: (string, string) -> bool, sign: UserSummary -> string)
    returns (reply: LoginReply)
    ensures !Truthy(email) || !Truthy(password) ==> reply == LoginMissing
    ensures Truthy(email) && Truthy(password) ==>
      var decision := LoginDecision(FirstWith(table.users, Email, email.value), password.value, matches, sign);
      && (decision.Success? ==> reply == LoggedIn(decision.value))
      && (decision.Failure? ==> reply == LoginRefused(decision.message))
  {
    if !Truthy(email) || !Truthy(password) {
      return LoginMissing;
    }
    var result := AuthService.Login(table, email.value, password.value, matches, sign);
    if result.Failure? {
      return LoginRefused(result.message);
    }
    reply := LoggedIn(result.value);
  }

  /** The guards of `changePassword`, in order. */
  datatype PasswordReply =
    | NotAuthenticated
    | PasswordsRequired
    | NewPasswordWeak
    | PasswordChanged
    | PasswordRefused(message: string)
  {
    function Status(): int {
      match this
      case NotAuthenticated => 401
      case PasswordChanged => 200
      case _ => 400
    }
  }

  /** The guard chain of `changePassword`: no caller is a 401, then a missing password a 400,
      then a short new password a 400; `None` lets the request through to the service. */
  function PasswordGuard(caller: Option<Caller>, currentPassword: Option<string>, newPassword: Option<string>)
    : (r: Option<PasswordReply>)
    ensures r.None? <==> caller.Some? && Truthy(currentPassword) && Truthy(newPassword)
                         && |newPassword.value| >= MIN_PASSWORD_LENGTH
    ensures caller.None? ==> r == Some(NotAuthenticated)
    ensures r.Some? ==> r.value.Status() in {400, 401}
  {
    if caller.None? then Some(NotAuthenticated)
    else if !Truthy(currentPassword) || !Truthy(newPassword) then Some(PasswordsRequired)
    else if |newPassword.value| < MIN_PASSWORD_LENGTH then Some(NewPasswordWeak)
    else None
  }

  /** `changePassword`: the guards, then the service for the caller's own account; a service
      failure is a 400 and changes nothing. */
  method ChangePassword(table: UserTable, caller: Option<Caller>, currentPassword: Option<string>,
                        newPassword: Option<string>, matches: (string, string) -> bool,
                        hash: string -> string, now: string)
    returns (reply: PasswordReply)
    requires table.Valid()
    modifies table
    ensures table.Valid()
    ensures PasswordGuard(caller, currentPassword, newPassword).Some? ==>
      reply == PasswordGuard(caller, currentPassword, newPassword).value && table.users == old(table.users)
    ensures PasswordGuard(caller, currentPassword, newPassword).None? ==>
      var found := FirstIndex(old(table.users), Id, caller.value.id);
      && (found.None? ==> reply == PasswordRefused(USER_NOT_FOUND) && table.users == old(table.users))
      && (found.Some? && !matches(currentPassword.value, old(table.users)[found.value].password) ==>
            reply == PasswordRefused(WRONG_PASSWORD) && table.users == old(table.users))
      && (found.Some? && matches(currentPassword.value, old(table.users)[found.value].password) ==>
            reply == PasswordChanged
            && table.users == old(table.users)[found.value := old(table.users)[found.value].(
                                 password := hash(newPassword.value), updatedAt := Some(now))])
  {
    var guard := PasswordGuard(caller, currentPassword, newPassword);
    if guard.Some? {
      return guard.value;
    }
    var result := AuthService.ChangePassword(table, caller.value.id, currentPassword.value, newPassword.value,
                                             matches, hash, now);
    if result.Failure? {
      return PasswordRefused(result.message);
    }
    reply := PasswordChanged;
  }

  /** `getProfile`: no caller is a 401; otherwise exactly the four claims of the caller's
      token, and nothing else of it. */
  function GetProfile(caller: Option<Caller>): (r: Result<UserSummary>)
    ensures r.Failure? <==> caller.None?
    ensures r.Success? ==> r.value.id == caller.value.id && r.value.email == caller.value.email
                           && r.value.username == caller.value.username && r.value.role == caller.value.role
  {
    if caller.None? then Failure("No autenticado")
    else Success(UserSummary(caller.value.id, caller.value.email, caller.value.username, caller.value.role))
  }
}
