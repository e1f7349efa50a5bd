/** The role gates of src/middlewares/authorization.middleware.ts. Each looks at the caller a
    verified token attached to the request and either lets the request through or answers it. */
module Authorization {
  import opened Wrappers
  import opened Types
  import opened Strings

  /** What a middleware does with a request: pass it on, or answer it with a status. */
  datatype Outcome =
    | Next
    | Respond(status: int, error: string, message: string, yourRole: Option<string>)

  const NOT_AUTHENTICATED: string := "No autenticado"
  const MUST_AUTHENTICATE: string := "Debes estar autenticado para acceder a este recurso"
  const ACCESS_DENIED: string := "Acceso denegado"
  const OWN_RESOURCES_ONLY: string := "Solo puedes acceder a tus propios recursos"

  function RoleRequiredMessage(allowed: seq<string>): string {
    "Necesitas rol " + Join(allowed, " o ") + " para acceder a este recurso"
  }

  /** `requireRole(...allowedRoles)`: no caller is a 401; a caller whose role is not allowed a
      403 that names the allowed roles and the caller's own. */
  function RequireRole(allowed: seq<string>, user: Option<Caller>): (r: Outcome)
    ensures r == Next <==> user.Some? && user.value.role in allowed
    ensures user.None? ==> r == Respond(401, NOT_AUTHENTICATED, MUST_AUTHENTICATE, None)
    ensures user.Some? && user.value.role !in allowed ==>
      r == Respond(403, ACCESS_DENIED, RoleRequiredMessage(allowed), Some(user.value.role))
  {
    if user.None? then Respond(401, NOT_AUTHENTICATED, MUST_AUTHENTICATE, None)
    else if user.value.role !in allowed then
      Respond(403, ACCESS_DENIED, RoleRequiredMessage(allowed), Some(user.value.role))
    else Next
  }

  function RequireAdmin(user: Option<Caller>): Outcome {
    RequireRole([ADMIN], user)
  }

  function RequireStoreOrAdmin(user: Option<Caller>): Outcome {
    RequireRole([STORE, ADMIN], user)
  }

  /** `requireAuth`: any caller passes. */
  function RequireAuth(user: Option<Caller>): (r: Outcome)
    ensures r == Next <==> user.Some?
  {
    if user.None? then Respond(401, NOT_AUTHENTICATED, MUST_AUTHENTICATE, None) else Next
  }

  /** The route parameters a gate can read. */
  datatype RouteParams = RouteParams(id: Option<string>, userId: Option<string>)

  /** `req.params.id || req.params.userId` */
  function RequestedUserId(params: RouteParams): (r: Option<string>)
    ensures Truthy(params.id) ==> r == params.id
    ensures !Truthy(params.id) ==> r == params.userId
  {
    if Truthy(params.id) then params.id else params.userId
  }

  /** `requireOwnerOrAdmin`: no caller is a 401; a caller who is neither the user the route
      names nor an administrator a 403. */
  function RequireOwnerOrAdmin(user: Option<Caller>, params: RouteParams): (r: Outcome)
    ensures r == Next <==> user.Some? && (RequestedUserId(params) == Some(user.value.id) || user.value.role == ADMIN)
    ensures user.None? ==> r.Respond? && r.status == 401
    ensures r.Respond? && user.Some? ==> r == Respond(403, ACCESS_DENIED, OWN_RESOURCES_ONLY, None)
  {
    if user.None? then Respond(401, NOT_AUTHENTICATED, "", None)
    else
      var requested := RequestedUserId(params);
      var isAdmin := user.value.role == ADMIN;
      if requested != Some(user.value.id) && !isAdmin then Respond(403, ACCESS_DENIED, OWN_RESOURCES_ONLY, None)
      else Next
  }

  /** The gates nest: whoever passes the admin gate passes the store-or-admin gate, whoever
      passes that passes the authentication gate, and an administrator passes the owner gate
      for any user. */
  lemma GatesNest(user: Option<Caller>, params: RouteParams)
    ensures RequireAdmin(user) == Next ==> RequireStoreOrAdmin(user) == Next
    ensures RequireStoreOrAdmin(user) == Next ==> RequireAuth(user) == Next
    ensures RequireAdmin(user) == Next ==> RequireOwnerOrAdmin(user, params) == Next
    ensures RequireOwnerOrAdmin(user, params) == Next ==> RequireAuth(user) == Next
  {
  }

  /** The 403 of the admin gate names "admin", that of the store-or-admin gate names
      "store o admin". */
  lemma RoleMessages()
    ensures Join([ADMIN], " o ") == "admin"
    ensures Join([STORE, ADMIN], " o ") == "store o admin"
  {
    assert Join([STORE, ADMIN], " o ") == STORE + " o " + Join([ADMIN], " o ");
  }

  /** With no `id` parameter the owner gate falls back to `userId`; with neither, only an
      administrator passes. */
  lemma OwnerFallback(user: Caller)
    ensures RequireOwnerOrAdmin(Some(user), RouteParams(None, Some(user.id))) == Next
    ensures RequireOwnerOrAdmin(Some(user), RouteParams(Some(""), Some(user.id))) == Next
    ensures RequireOwnerOrAdmin(Some(user), RouteParams(None, None)) == Next <==> user.role == ADMIN
  {
  }
}
