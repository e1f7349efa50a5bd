/** The guard chains of src/routes/user.routes.ts and src/routes/product.routes.ts, mounted
    under /users and /products (src/routes/index.ts): which middlewares run before each handler,
    and so which requests reach it. */
module Routes {
  import opened Wrappers
  import opened Types
  import opened Authorization
  import opened Authentication
  import opened QueryValidator

  /** The middlewares a route can run before its handler. */
  datatype Guard = AuthenticateGuard | ValidateQueryGuard | PriceRangeGuard | AdminGuard | OwnerOrAdminGuard

  datatype Route = Route(verb: string, path: string, guards: seq<Guard>, handler: string)

  // `router.use(authenticateToken)` puts the token check in front of every user route.
  const LIST_USERS := Route("GET", "/users", [AuthenticateGuard, AdminGuard], "getAllUsers")
  const USERS_BY_ROLE := Route("GET", "/users/role/:role", [AuthenticateGuard, AdminGuard], "getUsersByRole")
  const GET_USER := Route("GET", "/users/:id", [AuthenticateGuard, OwnerOrAdminGuard], "getUserById")
  const UPDATE_USER := Route("PUT", "/users/:id", [AuthenticateGuard, OwnerOrAdminGuard], "updateUser")
  const DELETE_USER := Route("DELETE", "/users/:id", [AuthenticateGuard, AdminGuard], "deleteUser")
  const TOGGLE_USER := Route("PATCH", "/users/:id/toggle-status", [AuthenticateGuard, AdminGuard], "toggleUserStatus")

  const LIST_PRODUCTS := Route("GET", "/products", [ValidateQueryGuard, PriceRangeGuard], "getAllProducts")
  const GET_PRODUCT := Route("GET", "/products/:id", [], "getProductById")
  const CREATE_PRODUCT := Route("POST", "/products/create", [AuthenticateGuard], "createProduct")
  const DELETE_PRODUCT := Route("DELETE", "/products/:id", [AuthenticateGuard], "deleteProduct")
  const BULK_PRODUCTS := Route("POST", "/products/bulk", [AuthenticateGuard], "createManyProducts")

  const USER_ROUTES: seq<Route> := [LIST_USERS, USERS_BY_ROLE, GET_USER, UPDATE_USER, DELETE_USER, TOGGLE_USER]
  const PRODUCT_ROUTES: seq<Route> := [LIST_PRODUCTS, GET_PRODUCT, CREATE_PRODUCT, DELETE_PRODUCT, BULK_PRODUCTS]

  /** What a request carries into the chain. */
  datatype Incoming = Incoming(authorization: Option<string>, params: RouteParams, query: ListingQuery)

  /** The environment the token check reads: the secret and the token verifier. */
  datatype Keys = Keys(secret: Option<string>, verify: (string, string) -> Option<Caller>)

  /** How a request leaves the chain: it reaches the handler, with the caller the token check
      attached if any, or a middleware answers it. */
  datatype Dispatch = Reached(user: Option<Caller>) | Answered(status: int, error: string)

  /** One middleware on a request whose caller so far is `user`. */
  function Step(g: Guard, req: Incoming, keys: Keys, user: Option<Caller>): Dispatch {
    match g
    case AuthenticateGuard =>
      var d := Authenticate(req.authorization, keys.secret, keys.verify);
      if d.Failure? then Answered(RefusalStatus(d.message), d.message) else Reached(Some(d.value))
    case ValidateQueryGuard =>
      var v := ValidateProductQuery(req.query);
      if v.Rejected? then Answered(v.status, v.message) else Reached(user)
    case PriceRangeGuard =>
      var v := ValidatePriceRange(req.query);
      if v.Rejected? then Answered(v.status, v.message) else Reached(user)
    case AdminGuard =>
      var o := RequireAdmin(user);
      if o.Respond? then Answered(o.status, o.error) else Reached(user)
    case OwnerOrAdminGuard =>
      var o := RequireOwnerOrAdmin(user, req.params);
      if o.Respond? then Answered(o.status, o.error) else Reached(user)
  }

  /** The chain: each middleware in turn, the first answer ending it. Every answer is one of
      the middlewares' statuses; a chain with the token check reaches the handler only with a
      caller, and one without it passes on the caller it was given. */
  function RunGuards(guards: seq<Guard>, req: Incoming, keys: Keys, user: Option<Caller>): (r: Dispatch)
    ensures r.Answered? ==> r.status in {400, 401, 403, 500}
    ensures r.Reached? && AuthenticateGuard in guards ==> r.user.Some?
    ensures r.Reached? && AuthenticateGuard !in guards ==> r.user == user
    ensures guards != [] && Step(guards[0], req, keys, user).Answered? ==> r == Step(guards[0], req, keys, user)
    decreases |guards|
  {
    if guards == [] then Reached(user)
    else
      match Step(guards[0], req, keys, user)
      case Answered(status, error) => Answered(status, error)
      case Reached(next) =>
        assert forall g :: g in guards ==> g == guards[0] || g in guards[1..];
        RunGuards(guards[1..], req, keys, next)
  }

  /** Every user route, and every product route that writes, starts with the token check, so
      a request without a token is answered 401 "Token requerido" there whatever else it
      carries; the two product reads run no token check at all. */
  lemma NoTokenRefused(route: Route, req: Incoming, keys: Keys, user: Option<Caller>)
    requires route in USER_ROUTES || route in [CREATE_PRODUCT, DELETE_PRODUCT, BULK_PRODUCTS]
    requires TokenOf(req.authorization).None?
    ensures RunGuards(route.guards, req, keys, user) == Answered(401, TOKEN_REQUIRED)
    ensures AuthenticateGuard !in LIST_PRODUCTS.guards && AuthenticateGuard !in GET_PRODUCT.guards
  {
  }

  /** Listing, role lookup, deletion and status toggling of users reach their handlers exactly
      for a verified caller whose role is admin. */
  lemma AdminRoutes(route: Route, req: Incoming, keys: Keys, user: Option<Caller>)
    requires route in [LIST_USERS, USERS_BY_ROLE, DELETE_USER, TOGGLE_USER]
    ensures var d := Authenticate(req.authorization, keys.secret, keys.verify);
            RunGuards(route.guards, req, keys, user).Reached? <==> d.Success? && d.value.role == ADMIN
  {
  }

  /** Reading and updating a user reach their handlers exactly for a verified caller who is
      that user or an admin. */
  lemma OwnerRoutes(route: Route, req: Incoming, keys: Keys, user: Option<Caller>)
    requires route in [GET_USER, UPDATE_USER]
    ensures var d := Authenticate(req.authorization, keys.secret, keys.verify);
            RunGuards(route.guards, req, keys, user).Reached? <==>
              d.Success? && (RequestedUserId(req.params) == Some(d.value.id) || d.value.role == ADMIN)
  {
  }

  /** Creating, deleting and bulk-creating products reach their handlers for every verified
      caller, whatever the role: no role or ownership check guards them. */
  lemma ProductWritesNeedOnlyAToken(route: Route, req: Incoming, keys: Keys, user: Option<Caller>)
    requires route in [CREATE_PRODUCT, DELETE_PRODUCT, BULK_PRODUCTS]
    ensures var d := Authenticate(req.authorization, keys.secret, keys.verify);
            RunGuards(route.guards, req, keys, user) == (if d.Success? then Reached(Some(d.value)) else Answered(RefusalStatus(d.message), d.message))
  {
  }

  /** The listing reaches its handler exactly for a query that passes the chain of rules and the
      price cross-check; a single product is read with no check at all. */
  lemma ProductReads(req: Incoming, keys: Keys, user: Option<Caller>)
    ensures RunGuards(LIST_PRODUCTS.guards, req, keys, user).Reached? <==> Valid(req.query) && !PriceRangeRefused(req.query)
    ensures RunGuards(GET_PRODUCT.guards, req, keys, user) == Reached(user)
  {
  }
}
