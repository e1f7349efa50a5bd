/** The records the API stores and exchanges: users and their roles, authentication claims,
    products, listing options and results, and the query string of the listing endpoint. */
module Types {
  import opened Wrappers

  // ---------------------------------------------------------------- users

  /** The values of the `UserRole` enumeration. At run time a role is a plain string: nothing
      stops a request body from carrying another one, so roles are strings here too. */
  const USER: string := "user"
  const STORE: string := "store"
  const ADMIN: string := "admin"

  /** `Object.values(UserRole)`, in declaration order. */
  const UserRoles: seq<string> := [USER, STORE, ADMIN]

  predicate IsUserRole(s: string) {
    s in UserRoles
  }

  datatype Address = Address(
    street: Option<string>, city: Option<string>, state: Option<string>,
    zipCode: Option<string>, country: Option<string>)

  datatype UserProfile = UserProfile(
    firstName: Option<string>, lastName: Option<string>, phone: Option<string>,
    address: Option<Address>, avatar: Option<string>)

  /** The `{}` profile given to users who register without one. */
  const EmptyProfile: UserProfile := UserProfile(None, None, None, None, None)

  datatype StoreInfo = StoreInfo(
    storeName: string, description: Option<string>, logo: Option<string>,
    verified: bool, totalSales: Option<int>, rating: Option<real>)

  /** A user as the model reads it back, `{ id: doc.id, ...doc.data() }`, together with `key`,
      the id of its document. `id` is the document's own `id` field when an update has written
      one, and `key` otherwise: the spread lets a stored field shadow the document id. */
  datatype User = User(
    key: string, id: string, email: string, password: string, username: string, role: string,
    isActive: bool, createdAt: string, updatedAt: Option<string>,
    storeInfo: Option<StoreInfo>, profile: Option<UserProfile>)

  datatype CreateUserData = CreateUserData(
    email: string, password: string, username: string, role: string,
    storeInfo: Option<StoreInfo>, profile: Option<UserProfile>)

  /** The body of an update: only the fields that are present are written. Besides the fields
      `UpdateUserData` declares, a body that is passed on unchecked can carry `id` and
      `createdAt`, and those are written too. */
  datatype UpdateUserData = UpdateUserData(
    email: Option<string>, username: Option<string>, password: Option<string>,
    role: Option<string>, isActive: Option<bool>,
    storeInfo: Option<StoreInfo>, profile: Option<UserProfile>,
    id: Option<string>, createdAt: Option<string>)

  const NoUserChanges: UpdateUserData := UpdateUserData(None, None, None, None, None, None, None, None, None)

  /** A user as the user endpoints return it: every stored field except `password`. */
  datatype PublicUser = PublicUser(
    id: string, email: string, username: string, role: string,
    isActive: bool, createdAt: string, updatedAt: Option<string>,
    storeInfo: Option<StoreInfo>, profile: Option<UserProfile>)

  /** The four claims of a token (`JWTPayload`), also the user summary of `AuthResponse`. */
  datatype UserSummary = UserSummary(id: string, email: string, username: string, role: string)

  /** `req.user`: the decoded claims of a verified token, which also carry its timestamps. */
  datatype Caller = Caller(
    id: string, email: string, username: string, role: string, iat: int, exp: int)

  datatype AuthResponse = AuthResponse(token: string, user: UserSummary)

  // ---------------------------------------------------------------- products

  /** The fields of a product document; `storedId` is an `id` field an update has written
      into it, if any. */
  datatype ProductData = ProductData(
    name: string, description: string, price: real, image: string, category: string,
    stock: int, rating: real, brand: string, isActive: bool,
    createdAt: string, updatedAt: Option<string>, storedId: Option<string>)

  /** A product document read back with its id. */
  datatype Product = Product(id: string, data: ProductData)

  /** `Partial<Product>`: a request body for creation, or the fields of an update. */
  datatype PartialProduct = PartialProduct(
    name: Option<string>, description: Option<string>, price: Option<real>,
    image: Option<string>, category: Option<string>, stock: Option<int>,
    rating: Option<real>, brand: Option<string>, isActive: Option<bool>,
    id: Option<string>, createdAt: Option<string>)

  datatype ProductFilters = ProductFilters(
    search: Option<string>, category: Option<string>, brand: Option<string>,
    minPrice: Option<real>, maxPrice: Option<real>, minRating: Option<real>,
    isActive: Option<bool>)

  const NoFilters: ProductFilters := ProductFilters(None, None, None, None, None, None, None)

  datatype PaginationOptions = PaginationOptions(
    limit: int, page: int, sortBy: string, order: string,
    filters: ProductFilters, startAfter: Option<string>)

  datatype PaginatedResult = PaginatedResult(
    products: seq<Product>, total: nat, hasNext: bool, nextCursor: Option<string>)

  // ---------------------------------------------------------------- query string

  /** One query-string parameter: its text and, when the text is a numeral, the number it
      denotes (the reading `isInt`/`isFloat`/`parseFloat` agree on). */
  datatype Param = Param(raw: string, number: Option<real>)

  /** The query string of `GET /products`; `None` is an absent parameter. */
  datatype ListingQuery = ListingQuery(
    limit: Option<Param>, page: Option<Param>, sortBy: Option<Param>, order: Option<Param>,
    search: Option<Param>, category: Option<Param>, brand: Option<Param>,
    minPrice: Option<Param>, maxPrice: Option<Param>, minRating: Option<Param>,
    isActive: Option<Param>, startAfter: Option<Param>)

  /** The raw text of an optional parameter. */
  function Raw(p: Option<Param>): Option<string> {
    if p.Some? then Some(p.value.raw) else None
  }
}
