# A verified model of the talento-tech product and user API

This project models, in Dafny, the core of a REST API written in TypeScript on Express, with
Firestore as its document store. The API manages products and users. The model covers:

- **Product listing.** The Firestore constraints the paginated listing builds from its filters,
  the count query beside it, and the page it returns (`hasNext`, `nextCursor`, the client-side
  search test). The older `.js` listing, whose search guard throws, is modelled as well.
- **Product handlers.** Reading the listing's query string into pagination options, `totalPages`
  and `hasPrev`, the required fields and defaults of single creation, and the partition loop of
  bulk creation.
- **Users.** The user table as a class over the sequence of documents in document id order, the
  order queries return them in, with its first-match lookups, insert, merge-update and delete.
- **Accounts.** Registration, login and password change, in both the service and the controller:
  the email expression, the password length, the store and admin rules, and the order of the
  checks.
- **User administration.** Password removal from every reply, the role check on updates, and the
  self-deletion and self-deactivation guards.
- **Middlewares.** Token authentication (`Authorization: Bearer <token>`), the role and ownership
  gates, and the query-string rules with the price cross-check.
- **Routes.** The two route tables, and so which requests reach which handler.

Hashing, password comparison, token signing and verification, lower-casing and the database's
answers to a query are parameters of the operations that need them. The current time and fresh
document ids are parameters too.

Modules, one per file:

- `Wrappers`, `Strings`, `JsNumbers`: optional values and results; the JavaScript string
  operations the code relies on; `parseInt`.
- `Types`: the records of `src/types`.
- `ProductQuery`, `ProductStore`, `ProductModelJs`: the product model (`.ts` and `.js`).
  `ProductStore.ProductTable.DeleteProduct` and `CreateManyProducts` also model `deleteProduct`
  and `createManyProducts` of src/models/product.model.js:183-211. They behave the same as the
  TypeScript ones for every `Error` thrown.
- `ProductController`: the product handlers.
- `UserStore`: the user model.
- `AuthService`, `AuthController`, `UserController`: the account and user-administration
  services and handlers.
- `Authentication`, `Authorization`, `QueryValidator`: the middlewares.
- `Routes`: the route tables.

Where the documentation of the API and the code disagree, the model follows the code:

- Creating, deleting and bulk-creating products need only a valid token. No role or ownership
  check guards them (`Routes.ProductWritesNeedOnlyAToken`).
- Registration refuses the `admin` role but stores any other role text unchecked
  (`AuthController.UnlistedRoleAccepted`).
- The TypeScript listing narrows a searched page by a substring test after fetching it. The `.js`
  listing guards the same test with `c.field.segments`, which the client's `where` constraints do
  not have, so a searched `.js` listing fails (`ProductModelJs.SearchGuardThrows`).
- An update body is written as sent. A user's body can carry `id` and `createdAt`, which the
  update type does not declare. Every read spreads the stored fields over the document id, so a
  stored `id` renames the user, and a login then signs the new id into the token
  (`UserController.RenamedUserSignsNewId`). A product update can write both fields the same way
  (`ProductStore.PatchRewritesIdentity`).

## Model

| member | source | states |
|---|---|---|
| Wrappers.OrElse | src/controllers/product.controller.ts:134-140 | `x \|\| fallback` on optional text: the text when it is non-empty, the fallback otherwise |
| Strings.TrimStart | src/middlewares/validateQuery.middleware.ts:58 | the result is a suffix of the input that does not start with white space, and everything cut off is white space |
| Strings.TrimEnd | src/middlewares/validateQuery.middleware.ts:58 | the result is a prefix of the input that does not end with white space, and everything cut off is white space |
| Strings.Trim | src/middlewares/validateQuery.middleware.ts:58 | `trim()`: a slice of the input with white space only around it, neither starting nor ending with white space |
| Strings.ContainsSpec | src/models/product.model.ts:145-146 | `includes` holds exactly when the term occurs at some position of the text |
| Strings.IndexOf | src/middlewares/auth.middleware.ts:8 | the first position of a character: absent exactly when the character does not occur, otherwise no earlier occurrence |
| Strings.Split | src/middlewares/auth.middleware.ts:8 | `split(c)`: at least one piece, no piece holds the separator, more than one piece exactly when the separator occurs |
| Strings.Join | src/middlewares/authorization.middleware.ts:31-33 | `join(sep)` of a single piece is that piece |
| Strings.JoinSplit | src/middlewares/auth.middleware.ts:8 | joining the pieces of a split with the separator gives back the text |
| Strings.NatToString | src/models/product.model.ts:261 | `${n}`: a non-empty string of decimal digits |
| Strings.DecimalValueOfNatToString | src/models/product.model.ts:261 | reading the rendered count back gives the count |
| JsNumbers.LeadingDigits | src/controllers/product.controller.ts:31-32 | the longest prefix made of digits |
| JsNumbers.Unsigned | src/controllers/product.controller.ts:31-32 | a leading sign is dropped, and nothing else is |
| JsNumbers.ParseInt | src/controllers/product.controller.ts:31-32 | `parseInt` is `NaN` exactly when no digit follows the leading white space and optional sign |
| JsNumbers.ParseIntOfIntText | src/controllers/product.controller.ts:31-32 | `parseInt` of an optionally signed digit string is its value |
| JsNumbers.ParseIntOfNatToString | src/controllers/product.controller.ts:17-18 | the default texts "10" and "1" are integer text and read back as 10 and 1 |
| ProductQuery.FilterClauses | src/models/product.model.ts:57-79 | every filter clause is a `where` on a field other than `name`; there are none exactly when no filter is present |
| ProductQuery.FilterClausesMembers | src/models/product.model.ts:57-79 | the filter clauses are exactly the clauses of the present filters |
| ProductQuery.EqualityClausesExact | src/models/product.model.ts:57-67 | a category, brand or isActive equality clause is emitted exactly when that filter is present (non-empty text, or any boolean), with its value |
| ProductQuery.RangeClausesExact | src/models/product.model.ts:69-79 | a price or rating range clause is emitted exactly when its bound is defined, with that bound |
| ProductQuery.SearchClauses | src/models/product.model.ts:81-85 | a non-empty search term gives exactly two clauses, both on `name`; otherwise none |
| ProductQuery.CursorClause | src/models/product.model.ts:89-94 | at most one clause, and it is a `startAfter` |
| ProductQuery.PagingClauses | src/models/product.model.ts:87-96 | the ordering clause comes first and the `limit(limit + 1)` clause last; in between at most the cursor, no filter |
| ProductQuery.CountQueryOf | src/models/product.model.ts:122-125 | the count is taken over the bare collection exactly when there are no count constraints |
| ProductQuery.PageConstraintsLimitLast | src/models/product.model.ts:96 | the page query's only `limit` clause is the last, and it fetches one more than a page |
| ProductQuery.PageConstraintsOrdered | src/models/product.model.ts:57-96 | exactly one ordering clause; every clause before it is a filter, none after it is |
| ProductQuery.PageConstraintsSearchRange | src/models/product.model.ts:81-85 | the only clauses on `name` are the prefix range `[term, term + maxChar]` of a present search term |
| ProductQuery.PageConstraintsCursor | src/models/product.model.ts:89-94 | a cursor clause is there exactly when a cursor naming a stored document is given |
| ProductQuery.BuildConstraints | src/models/product.model.ts:55-96 | the constraints pushed one by one are the page query's constraints |
| ProductQuery.PushFilterClauses | src/models/product.model.ts:57-79 | the six conditional pushes yield the filter clauses |
| ProductQuery.BuildCountConstraints | src/models/product.model.ts:101-120 | the count constraints are the filter clauses, never on `name`, empty exactly when no filter is present |
| ProductQuery.CountIsPageWithoutSearchAndPaging | src/models/product.model.ts:101-125 | the count query is the page query minus the search range, ordering, cursor and limit clauses, so `total` ignores the search term |
| ProductQuery.CollectPage | src/models/product.model.ts:130-138 | the collected products are the first `limit` fetched documents, or all of them |
| ProductQuery.FilterBySearch | src/models/product.model.ts:140-148 | the filter never yields more products than it was given |
| ProductQuery.FilterBySearchMembers | src/models/product.model.ts:143-147 | the filter keeps exactly the products whose lower-cased name or description contains the lower-cased term |
| ProductQuery.FilterBySearchAppend | src/models/product.model.ts:143-147 | the filter keeps order: it distributes over concatenation |
| ProductQuery.FilterBySearchCounts | src/models/product.model.ts:143-147 | every matching product is kept as often as it occurs, every other one dropped |
| ProductQuery.NextCursor | src/models/product.model.ts:150-153 | a cursor exactly when there is a next page and a returned product; it is the last returned id |
| ProductQuery.PageOfSpec | src/models/product.model.ts:128-160 | `hasNext` exactly when more than `limit` documents were fetched; at most `limit` products; the fetched prefix unchanged without a search, its matching products with one; `total` is the count |
| ProductQuery.PageNeverExceedsLimit | src/models/product.model.ts:131-148 | a page never holds more than `limit` products |
| ProductStore.PatchComposes | src/models/product.model.ts:215-218 | two updates are one update with the later fields winning; repeating an update changes nothing; a patch without `createdAt` or `id` keeps the creation time and the id the product is read with |
| ProductStore.PatchRewritesIdentity | src/models/product.model.ts:179-218 | a patch with `createdAt` rewrites the creation time; one with `id` makes the product read back under that id; a product never given an `id` field is read under its document id |
| ProductStore.ProductTable.constructor | src/models/product.model.ts:16 | the table starts with the given documents |
| ProductStore.ProductTable.GetAllWithPagination | src/models/product.model.ts:42-170 | a negative limit fails with the pagination prefix and the client's limit error, which names the rejected `limit + 1`; otherwise the page of the documents fetched for the page constraints, with the count of the filter-only query |
| ProductStore.ProductTable.GetProductById | src/models/product.model.ts:172-187 | a product exactly when the id is stored, with its fields, under the stored `id` field if there is one and under the document id otherwise |
| ProductStore.ProductTable.UpdateProduct | src/models/product.model.ts:203-228 | an unknown id fails with the update prefix and the not-found message, changing nothing; otherwise exactly that document is patched, `id` and `createdAt` included, and stamped |
| ProductStore.ProductTable.DeleteProduct | src/models/product.model.ts:230-249 | an unknown id fails with the delete prefix, changing nothing; otherwise exactly that document is removed, with the success message |
| ProductStore.ProductTable.CreateProduct | src/models/product.model.ts:189-201 | the product is stored under the new id, which is returned; nothing else changes |
| ProductStore.ProductTable.CreateManyProducts | src/models/product.model.ts:251-262 | every product is stored under its own new id, older documents are kept, and the message counts the products |
| ProductModelJs.SomeNameClause | src/models/product.model.js:129-131 | `constraints.some(...)` throws exactly when some constraint is a `where`, since reading `segments` of its missing `field` throws; otherwise it is false |
| ProductModelJs.SearchGuardThrows | src/models/product.model.js:127-131 | with a search term the guard throws, the constraints then holding its `name` clauses; without one it is false, so the client-side filter never runs |
| ProductModelJs.GetAllWithPaginationJs | src/models/product.model.js:29-158 | a negative limit fails as in the TypeScript listing; a search term fails with the guard's `TypeError` under the pagination prefix; any other listing is the TypeScript page of the same fetch and count, the fetched prefix unfiltered |
| ProductController.ParseLimit | src/controllers/product.controller.ts:17-31 | the limit is never 0 and never above 100 |
| ProductController.ParsePage | src/controllers/product.controller.ts:18-32 | the page is never 0 |
| ProductController.ParseLimitCases | src/controllers/product.controller.ts:31 | an integer limit in 1..100 is kept, a larger one becomes 100, zero or an unreadable one 10, a negative one stays as sent |
| ProductController.ParseLimitDefault | src/controllers/product.controller.ts:17-31 | a missing limit is 10 |
| ProductController.ParsePageCases | src/controllers/product.controller.ts:18-32 | an integer page of at least 1 is kept; a missing page is 1 |
| ProductController.TruthyText | src/controllers/product.controller.ts:42-44 | a text filter is set exactly for a non-empty parameter, to that text |
| ProductController.TruthyNumber | src/controllers/product.controller.ts:45-47 | a numeric filter is set exactly for a non-empty parameter that reads as a number, to that number |
| ProductController.OptionsOfSpec | src/controllers/product.controller.ts:16-49 | the options' limit is in range and never 0, the page never 0; each filter is present exactly when its parameter is; `isActive` is true exactly for the text "true" |
| ProductController.EmptyQueryOptions | src/controllers/product.controller.ts:16-40 | an empty query string lists newest first in pages of 10, counted over the whole collection |
| ProductController.BuildOptions | src/controllers/product.controller.ts:31-49 | the options built step by step are the options of the query |
| ProductController.ReadFilters | src/controllers/product.controller.ts:42-48 | the filters built step by step are the filters of the query |
| ProductController.TotalPages | src/controllers/product.controller.ts:62 | `Math.ceil(total / limit)`: the fewest pages of `limit` products that hold `total` |
| ProductController.GetAllProducts | src/controllers/product.controller.ts:11-74 | a negative limit is a 500 with the listing's error, naming `limit + 1`; otherwise 200 with the page and pagination (`totalPages`, `hasPrev` exactly when page > 1) |
| ProductController.WithDefaults | src/controllers/product.controller.ts:132-143 | a complete body keeps its name, price and category, is created now, and has no update time and no `id` field |
| ProductController.WithDefaultsSpec | src/controllers/product.controller.ts:126-143 | a product sent in full is stored as sent; a bare one gets the defaults (empty texts, stock and rating 0, brand "Sin marca", active) |
| ProductController.CreateProduct | src/controllers/product.controller.ts:109-155 | a body without name, price or category is a 400 and stores nothing; otherwise the defaulted product is stored and returned with 201 |
| ProductController.PartitionSizes | src/controllers/product.controller.ts:203-223 | every item lands on exactly one side of the partition |
| ProductController.PartitionMembers | src/controllers/product.controller.ts:203-223 | the invalid side is exactly the incomplete items; the valid side is exactly the defaulted complete items |
| ProductController.Partition | src/controllers/product.controller.ts:200-223 | the loop's two lists are the valid and invalid sides, in order |
| ProductController.CreateManyProducts | src/controllers/product.controller.ts:187-249 | no array or an empty one is a 400; no complete item is a 400 with the invalid items; otherwise the valid items are stored with both counts and 201 |
| ProductController.GetProductById | src/controllers/product.controller.ts:76-107 | an empty id is a 400, an unknown one a 404, otherwise the product as read back |
| ProductController.DeleteProduct | src/controllers/product.controller.ts:157-185 | an empty id is a 400; an unknown one a 500 with the model's message, changing nothing; otherwise 200 and exactly that product is gone |
| UserStore.FirstIndex | src/models/user.model.ts:60-96 | the first position whose field has the value, none exactly when no user has it |
| UserStore.WithRole | src/models/user.model.ts:162-179 | the by-role query returns no more users than stored |
| UserStore.WithRoleMembers | src/models/user.model.ts:162-179 | the by-role query returns exactly the users of that role |
| UserStore.MergeSpec | src/models/user.model.ts:132-135 | an empty update only stamps the time; repeating an update changes nothing; the later update wins; the document keeps its id; the id the user is read with and the creation time change only when the body carries them |
| UserStore.Insert | src/models/user.model.ts:109 | a new document joins the table: one more user, exactly the old ones and the new one |
| UserStore.InsertKeepsOrder | src/models/user.model.ts:109 | inserting under a new document id keeps the table in document id order |
| UserStore.InsertKeepsUnique | src/models/user.model.ts:109 | inserting a user whose email (or username, or id) nobody has keeps that field unique |
| UserStore.WithoutSpec | src/models/user.model.ts:144-160 | removing a user keeps the table in id order and leaves exactly the users of the other documents |
| UserStore.UserTable.constructor | src/models/user.model.ts:19 | the table starts with the given users, in document id order |
| UserStore.UserTable.IndexOf | src/models/user.model.ts:60-96 | the scan finds the first matching position |
| UserStore.UserTable.GetAll | src/models/user.model.ts:21-41 | every user, in table order |
| UserStore.UserTable.GetUserById | src/models/user.model.ts:43-58 | a user exactly when a document has the id, and it is that document's user |
| UserStore.UserTable.GetUserByEmail | src/models/user.model.ts:60-77 | the first user with the email; none exactly when no user has it |
| UserStore.UserTable.GetUserByUsername | src/models/user.model.ts:79-96 | the first user with the username; none exactly when no user has it |
| UserStore.UserTable.GetUsersByRole | src/models/user.model.ts:162-179 | the users of the role, in table order |
| UserStore.UserTable.CreateUser | src/models/user.model.ts:98-118 | the user is stored active, created and updated now, under the new id, at that id's place in the table's order |
| UserStore.UserTable.UpdateUser | src/models/user.model.ts:120-142 | an unknown id fails with the update prefix and the not-found message, changing nothing; otherwise exactly that user is merged and stamped |
| UserStore.UserTable.DeleteUser | src/models/user.model.ts:144-160 | an unknown id fails with the delete prefix, changing nothing; otherwise exactly the user of that document is gone |
| AuthService.Register | src/services/auth.service.ts:14-59 | a taken email fails first, then a taken username, both with the "Error en registro: " prefix and nothing stored; otherwise the user is inserted with the hashed password and the signed summary returned |
| AuthService.RegisterKeepsUnique | src/services/auth.service.ts:16-26 | since a taken email and a taken username are refused, the emails and the usernames in the table stay pairwise distinct |
| AuthService.LoginDecision | src/services/auth.service.ts:61-103 | success exactly for a known, active user whose password matches; an inactive user is refused before the compare; every other failure is "Credenciales inválidas" |
| AuthService.Login | src/services/auth.service.ts:61-103 | the decision for the first user with the email |
| AuthService.LoginAfterRegister | src/services/auth.service.ts:14-103 | logging in right after registering, with the same password, succeeds and returns the registered summary |
| AuthService.ChangePassword | src/services/auth.service.ts:119-149 | an unknown user fails first, then a wrong current password, changing nothing; otherwise only the password hash changes |
| AuthController.IsValidEmailSpec | src/controllers/auth.controller.ts:16-17 | the computed test accepts exactly the language of `^[^\s@]+@[^\s@]+\.[^\s@]+$` |
| AuthController.EmailAccepted | src/controllers/auth.controller.ts:16 | "a@b.c" and "a.b@c.d.e" match the expression |
| AuthController.EmailRefused | src/controllers/auth.controller.ts:16 | no `@`, two `@`, a dot right after the `@` or at the end, and white space are refused |
| AuthController.RegisterRejection | src/controllers/auth.controller.ts:9-43 | a body passes the checks only with the three credentials present |
| AuthController.RegisterRejectionSpec | src/controllers/auth.controller.ts:9-43 | a body passes exactly when the credentials are present, the email matches, the password has at least 6 characters, a store names itself, and the role is not admin; each refusal implies the earlier checks passed |
| AuthController.UserDataSpec | src/controllers/auth.controller.ts:45-62 | an accepted body is stored never as admin, as a user when no role is given, always with a profile, and with store information (the given name, unverified) exactly for a store |
| AuthController.UnlistedRoleAccepted | src/controllers/auth.controller.ts:31-49 | a role outside the enumeration passes every check and is stored as sent |
| AuthController.BuildUserData | src/controllers/auth.controller.ts:45-62 | building the record, then adding the store information, gives the stored record |
| AuthController.Register | src/controllers/auth.controller.ts:5-77 | a refused body is a 400 and stores nothing; an accepted one is the service's registration: a 400 with its message on failure, otherwise 201 with the token and summary of the inserted user |
| AuthController.Login | src/controllers/auth.controller.ts:79-103 | a missing email or password is a 400; otherwise the service's decision, a failure being a 401 with its message |
| AuthController.PasswordGuard | src/controllers/auth.controller.ts:105-127 | no caller is a 401, then a missing password a 400, then a short new one a 400; the guards pass exactly for a caller with both passwords and a new one of at least 6 characters |
| AuthController.ChangePassword | src/controllers/auth.controller.ts:105-141 | a failed guard changes nothing; otherwise the service's change on the caller's own account |
| AuthController.GetProfile | src/controllers/auth.controller.ts:143-169 | no caller is a 401; otherwise exactly the caller's id, email, username and role |
| UserController.Sanitize | src/controllers/user.controller.ts:48 | every field of the user but the password |
| UserController.SanitizeHidesOnlyPassword | src/controllers/user.controller.ts:48 | two users look the same after sanitising exactly when their objects differ at most in their password |
| UserController.SanitizeAll | src/controllers/user.controller.ts:12 | one sanitised entry per user, in order |
| UserController.GetAllUsers | src/controllers/user.controller.ts:8-26 | every user, sanitised, with the total |
| UserController.GetUserById | src/controllers/user.controller.ts:28-61 | an empty id is a 400, an unknown one a 404; otherwise the sanitised user |
| UserController.GetUsersByRole | src/controllers/user.controller.ts:63-90 | a role outside user, store, admin is a 400 naming the three; otherwise the sanitised users of that role |
| UserController.UsersByRoleSpec | src/controllers/user.controller.ts:74-76 | every listed user has the role, and every user of the role is listed |
| UserController.UpdateGuard | src/controllers/user.controller.ts:97-108 | the guard passes exactly for a non-empty id when the caller is admin or sends no role; a non-admin sending a role gets 403 |
| UserController.Hashed | src/controllers/user.controller.ts:110-115 | a non-empty password is replaced by its hash, all other fields are kept |
| UserController.UpdateUser | src/controllers/user.controller.ts:92-129 | a failed guard changes nothing; an unknown id is a 500 with the model's message; otherwise exactly that user is merged with the hashed changes |
| UserController.UpdateEffect | src/controllers/user.controller.ts:103-117 | an update that gets through stores the hash of a sent password; a non-admin's role is unchanged unless the role sent is empty text; the document keeps its id, but a body's `id` and `createdAt` are written, whoever sends them |
| UserController.RenamedUserSignsNewId | src/controllers/user.controller.ts:95-117 | after an update whose body carries an `id`, logging in signs that id, and the owner gate lets the caller act on the user with that id |
| UserController.DeleteUser | src/controllers/user.controller.ts:131-160 | an empty id is a 400; the caller's own id a 400 and nothing is deleted; otherwise the model's delete |
| UserController.ToggleUserStatus | src/controllers/user.controller.ts:162-205 | an empty id is a 400; an unknown id a 404, checked before the self check; the caller's own account a 400; otherwise the active flag is flipped and the message says which |
| Authorization.RequireRole | src/middlewares/authorization.middleware.ts:17-40 | passes exactly for a caller whose role is allowed; no caller is a 401; a caller with another role a 403 naming the allowed roles joined with " o " and the caller's role |
| Authorization.RequireAuth | src/middlewares/authorization.middleware.ts:46-58 | passes exactly when there is a caller |
| Authorization.RequestedUserId | src/middlewares/authorization.middleware.ts:71 | `params.id`, or `params.userId` when `id` is missing or empty |
| Authorization.RequireOwnerOrAdmin | src/middlewares/authorization.middleware.ts:60-83 | passes exactly for a caller who is the requested user or an admin; no caller is a 401, anyone else a 403 |
| Authorization.GatesNest | src/middlewares/authorization.middleware.ts:42-44 | the admin gate implies the store-or-admin gate, which implies the authentication gate; an admin passes the owner gate |
| Authorization.RoleMessages | src/middlewares/authorization.middleware.ts:31-33 | the admin gate names "admin", the store-or-admin gate "store o admin" |
| Authorization.OwnerFallback | src/middlewares/authorization.middleware.ts:71-75 | without `id` (missing or empty) the gate falls back to `userId`; with neither, only an admin passes |
| Authentication.TokenOf | src/middlewares/auth.middleware.ts:7-8 | a token is non-empty and holds no space; a missing or empty header, or one without a space, has none |
| Authentication.TokenOfBearer | src/middlewares/auth.middleware.ts:8 | the header "<scheme> <token>" yields the token |
| Authentication.TokenOfIgnoresRest | src/middlewares/auth.middleware.ts:8 | text after a second space is ignored |
| Authentication.AuthenticateSpec | src/middlewares/auth.middleware.ts:6-27 | no token is a 401 whatever the secret; then a missing secret is a 500; a caller exactly for a token that verifies; every refusal is a 401, 403 or 500 |
| Authentication.Request.constructor | src/types/express.d.ts:5-7 | a request starts with the given header and parameters and no caller |
| Authentication.AuthenticateToken | src/middlewares/auth.middleware.ts:6-27 | a refused request is answered and its caller left alone; an accepted one gets the verified claims as its caller and is passed on |
| QueryValidator.Errors | src/middlewares/validateQuery.middleware.ts:85-98 | one report entry for every failing rule, and no other entry |
| QueryValidator.ChainIsComplete | src/middlewares/validateQuery.middleware.ts:4-84 | the chain has a rule for every parameter |
| QueryValidator.ValidateProductQuery | src/middlewares/validateQuery.middleware.ts:85-102 | passes exactly when every present parameter satisfies its rule; otherwise a 400 with the message and an entry for each failing rule |
| QueryValidator.TextParametersNeverReported | src/middlewares/validateQuery.middleware.ts:62-83 | category, brand and startAfter never appear in the report |
| QueryValidator.RefusedParameters | src/middlewares/validateQuery.middleware.ts:5-60 | a limit of 0 and a search of only white space are refused |
| QueryValidator.ValidQueryPaging | src/middlewares/validateQuery.middleware.ts:5-15 | a limit and page that pass their rules are read as sent (or 10 and 1); the limit is in 1..100, the page at least 1 |
| QueryValidator.ValidQueryFilters | src/middlewares/validateQuery.middleware.ts:37-53 | price filters that pass their rules are not negative, and the rating filter lies in 0..5 |
| QueryValidator.ValidQuerySort | src/middlewares/validateQuery.middleware.ts:17-30 | the sort field is one of the seven |
| QueryValidator.ValidQueryOptions | src/middlewares/validateQuery.middleware.ts:4-102 | a query that passes the chain yields options with limit 1..100, page at least 1, a listed sort field and bounded price and rating filters |
| QueryValidator.ValidSearchIsFiltered | src/middlewares/validateQuery.middleware.ts:55-60 | a search that passes its rule becomes the listing's search filter |
| QueryValidator.ValidatePriceRange | src/middlewares/validateQuery.middleware.ts:105-122 | passes exactly unless both bounds are present and the lower exceeds the upper |
| QueryValidator.PriceFiltersOrdered | src/middlewares/validateQuery.middleware.ts:105-122 | after the cross-check the price filters are ordered; a missing bound or equal bounds pass |
| Routes.RunGuards | src/routes/user.routes.ts:11-22 | the middlewares run in order, the first answer ends the chain; every answer is a 400, 401, 403 or 500; with the token check a request reaches its handler only with a caller |
| Routes.NoTokenRefused | src/routes/user.routes.ts:11-22 | every user route and every product write answers a request without a token with 401 "Token requerido" |
| Routes.AdminRoutes | src/routes/user.routes.ts:13-22 | listing, by-role lookup, deletion and status toggling reach their handlers exactly for a verified admin |
| Routes.OwnerRoutes | src/routes/user.routes.ts:15-16 | reading and updating a user reach their handlers exactly for a verified caller who is that user or an admin |
| Routes.ProductWritesNeedOnlyAToken | src/routes/product.routes.ts:19-21 | creating, deleting and bulk-creating products reach their handlers for any verified caller, whatever the role |
| Routes.ProductReads | src/routes/product.routes.ts:11-18 | the listing reaches its handler exactly for a query that passes the chain and the price cross-check; reading one product runs no check |

## Left out

- The database client, hashing, token signing and verification, and `toLowerCase` are parameters, not models. The database client is Firestore; hashing is bcrypt and tokens are JWT.
  - A query's answer is a function of its constraints, and the fresh ids it assigns are inputs.
  - Password comparison, the hash, the signature and the verifier are opaque functions.
  - Token expiry is part of verification, so an expired token is one that does not verify (403).
- Time stamps (`new Date().toISOString()`) are inputs.
- Numbers are read through `Param.number`: the value of a numeral, or nothing for any other text.
  - `parseFloat` of text with a numeric prefix ("3abc") and `NaN` are not modelled separately.
  - The exact numeral grammar of `isFloat` is not modelled.
  - `parseInt`'s hexadecimal prefix is not modelled.
- Floating point: prices and ratings are `real`s, so rounding is not modelled.
- String lengths count characters, not UTF-16 code units.
- White space is JavaScript's set, but no Unicode case folding is modelled.
- The validator's sanitisers (`toInt`, `toFloat`, `toBoolean`, `trim`) are modelled only inside their chains, where the search length is tested on the trimmed text. Their write-back to `req.query` is not modelled: the controller reads the query as received. Whether their writes reach `req.query` depends on the Express version, which is not part of this model. Where they do (Express 4), the listing differs from the model in four ways:
  - `?isActive=true` arrives as the boolean `true`, so `isActive === "true"` is false and the listing filters on inactive products;
  - `?minPrice=0` (and likewise `maxPrice=0`, `minRating=0`) arrives as the number `0`, which is falsy, so no such filter is set;
  - the search term (and likewise `category` and `brand`) reaches the filter trimmed, whereas `QueryValidator.ValidSearchIsFiltered` gives the raw text;
  - in `validatePriceRange`, a `maxPrice=0` arrives as the falsy number `0`, so a zero upper bound switches the cross-check off: `?minPrice=5&maxPrice=0` reaches the listing with no maxPrice filter, where `QueryValidator.ValidatePriceRange` and `Routes.ProductReads` answer 400.
- Query-string parameters given as arrays or objects are not modelled. Every parameter is text, so the `isString` rules never fail.
- The default values of `getAllWithPagination`'s destructuring are not modelled. The handler always passes every option.
- How the client library represents a constraint is not modelled. The `.js` guard's throw is modelled as a failure on every `where` constraint, with the message Node gives.
- Request bodies are taken as well-typed. The coercions of product creation (`+price`, `Boolean(isActive)`) are not modelled, so a form-encoded `isActive=false`, which they store as `true`, is not covered. Body fields beyond the declared ones and `id` and `createdAt` are not modelled either.
- Document ids are ordered character by character. The store's own ordering of numeric ids (`__id7__`) is not modelled.
- `getAll` of the product model, the product and user services (which only forward), the documentation, the application bootstrap and the auth routes are not part of this model.
- `verifyToken` and `generateToken` of the auth service are not modelled. Signing is a parameter.
- Concurrency: every operation is atomic. Two registrations racing past the uniqueness checks are not modelled.
- Errors that are not `Error` instances are not modelled. Neither are database failures other than the ones described above (not found, the limit error).
- ProductStore.ProductTable.CreateManyProducts: the batch commits every item or none. The model only describes a commit that succeeds.
- UserStore.UserTable.GetUserById: the model states what it returns without naming which user holds the id. Document ids are distinct, so there is at most one.
