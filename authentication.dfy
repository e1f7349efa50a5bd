/** `authenticateToken` of src/middlewares/auth.middleware.ts: the bearer token is the second
    space-separated piece of the `Authorization` header; a verified token's claims become the
    request's caller. Token verification (JWT) is an opaque function passed in: it yields the
    claims of a token that is valid under the secret, and nothing for any other. */
module Authentication {
  import opened Wrappers
  import opened Types
  import opened Strings
  import opened Authorization

  const TOKEN_REQUIRED: string := "Token requerido"
  const SECRET_MISSING: string := "JWT_SECRET is not defined in the environment variables"
  const TOKEN_INVALID: string := "Token inválido"

  /** `authHeader && authHeader.split(" ")[1]`, kept only when truthy. */
  function TokenOf(header: Option<string>): (r: Option<string>)
    ensures r.Some? ==> r.value != "" && ' ' !in r.value
    ensures !Truthy(header) ==> r.None?
    ensures Truthy(header) && ' ' !in header.value ==> r.None?
  {
    if !Truthy(header) then None
    else
      var parts := Split(header.value, ' ');
      if |parts| >= 2 && parts[1] != "" then Some(parts[1]) else None
  }

  /** Splitting "<word> <rest>" at its first space, `word` free of spaces. */
  lemma SplitAtFirstSpace(word: string, rest: string)
    requires ' ' !in word
    ensures Split(word + " " + rest, ' ') == [word] + Split(rest, ' ')
  {
    var h := word + " " + rest;
    assert h[..|word|] == word && h[|word|] == ' ';
    var i := IndexOf(h, ' ');
    assert i.Some? && i.value <= |word|;
    assert i.value == |word|;
    assert h[|word| + 1..] == rest;
  }

  /** The header the clients send, "Bearer <token>", yields the token; so does any scheme
      word. */
  lemma TokenOfBearer(scheme: string, token: string)
    requires ' ' !in scheme && ' ' !in token && token != ""
    ensures TokenOf(Some(scheme + " " + token)) == Some(token)
  {
    SplitAtFirstSpace(scheme, token);
    assert Split(token, ' ') == [token];
  }

  /** Anything after a second space is ignored. */
  lemma TokenOfIgnoresRest(scheme: string, token: string, rest: string)
    requires ' ' !in scheme && ' ' !in token && token != ""
    ensures TokenOf(Some(scheme + " " + token + " " + rest)) == Some(token)
  {
    assert scheme + " " + token + " " + rest == scheme + " " + (token + " " + rest);
    SplitAtFirstSpace(scheme, token + " " + rest);
    SplitAtFirstSpace(token, rest);
  }

  /** The decision of `authenticateToken`: no token is a 401, whatever else holds; then a
      missing secret a 500; then a token that does not verify a 403; otherwise the claims. */
  function Authenticate(header: Option<string>, secret: Option<string>,
                        verify: (string, string) -> Option<Caller>): (r: Result<Caller>)
  {
    var token := TokenOf(header);
    if token.None? then Failure(TOKEN_REQUIRED)
    else if !Truthy(secret) then Failure(SECRET_MISSING)
    else
      match verify(token.value, secret.value)
      case None => Failure(TOKEN_INVALID)
      case Some(claims) => Success(claims)
  }

  /** The status of a refusal. */
  function RefusalStatus(message: string): int {
    if message == TOKEN_REQUIRED then 401 else if message == SECRET_MISSING then 500 else 403
  }

  /** The order of the outcomes: a missing token is reported before a missing secret, which is
      reported before a bad token; a caller is attached exactly for a token that verifies. */
  lemma AuthenticateSpec(header: Option<string>, secret: Option<string>, verify: (string, string) -> Option<Caller>)
    ensures var r := Authenticate(header, secret, verify);
            && (TokenOf(header).None? ==> r == Failure(TOKEN_REQUIRED))
            && (TokenOf(header).Some? && !Truthy(secret) ==> r == Failure(SECRET_MISSING))
            && (r.Success? <==> TokenOf(header).Some? && Truthy(secret)
                                && verify(TokenOf(header).value, secret.value).Some?)
            && (r.Success? ==> Some(r.value) == verify(TokenOf(header).value, secret.value))
            && (r.Failure? ==> RefusalStatus(r.message) in {401, 403, 500})
  {
  }

  /** A request as the middlewares see it. */
  class Request {
    var authorization: Option<string>
    var params: RouteParams
    /** `req.user`: the caller, once a token has been verified. */
    var user: Option<Caller>

    constructor (authorization: Option<string>, params: RouteParams)
      ensures this.authorization == authorization && this.params == params && user.None?
    {
      this.authorization := authorization;
      this.params := params;
      user := None;
    }
  }

  /** `authenticateToken` on a request: answers it, or attaches the caller and passes it on. */
  method AuthenticateToken(req: Request, secret: Option<string>, verify: (string, string) -> Option<Caller>)
    returns (outcome: Outcome)
    modifies req
    ensures var d := Authenticate(old(req.authorization), secret, verify);
            && (d.Failure? ==> outcome == Respond(RefusalStatus(d.message), d.message, "", None)
                               && req.user == old(req.user))
            && (d.Success? ==> outcome == Next && req.user == Some(d.value))
    ensures req.authorization == old(req.authorization) && req.params == old(req.params)
  {
    var token := TokenOf(req.authorization);
    if token.None? {
      return Respond(401, TOKEN_REQUIRED, "", None);
    }
    if !Truthy(secret) {
      return Respond(500, SECRET_MISSING, "", None);
    }
    var claims := verify(token.value, secret.value);
    if claims.None? {
      return Respond(403, TOKEN_INVALID, "", None);
    }
    req.user := claims;
    outcome := Next;
  }
}
