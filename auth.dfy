/** The authentication middleware (where the JSON web token comes from and what
    happens when it does not check out) and the role gate. Verifying a token is
    the jsonwebtoken library's business and is a parameter here. */
module Auth {
  import opened Common
  import opened Text

  /** Where `authMiddleware` takes its token from. `FromHeader(None)` is a header
      with no second space-separated segment, whose token is `undefined`. */
  datatype TokenChoice = FromHeader(token: Option<string>) | FromCookie(cookie: string) | NoToken

  /** The second space-separated segment, if there is one. */
  function SecondSegment(header: string): Option<string>
  {
    var parts := Split(header, ' ');
    if |parts| > 1 then Some(parts[1]) else None
  }

  /** An Authorization header starting with "Bearer" wins over the `jwt` cookie;
      empty values count as absent. */
  function SelectToken(authorization: Option<string>, jwtCookie: Option<string>): TokenChoice
  {
    if authorization.Some? && authorization.value != "" && StartsWith(authorization.value, "Bearer") then
      FromHeader(SecondSegment(authorization.value))
    else if jwtCookie.Some? && jwtCookie.value != "" then
      FromCookie(jwtCookie.value)
    else
      NoToken
  }

  /** For a header "Bearer <t>" with t free of spaces, the token is t, whatever
      the cookie holds. */
  lemma BearerTokenIsSecondSegment(t: string, jwtCookie: Option<string>)
    requires forall i :: 0 <= i < |t| ==> t[i] != ' '
    ensures SelectToken(Some("Bearer " + t), jwtCookie) == FromHeader(Some(t))
  {
    var h := "Bearer " + t;
    assert h == "Bearer" + [' '] + t;
    assert h[..6] == "Bearer";
    SplitAtFirst("Bearer", ' ', t);
    SplitWithoutSeparator(t, ' ');
  }

  /** A header without a space, such as "Bearer" alone, yields no token. */
  lemma BareBearerHasNoToken(jwtCookie: Option<string>)
    ensures SelectToken(Some("Bearer"), jwtCookie) == FromHeader(None)
  {
    SplitWithoutSeparator("Bearer", ' ');
  }

  /** Without a Bearer header the cookie is used; with neither there is no token. */
  lemma CookieFallback(authorization: Option<string>, jwtCookie: Option<string>)
    requires authorization.None? || !StartsWith(authorization.value, "Bearer")
    ensures jwtCookie.Some? && jwtCookie.value != "" ==> SelectToken(authorization, jwtCookie) == FromCookie(jwtCookie.value)
    ensures jwtCookie.None? ==> SelectToken(authorization, jwtCookie) == NoToken
  {
  }

  /** The middleware's verdict: call `next` with `req.user` set, or answer. */
  datatype AuthOutcome<U> = Next(user: U) | Deny(status: int, message: string)

  /** `authMiddleware`. `verify` is jwt.verify with the server secret (None when it
      throws) and `findUser` is User.findById. A missing token makes jwt.verify
      throw, which lands in the same 401 as a bad token. */
  function Authenticate<U>(authorization: Option<string>, jwtCookie: Option<string>,
                           verify: string -> Option<Id>, findUser: Id -> Option<U>): (r: AuthOutcome<U>)
    ensures r.Deny? ==> r.status == 401
    ensures SelectToken(authorization, jwtCookie) == NoToken ==>
      r == Deny(401, "No token provided, authorization denied")
  {
    var token := match SelectToken(authorization, jwtCookie)
      case FromHeader(t) => t
      case FromCookie(c) => Some(c)
      case NoToken => None;
    if SelectToken(authorization, jwtCookie) == NoToken then
      Deny(401, "No token provided, authorization denied")
    else if token.None? || verify(token.value).None? then
      Deny(401, "Not authorized, authentication failed")
    else
      match findUser(verify(token.value).value)
      case None => Deny(401, "User not found or token invalid")
      case Some(u) => Next(u)
  }

  /** `next` is called exactly when a token was found, it verifies, and its user
      exists; that user is the one passed on. */
  lemma AuthenticateSucceeds<U>(authorization: Option<string>, jwtCookie: Option<string>,
                                verify: string -> Option<Id>, findUser: Id -> Option<U>)
    ensures var choice := SelectToken(authorization, jwtCookie);
      var token := if choice.FromHeader? then choice.token else if choice.FromCookie? then Some(choice.cookie) else None;
      (Authenticate(authorization, jwtCookie, verify, findUser).Next? <==>
         token.Some? && verify(token.value).Some? && findUser(verify(token.value).value).Some?)
      && (Authenticate(authorization, jwtCookie, verify, findUser).Next? ==>
         Authenticate(authorization, jwtCookie, verify, findUser).user == findUser(verify(token.value).value).value)
  {
  }

  datatype Gate = Pass | Forbidden(status: int, message: string)

  function RoleRefusal(role: string): string
  {
    "Role (" + role + ") is not authorized to access this route"
  }

  /** `authorizeRoles(...roles)`: the user's role must be non-empty and listed. */
  function AuthorizeRoles(roles: seq<string>, userRole: Option<string>): (g: Gate)
    ensures g.Forbidden? ==> g.status == 403
  {
    if userRole.None? || userRole.value == "" || userRole.value !in roles then
      Forbidden(403, RoleRefusal(if userRole.Some? && userRole.value != "" then userRole.value else "none"))
    else Pass
  }

  /** The gate passes iff the role is one of the allowed ones; a refusal names the
      role, or 'none' when the user has none. */
  lemma AuthorizeRolesDecides(roles: seq<string>, userRole: Option<string>)
    ensures AuthorizeRoles(roles, userRole) == Pass <==> userRole.Some? && userRole.value != "" && userRole.value in roles
    ensures userRole.None? ==>
      AuthorizeRoles(roles, userRole) == Forbidden(403, RoleRefusal("none"))
    ensures userRole == Some("user") && roles == ["admin"] ==>
      AuthorizeRoles(roles, userRole) == Forbidden(403, RoleRefusal("user"))
  {
  }
}
