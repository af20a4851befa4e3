/** The HTTP access-control middleware: bearer-token authentication and the three
    authorization checks. Each middleware either passes the request on, possibly
    with the authenticated user attached, or fails it with a status and message. */
module HttpAuth {
  import opened Wrappers
  import opened Identity
  import opened JsString
  import J = Json

  /** What the middleware reads of a request: the `Authorization` header, the path
      parameters, the parsed body and the user attached by authentication. */
  datatype Request = Request(
    authorization: Option<string>,
    params: map<string, string>,
    body: J.Object,
    user: Option<Claims>)

  /** `req.params[k]`. */
  function Param(req: Request, k: string): (r: Option<string>)
    ensures r.Some? <==> k in req.params
  {
    if k in req.params then Some(req.params[k]) else None
  }

  datatype HttpError = HttpError(status: nat, message: string)

  /** `next()` with the request as it now stands, or `next(error)`. */
  datatype Outcome = Next(req: Request) | Fail(error: HttpError)

  const TokenRequired: HttpError := HttpError(401, "Access token required")
  const TokenInvalid: HttpError := HttpError(403, "Invalid or expired token")
  const AuthenticationRequired: HttpError := HttpError(401, "Authentication required")
  const InsufficientPermissions: HttpError := HttpError(403, "Insufficient permissions")
  const CohortDenied: HttpError := HttpError(403, "Access denied to this cohort")

  /** The token: the second space-separated field of a truthy header, when it is
      non-empty. The first field is not looked at. */
  function BearerToken(header: Option<string>): (r: Option<string>)
    ensures r.Some? ==> r.value != "" && ' ' !in r.value
    ensures !Truthy(header) ==> r.None?
  {
    if !Truthy(header) then None
    else
      var parts := Split(header.value, ' ');
      if |parts| >= 2 && parts[1] != "" then Some(parts[1]) else None
  }

  /** A header `<scheme> <token>` yields the token whatever the scheme is. */
  lemma BearerTokenOfHeader(scheme: string, token: string)
    requires ' ' !in scheme && ' ' !in token && token != ""
    ensures BearerToken(Some(scheme + " " + token)) == Some(token)
  {
    SplitAfterWord(scheme, ' ', token);
    SplitWithoutSeparator(token, ' ');
    assert scheme + " " + token == scheme + [' '] + token;
  }

  /** A header with no space in it carries no token. */
  lemma NoSpaceNoToken(header: string)
    requires ' ' !in header
    ensures BearerToken(Some(header)).None?
  {
    SplitWithoutSeparator(header, ' ');
  }

  /** `authenticateToken`. */
  function AuthenticateToken(verify: Verifier, req: Request): (r: Outcome)
    ensures BearerToken(req.authorization).None? ==> r == Fail(TokenRequired)
    ensures BearerToken(req.authorization).Some? && verify(BearerToken(req.authorization).value).None? ==> r == Fail(TokenInvalid)
    ensures BearerToken(req.authorization).Some? && verify(BearerToken(req.authorization).value).Some? ==>
      r == Next(req.(user := verify(BearerToken(req.authorization).value)))
  {
    match BearerToken(req.authorization)
    case None => Fail(TokenRequired)
    case Some(t) =>
      match verify(t)
      case None => Fail(TokenInvalid)
      case Some(c) => Next(req.(user := Some(Claims(c.userId, c.email, c.role, c.cohortId))))
  }

  /** Without a token the verifier is never consulted: any two verifiers agree. */
  lemma MissingTokenSkipsVerifier(v1: Verifier, v2: Verifier, req: Request)
    requires BearerToken(req.authorization).None?
    ensures AuthenticateToken(v1, req) == AuthenticateToken(v2, req) == Fail(TokenRequired)
  {
  }

  /** `authorizeRoles(...roles)`. */
  function AuthorizeRoles(roles: seq<Role>, req: Request): (r: Outcome)
    ensures req.user.None? ==> r == Fail(AuthenticationRequired)
    ensures req.user.Some? ==> (r == if req.user.value.role in roles then Next(req) else Fail(InsufficientPermissions))
  {
    if req.user.None? then Fail(AuthenticationRequired)
    else if req.user.value.role !in roles then Fail(InsufficientPermissions)
    else Next(req)
  }

  /** Widening the role list never turns a pass into a denial. */
  lemma AuthorizeRolesMonotone(roles: seq<Role>, more: seq<Role>, req: Request)
    requires forall r :: r in roles ==> r in more
    requires AuthorizeRoles(roles, req).Next?
    ensures AuthorizeRoles(more, req) == AuthorizeRoles(roles, req)
  {
  }

  /** `req.params[key] || req.body[key]`: the path parameter when truthy, else
      whatever the body holds under that key. It names the resource owner for
      `authorizeOwnerOrRole` and the addressed cohort for `authorizeCohortAccess`. */
  function ParamOrBody(req: Request, key: string): (r: Option<J.Value>)
    ensures Truthy(Param(req, key)) ==> r == Some(J.Str(req.params[key]))
    ensures !Truthy(Param(req, key)) ==> r == J.Field(req.body, key)
  {
    if Truthy(Param(req, key)) then Some(J.Str(req.params[key])) else J.Field(req.body, key)
  }

  /** `authorizeOwnerOrRole(...roles)`. */
  function AuthorizeOwnerOrRole(roles: seq<Role>, req: Request): (r: Outcome)
    ensures req.user.None? ==> r == Fail(AuthenticationRequired)
    ensures req.user.Some? ==> (r.Next? <==> ParamOrBody(req, "userId") == Some(J.Str(req.user.value.userId)) || req.user.value.role in roles)
    ensures r.Next? ==> r.req == req
    ensures req.user.Some? && r.Fail? ==> r.error == InsufficientPermissions
  {
    if req.user.None? then Fail(AuthenticationRequired)
    else
      var isOwner := ParamOrBody(req, "userId") == Some(J.Str(req.user.value.userId));
      var hasRole := req.user.value.role in roles;
      if !isOwner && !hasRole then Fail(InsufficientPermissions) else Next(req)
  }

  /** `authorizeCohortAccess`. */
  function AuthorizeCohortAccess(req: Request): (r: Outcome)
    ensures req.user.None? ==> r == Fail(AuthenticationRequired)
    ensures req.user.Some? ==> (r.Next? <==> req.user.value.role != Student || J.AsStr(req.user.value.cohortId) == ParamOrBody(req, "cohortId"))
    ensures r.Next? ==> r.req == req
    ensures req.user.Some? && r.Fail? ==> r.error == CohortDenied
  {
    if req.user.None? then Fail(AuthenticationRequired)
    else if req.user.value.role == Admin || req.user.value.role == Mentor then Next(req)
    else if req.user.value.role == Student && J.AsStr(req.user.value.cohortId) != ParamOrBody(req, "cohortId") then Fail(CohortDenied)
    else Next(req)
  }

  /** Admins and mentors reach every cohort, and so does a role outside the enumeration. */
  lemma CohortAccessForNonStudents(req: Request)
    requires req.user.Some? && req.user.value.role != Student
    ensures AuthorizeCohortAccess(req) == Next(req)
  {
  }

  /** A student with no cohort passes when the request names no cohort either, since
      both sides are `undefined`. */
  lemma CohortlessStudentOnCohortlessRequest(req: Request)
    requires req.user.Some? && req.user.value.role == Student && req.user.value.cohortId.None?
    requires "cohortId" !in req.params && "cohortId" !in req.body
    ensures AuthorizeCohortAccess(req) == Next(req)
  {
  }
}
