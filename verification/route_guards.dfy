/** Which middleware runs before which route handler. Routes are abstract ids; each
    router mounts `authenticateToken` for every route, and some routes add a further
    check. A request reaches the handler only when every guard passes in order. */
module RouteGuards {
  import opened Wrappers
  import opened Identity
  import opened HttpAuth
  import J = Json

  datatype Guard = Authenticate | Roles(roles: seq<Role>) | OwnerOrRole(owners: seq<Role>) | CohortAccess

  function RunGuard(verify: Verifier, g: Guard, req: Request): Outcome {
    match g
    case Authenticate => AuthenticateToken(verify, req)
    case Roles(rs) => AuthorizeRoles(rs, req)
    case OwnerOrRole(rs) => AuthorizeOwnerOrRole(rs, req)
    case CohortAccess => AuthorizeCohortAccess(req)
  }

  /** Run the guards in order; the first failure stops the chain. */
  function RunGuards(verify: Verifier, gs: seq<Guard>, req: Request): (r: Outcome)
    ensures |gs| == 0 ==> r == Next(req)
    decreases |gs|
  {
    if |gs| == 0 then Next(req)
    else match RunGuard(verify, gs[0], req)
      case Fail(e) => Fail(e)
      case Next(req') => RunGuards(verify, gs[1..], req')
  }

  /** Running two lists is running their concatenation: router-level guards followed
      by route-level ones behave as one list. */
  lemma {:induction false} RunGuardsAppend(verify: Verifier, a: seq<Guard>, b: seq<Guard>, req: Request)
    ensures RunGuards(verify, a + b, req) ==
      match RunGuards(verify, a, req)
      case Fail(e) => Fail(e)
      case Next(req') => RunGuards(verify, b, req')
    decreases |a|
  {
    if |a| > 0 {
      assert (a + b)[0] == a[0];
      assert (a + b)[1..] == a[1..] + b;
      var first := RunGuard(verify, a[0], req);
      if first.Next? {
        RunGuardsAppend(verify, a[1..], b, first.req);
        assert RunGuards(verify, a + b, req) == RunGuards(verify, a[1..] + b, first.req);
        assert RunGuards(verify, a, req) == RunGuards(verify, a[1..], first.req);
      } else {
        assert RunGuards(verify, a + b, req) == first;
      }
    } else {
      assert a + b == b;
    }
  }

  const StaffRoles: seq<Role> := [Admin, Mentor]

  datatype AdminRoute =
    | Dashboard | ListUsers | SetUserRole | SetUserStatus | ListCohorts | ListCourses
    | Analytics | Logs | Backup | GetSettings | PutSettings | Broadcast

  datatype CohortRoute =
    | ListAll | CreateCohort | GetCohort | UpdateCohort | DeleteCohort
    | AddStudent | RemoveStudent | CohortProgress

  datatype CourseRoute =
    | ListCourseCatalog | CreateCourse | GetCourse | UpdateCourse | DeleteCourse
    | ListLessons | CreateLesson | GetLesson | UpdateLesson | CompleteLesson | CourseProgress

  datatype UserRoute =
    | GetProfile | PutProfile | GetUser | PutUser | DeleteUser | CohortMembers | ChangePassword

  datatype ChatRoute =
    | ListRooms | CreateRoom | GetRoom | ListMessages | PostMessage | EditMessage
    | DeleteMessage | JoinRoom | LeaveRoom | Participants | Upload

  datatype Route =
    | AdminApi(a: AdminRoute)
    | CohortApi(c: CohortRoute)
    | CourseApi(k: CourseRoute)
    | UserApi(u: UserRoute)
    | ChatApi(h: ChatRoute)

  /** The guards mounted on the whole router. */
  function RouterGuards(r: Route): seq<Guard> {
    match r
    case AdminApi(_) => [Authenticate, Roles([Admin])]
    case _ => [Authenticate]
  }

  /** The guards listed on the route itself. */
  function RouteOwnGuards(r: Route): seq<Guard> {
    match r
    case AdminApi(_) => []
    case CohortApi(c) =>
      (match c
       case CreateCohort => [Roles([Admin])]
       case DeleteCohort => [Roles([Admin])]
       case UpdateCohort => [Roles(StaffRoles)]
       case AddStudent => [Roles(StaffRoles)]
       case RemoveStudent => [Roles(StaffRoles)]
       case CohortProgress => [Roles(StaffRoles)]
       case GetCohort => [CohortAccess]
       case ListAll => [])
    case CourseApi(k) =>
      (match k
       case CreateCourse => [Roles(StaffRoles)]
       case UpdateCourse => [Roles(StaffRoles)]
       case CreateLesson => [Roles(StaffRoles)]
       case UpdateLesson => [Roles(StaffRoles)]
       case DeleteCourse => [Roles([Admin])]
       case _ => [])
    case UserApi(u) =>
      (match u
       case GetUser => [Roles(StaffRoles)]
       case PutUser => [OwnerOrRole([Admin])]
       case DeleteUser => [Roles([Admin])]
       case _ => [])
    case ChatApi(h) =>
      (match h
       case CreateRoom => [Roles(StaffRoles)]
       case _ => [])
  }

  function Guards(r: Route): seq<Guard> {
    RouterGuards(r) + RouteOwnGuards(r)
  }

  /** Who may use each route once authenticated, read off the routers' comments and
      stated without reference to the guard lists. */
  predicate Permitted(r: Route, c: Claims, req: Request) {
    var staff := c.role == Admin || c.role == Mentor;
    match r
    case AdminApi(_) => c.role == Admin
    case CohortApi(ListAll) => true
    case CohortApi(CreateCohort) => c.role == Admin
    case CohortApi(DeleteCohort) => c.role == Admin
    case CohortApi(GetCohort) => c.role != Student || J.AsStr(c.cohortId) == ParamOrBody(req, "cohortId")
    case CohortApi(_) => staff
    case CourseApi(CreateCourse) => staff
    case CourseApi(UpdateCourse) => staff
    case CourseApi(CreateLesson) => staff
    case CourseApi(UpdateLesson) => staff
    case CourseApi(DeleteCourse) => c.role == Admin
    case CourseApi(_) => true
    case UserApi(GetUser) => staff
    case UserApi(PutUser) => ParamOrBody(req, "userId") == Some(J.Str(c.userId)) || c.role == Admin
    case UserApi(DeleteUser) => c.role == Admin
    case UserApi(_) => true
    case ChatApi(CreateRoom) => staff
    case ChatApi(_) => true
  }

  /** The claims a request authenticates as, if any. */
  function Authenticated(verify: Verifier, req: Request): (r: Option<Claims>)
    ensures r.Some? <==> BearerToken(req.authorization).Some? && verify(BearerToken(req.authorization).value).Some?
  {
    match BearerToken(req.authorization)
    case None => None
    case Some(t) => verify(t)
  }

  /** A request reaches a route's handler exactly when it carries a valid token and
      the permission table allows its claims; a request that is stopped gets 401
      without a token, 403 with an invalid one, and otherwise the route's refusal. */
  lemma {:induction false} GuardsDecideAccess(verify: Verifier, r: Route, req: Request)
    ensures var out := RunGuards(verify, Guards(r), req);
      (out.Next? <==> Authenticated(verify, req).Some? && Permitted(r, Authenticated(verify, req).value, req)) &&
      (out.Next? ==> out.req == req.(user := Authenticated(verify, req))) &&
      (BearerToken(req.authorization).None? ==> out == Fail(TokenRequired)) &&
      (Authenticated(verify, req).None? && BearerToken(req.authorization).Some? ==> out == Fail(TokenInvalid))
  {
    RunGuardsAppend(verify, RouterGuards(r), RouteOwnGuards(r), req);
    var first := AuthenticateToken(verify, req);
    if first.Next? {
      var req1 := first.req;
      assert req1.user == Authenticated(verify, req);
      assert RunGuards(verify, [Authenticate], req) == RunGuards(verify, [], req1);
      if r.AdminApi? {
        assert RunGuards(verify, RouterGuards(r), req) == RunGuards(verify, [Roles([Admin])], req1);
      }
    }
  }

  /** No admin handler is reached by a request that is not an admin's. */
  lemma AdminOnly(verify: Verifier, a: AdminRoute, req: Request)
    requires RunGuards(verify, Guards(AdminApi(a)), req).Next?
    ensures Authenticated(verify, req).Some? && Authenticated(verify, req).value.role == Admin
  {
    GuardsDecideAccess(verify, AdminApi(a), req);
  }

  /** A student reads only its own cohort through `GET /api/cohorts/:cohortId`. */
  lemma StudentReadsOwnCohort(verify: Verifier, req: Request, cohortId: string)
    requires "cohortId" in req.params && req.params["cohortId"] == cohortId && cohortId != ""
    requires Authenticated(verify, req).Some? && Authenticated(verify, req).value.role == Student
    ensures RunGuards(verify, Guards(CohortApi(GetCohort)), req).Next? <==> Authenticated(verify, req).value.cohortId == Some(cohortId)
  {
    GuardsDecideAccess(verify, CohortApi(GetCohort), req);
  }

  /** Every route of every router requires a valid token. */
  lemma EveryRouteAuthenticates(verify: Verifier, r: Route, req: Request)
    requires RunGuards(verify, Guards(r), req).Next?
    ensures Authenticated(verify, req).Some?
  {
    GuardsDecideAccess(verify, r, req);
  }

  /** The chat router never applies the cohort check it imports, and the cohort member
      listing of the users router checks nothing beyond the token. */
  lemma NoCohortCheckOnChatOrMemberList(h: ChatRoute)
    ensures CohortAccess !in Guards(ChatApi(h))
    ensures Guards(UserApi(CohortMembers)) == [Authenticate]
  {
  }
}
