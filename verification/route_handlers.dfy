/** The decisions the stub route handlers make: query-string defaults and how each
    response record merges fixed fields, path parameters and the request body. The
    canned sample data and the clock-derived fields are not part of this model. */
module RouteHandlers {
  import opened Wrappers
  import opened JsString
  import J = Json

  type Query = map<string, string>

  /** `req.query[k]`, absent when the parameter was not given. */
  function QueryParam(q: Query, k: string): Option<string> {
    if k in q then Some(q[k]) else None
  }

  /** `parseInt(q[k]) || d`: the parsed number unless it is `NaN` or zero. */
  function IntParam(q: Query, k: string, d: int): (r: int)
    ensures var p := ParseInt(QueryParam(q, k));
      r == if p.Some? && p.value != 0 then p.value else d
    ensures d != 0 ==> r != 0
  {
    var p := ParseInt(QueryParam(q, k));
    if p.Some? && p.value != 0 then p.value else d
  }

  /** A missing parameter, or one that does not start with a number, gives the default;
      a positive decimal numeral gives its value. */
  lemma IntParamCases(q: Query, k: string, d: int, n: nat)
    ensures k !in q ==> IntParam(q, k, d) == d
    ensures k in q && q[k] == NatToString(n) && n != 0 ==> IntParam(q, k, d) == n
    ensures k in q && q[k] == NatToString(0) ==> IntParam(q, k, d) == d
  {
    ParseIntOfNatToString(n);
    ParseIntOfNatToString(0);
  }

  datatype Pagination = Pagination(page: int, limit: int)

  /** `GET /api/admin/users`: page defaults to 1 and limit to 20. */
  function AdminUsersPagination(q: Query): (r: Pagination)
    ensures r.page == IntParam(q, "page", 1) && r.limit == IntParam(q, "limit", 20)
    ensures r.page != 0 && r.limit != 0
  {
    Pagination(IntParam(q, "page", 1), IntParam(q, "limit", 20))
  }

  /** The `filters` echo of `GET /api/admin/users`: the raw `role` and `search`
      parameters, absent when not given. */
  function AdminUsersFilters(q: Query): (r: J.Object)
    ensures J.StrField(r, "role") == QueryParam(q, "role") && J.StrField(r, "search") == QueryParam(q, "search")
    ensures forall k :: k in r ==> k == "role" || k == "search"
  {
    J.With(J.With(map[], "role", J.AsStr(QueryParam(q, "role"))), "search", J.AsStr(QueryParam(q, "search")))
  }

  /** `GET /api/admin/logs`: level defaults to `all` when absent or empty; page to 1. */
  function LogsQuery(q: Query): (r: (string, int))
    ensures r.0 == if Truthy(QueryParam(q, "level")) then q["level"] else "all"
    ensures r.0 != ""
    ensures r.1 == IntParam(q, "page", 1)
  {
    (OrDefault(QueryParam(q, "level"), "all"), IntParam(q, "page", 1))
  }

  /** `GET /api/chat/rooms/:roomId/messages`: page defaults to 1 and limit to 50. */
  function ChatMessagesPagination(q: Query): (r: Pagination)
    ensures r.page == IntParam(q, "page", 1) && r.limit == IntParam(q, "limit", 50)
    ensures r.page != 0 && r.limit != 0
  {
    Pagination(IntParam(q, "page", 1), IntParam(q, "limit", 50))
  }

  /** An object literal `{...before, ...body, ...after}`: `after` beats the body, which
      beats `before`. */
  function Literal(before: J.Object, body: J.Object, after: J.Object): (r: J.Object)
    ensures forall k :: (J.Field(r, k) ==
      if k in after then J.Field(after, k) else if k in body then J.Field(body, k) else J.Field(before, k))
  {
    J.Spread(J.Spread(before, body), after)
  }

  /** The body's value for `k`, or `d` when the body does not have the key. */
  function BodyOr(body: J.Object, k: string, d: J.Value): J.Value {
    if k in body then body[k] else d
  }

  /** `POST /api/cohorts`: the body may replace the id but never the student count or
      the status. */
  function CreatedCohort(body: J.Object): (r: J.Object)
    ensures J.Field(r, "id") == Some(BodyOr(body, "id", J.Str("new-cohort-id")))
    ensures J.Field(r, "currentStudents") == Some(J.Num(0))
    ensures J.Field(r, "status") == Some(J.Str("upcoming"))
    ensures forall k :: k != "id" && k != "currentStudents" && k != "status" ==> J.Field(r, k) == J.Field(body, k)
  {
    Literal(map["id" := J.Str("new-cohort-id")], body, map["currentStudents" := J.Num(0), "status" := J.Str("upcoming")])
  }

  /** `{id: <path id>, ...body}`, the update shape of cohorts, courses and lessons: a
      body id overrides the path id, and every other body field is kept. */
  function PathIdThenBody(pathId: string, body: J.Object): (r: J.Object)
    ensures J.Field(r, "id") == Some(BodyOr(body, "id", J.Str(pathId)))
    ensures forall k :: k != "id" ==> J.Field(r, k) == J.Field(body, k)
  {
    Literal(map["id" := J.Str(pathId)], body, map[])
  }

  /** `POST /api/courses`: the body may replace the id but not the status or creator. */
  function CreatedCourse(body: J.Object): (r: J.Object)
    ensures J.Field(r, "id") == Some(BodyOr(body, "id", J.Str("new-course-id")))
    ensures J.Field(r, "status") == Some(J.Str("draft"))
    ensures J.Field(r, "createdBy") == Some(J.Str("current-user-id"))
    ensures forall k :: k != "id" && k != "status" && k != "createdBy" ==> J.Field(r, k) == J.Field(body, k)
  {
    Literal(map["id" := J.Str("new-course-id")], body, map["status" := J.Str("draft"), "createdBy" := J.Str("current-user-id")])
  }

  /** `POST /api/courses/:courseId/lessons`: the course id comes from the path unless
      the body supplies one. */
  function CreatedLesson(courseId: string, body: J.Object): (r: J.Object)
    ensures J.Field(r, "id") == Some(BodyOr(body, "id", J.Str("new-lesson-id")))
    ensures J.Field(r, "courseId") == Some(BodyOr(body, "courseId", J.Str(courseId)))
    ensures forall k :: k != "id" && k != "courseId" ==> J.Field(r, k) == J.Field(body, k)
  {
    Literal(map["id" := J.Str("new-lesson-id"), "courseId" := J.Str(courseId)], body, map[])
  }

  /** `POST /api/courses/:courseId/lessons/:lessonId/complete`: always completed, and
      the time spent is the body's when truthy, else 0. */
  function LessonCompletion(lessonId: string, body: J.Object): (r: J.Object)
    ensures J.Field(r, "lessonId") == Some(J.Str(lessonId))
    ensures J.Field(r, "completed") == Some(J.Bool(true))
    ensures J.Field(r, "timeSpent") == Some(if J.Truthy(J.Field(body, "timeSpent")) then body["timeSpent"] else J.Num(0))
    ensures J.Truthy(J.Field(r, "timeSpent")) <==> J.Truthy(J.Field(body, "timeSpent"))
  {
    map["lessonId" := J.Str(lessonId), "completed" := J.Bool(true), "timeSpent" := J.OrElse(J.Field(body, "timeSpent"), J.Num(0))]
  }

  /** `PUT /api/users/profile`: the id is always the placeholder. */
  function UpdatedProfile(body: J.Object): (r: J.Object)
    ensures J.Field(r, "id") == Some(J.Str("placeholder-id"))
    ensures forall k :: k != "id" ==> J.Field(r, k) == J.Field(body, k)
  {
    Literal(map[], body, map["id" := J.Str("placeholder-id")])
  }

  /** `PUT /api/users/:userId`: the path id always wins over a body id. */
  function UpdatedUser(userId: string, body: J.Object): (r: J.Object)
    ensures J.Field(r, "id") == Some(J.Str(userId))
    ensures forall k :: k != "id" ==> J.Field(r, k) == J.Field(body, k)
  {
    Literal(map[], body, map["id" := J.Str(userId)])
  }

  /** `POST /api/chat/rooms`: the body may replace the id but not the participant count
      or the creator. */
  function CreatedRoom(body: J.Object): (r: J.Object)
    ensures J.Field(r, "id") == Some(BodyOr(body, "id", J.Str("new-room-id")))
    ensures J.Field(r, "participantCount") == Some(J.Num(1))
    ensures J.Field(r, "createdBy") == Some(J.Str("current-user-id"))
    ensures forall k :: k != "id" && k != "participantCount" && k != "createdBy" ==> J.Field(r, k) == J.Field(body, k)
  {
    Literal(map["id" := J.Str("new-room-id")], body, map["participantCount" := J.Num(1), "createdBy" := J.Str("current-user-id")])
  }

  /** `POST /api/chat/rooms/:roomId/messages`: the room comes from the path, the text
      from the body, and the type is the body's when truthy, else `text`. */
  function PostedMessage(roomId: string, body: J.Object): (r: J.Object)
    ensures J.Field(r, "chatRoomId") == Some(J.Str(roomId))
    ensures J.Field(r, "message") == J.Field(body, "message")
    ensures J.Field(r, "type") == Some(if J.Truthy(J.Field(body, "type")) then body["type"] else J.Str("text"))
    ensures J.Field(r, "id") == Some(J.Str("new-message-id")) && J.Field(r, "senderId") == Some(J.Str("current-user-id"))
  {
    var fixed := map["id" := J.Str("new-message-id"), "chatRoomId" := J.Str(roomId), "senderId" := J.Str("current-user-id"),
      "type" := J.OrElse(J.Field(body, "type"), J.Str("text"))];
    J.With(fixed, "message", J.Field(body, "message"))
  }

  /** `PUT /api/chat/messages/:messageId`: the path id, the new text, marked edited. */
  function EditedMessage(messageId: string, body: J.Object): (r: J.Object)
    ensures J.Field(r, "id") == Some(J.Str(messageId))
    ensures J.Field(r, "message") == J.Field(body, "message")
    ensures J.Field(r, "isEdited") == Some(J.Bool(true))
  {
    J.With(map["id" := J.Str(messageId), "isEdited" := J.Bool(true)], "message", J.Field(body, "message"))
  }

  /** `PUT /api/admin/users/:userId/role` (field `role`) and
      `PUT /api/admin/users/:userId/status` (field `isActive`): the path id and the
      body's value of the field, unchanged. */
  function IdWithBodyField(userId: string, body: J.Object, field: string): (r: J.Object)
    ensures field != "id" ==> J.Field(r, "id") == Some(J.Str(userId))
    ensures J.Field(r, field) == J.Field(body, field)
  {
    J.With(map["id" := J.Str(userId)], field, J.Field(body, field))
  }

  /** `POST /api/admin/notifications/broadcast`: the message from the body, recipients
      from the body when truthy, else `all`. */
  function BroadcastNotice(body: J.Object): (r: J.Object)
    ensures J.Field(r, "message") == J.Field(body, "message")
    ensures J.Field(r, "recipients") == Some(if J.Truthy(J.Field(body, "recipients")) then body["recipients"] else J.Str("all"))
    ensures J.Truthy(J.Field(r, "recipients"))
  {
    J.With(map["recipients" := J.OrElse(J.Field(body, "recipients"), J.Str("all"))], "message", J.Field(body, "message"))
  }

  /** Whatever the body says, a created cohort starts empty and upcoming, and a
      created course starts as a draft: fixed fields cannot be forged. */
  lemma FixedFieldsCannotBeForged(body: J.Object)
    requires "currentStudents" in body && "status" in body && "createdBy" in body && "participantCount" in body
    ensures CreatedCohort(body)["currentStudents"] == J.Num(0) && CreatedCohort(body)["status"] == J.Str("upcoming")
    ensures CreatedCourse(body)["status"] == J.Str("draft") && CreatedCourse(body)["createdBy"] == J.Str("current-user-id")
    ensures CreatedRoom(body)["participantCount"] == J.Num(1)
  {
    assert J.Field(CreatedCohort(body), "currentStudents") == Some(J.Num(0));
    assert J.Field(CreatedCohort(body), "status") == Some(J.Str("upcoming"));
    assert J.Field(CreatedCourse(body), "status") == Some(J.Str("draft"));
    assert J.Field(CreatedCourse(body), "createdBy") == Some(J.Str("current-user-id"));
    assert J.Field(CreatedRoom(body), "participantCount") == Some(J.Num(1));
  }

  /** Update shapes and user updates disagree on who wins the id: a body id `x` wins on
      a cohort update, loses on a user update. */
  lemma IdPrecedenceDiffers(pathId: string, x: string, body: J.Object)
    requires x != pathId && "id" in body && body["id"] == J.Str(x)
    ensures PathIdThenBody(pathId, body)["id"] == J.Str(x)
    ensures UpdatedUser(pathId, body)["id"] == J.Str(pathId)
  {
    assert J.Field(PathIdThenBody(pathId, body), "id") == Some(J.Str(x));
    assert J.Field(UpdatedUser(pathId, body), "id") == Some(J.Str(pathId));
  }
}
