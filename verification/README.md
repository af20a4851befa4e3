# Web3 University: a Dafny model of its real-time layer, access control and client logic

Web3 University is a learning platform. The browser application (React, zustand
stores, a wallet-based sign-in) talks to an Express server that has two parts: a
Socket.IO real-time layer for chat rooms, typing indicators, presence and
notifications, and a REST API whose routes are guarded by JWT middleware. This
project models the following parts and proves properties about them:

- **Real-time server** (`socket_server.dfy`). This covers the handshake gate, the
  registry of connected users (a JavaScript `Map`, kept in insertion order in
  `ordered_map.dfy`), room membership with the three namespaces `user:`, `cohort:`
  and `chat:`, and every event handler.
  - Each handler is a pure transition. It returns the new state and the deliveries
    it emits, and `Inbox` says exactly which events each socket receives.
  - The gate copies only the user id and the role onto a socket. So no socket ever
    has a cohort, and the cohort broadcasts reach nobody. These facts are proved,
    not assumed.
- **Real-time client** (`socket_client.dfy`). The browser's socket service is modelled
  as "no socket" or "one socket with its listeners".
  - `socket_agreement.dfy` checks both halves together: each client command lands
    on the intended server handler, the client subscribes to exactly the events
    the server emits, and the handshake token is the one the gate reads.
  - `protocol.dfy` holds the wire payloads. They carry no event names, so the
    names on each side are written down independently.
- **HTTP access control**:
  - `http_auth.dfy`: the four middleware functions;
  - `route_guards.dfy`: which middleware every route of the five routers runs, with
    a single lemma saying who reaches each handler;
  - `route_handlers.dfy`: query-string defaults (`parseInt(x) || d`) and how each
    response record merges fixed fields, path parameters and the request body.
    JSON objects are in `json.dfy`.
- **Browser services and stores**:
  - `data_service.dfy`: the in-memory data service and the `user_profile` slot of
    `localStorage`;
  - `auth_service.dfy`: the profile derived from a wallet address;
  - `auth_store.dfy`: the auth store with its `persist` middleware;
  - `theme_store.dfy`: the theme store and the `dark` class on the document root.
  - Storage is a map from keys to the values their JSON parses back to.
- **Browser views**:
  - `app_routes.dfy`: the route table and its two guards, with redirects followed
    to a fixed point;
  - `sidebar.dfy`: the sidebar's path matching and role filter;
  - `header.dfy`: the header's admin link, initials, short id and logout;
  - `hero_slideshow.dfy`: the landing slideshow, with JavaScript's truncating `%`;
  - `courses_page.dfy`: course search and filter;
  - `time_ago.dfy`, `cohorts_page.dfy` and `admin_page.dfy`: the `timeAgo` labels,
    the badge colours and the admin tab dispatch;
  - `chat_page.dfy`: the chat composer's guard and its badges.
- **Shared definitions**:
  - `wrappers.dfy`: `Option` and `Result`;
  - `identity.dfy`: roles and token claims, with verification as an uninterpreted
    oracle;
  - `js_string.dfy`: the JavaScript string operations the code relies on, namely
    truthiness, `includes`, `startsWith`, `trim`, `slice`, `split`, decimal
    rendering and `parseInt`;
  - `seq_util.dfy`: `filter` and `find`;
  - `models.dfy`: the client records and the object spread `{...u, ...p}`.

Clocks, `Date.now()` and ISO timestamps are parameters. Promise delays resolve at
once.

## Model

| member | source | states |
|---|---|---|
| SocketServer.Authenticate | server/src/config/socket.ts:13-28 | a falsy token is refused with "No token provided" before verification, a rejected token with "Invalid token", and an accepted one yields only the token's user id and role, never a cohort |
| SocketServer.Admit | server/src/config/socket.ts:13-37 | a connection is refused exactly when the token is falsy or invalid, with the matching message and no state change; otherwise the connection handler runs on a socket without cohort |
| SocketServer.AdmittedJoinsOnlyUserRoom | server/src/config/socket.ts:20-45 | an admitted socket is online under its token's user, is the registry entry for that user, and is in that user's room and no other room |
| SocketServer.Connect | server/src/config/socket.ts:34-45 | the registry maps the user to this socket (replacing any earlier entry), other users' entries are unchanged, and the socket joins its user room and its cohort room only when a cohort is present |
| SocketServer.ConnectJoins | server/src/config/socket.ts:39-45 | after connect the user is online and the socket is in exactly its user room plus, when it has a truthy cohort, that cohort room |
| SocketServer.ReconnectReplacesEntry | server/src/config/socket.ts:34-37 | a second connection of an online user keeps the registry size and points the entry at the newer socket |
| SocketServer.ConnectedUsersOnePerUser | server/src/config/socket.ts:137-139 | in a well-formed server `getConnectedUsers` has one entry per online user, each naming a live socket of that user |
| SocketServer.GetConnectedUsers | server/src/config/socket.ts:137-139 | the registry values in insertion order |
| SocketServer.IsUserOnline | server/src/config/socket.ts:141-143 | `isUserOnline` holds exactly when the user is a key of the registry (`Map.has`) |
| SocketServer.RoomNameInjective | server/src/config/socket.ts:40-49 | the `user:`/`cohort:`/`chat:` prefixes keep the namespaces apart: two room keys share a name only when equal |
| SocketServer.AddMember | server/src/config/socket.ts:49 | `join` adds the socket to that room only, and keeps the no-empty-room invariant |
| SocketServer.RemoveMember | server/src/config/socket.ts:56 | `leave` removes the socket from that room only, and keeps the no-empty-room invariant |
| SocketServer.RemoveEverywhere | server/src/config/socket.ts:111-122 | the library's cleanup on disconnect removes the socket from every room and leaves no empty room |
| SocketServer.OnJoinChatRoom | server/src/config/socket.ts:48-52 | joins `chat:<roomId>`, changes no other membership, and acknowledges the room id to the requesting socket only |
| SocketServer.OnLeaveChatRoom | server/src/config/socket.ts:55-59 | leaves `chat:<roomId>`, changes no other membership, and acknowledges to the requesting socket only |
| SocketServer.JoinIdempotent | server/src/config/socket.ts:48-52 | joining a chat room twice is joining it once |
| SocketServer.LeaveIdempotent | server/src/config/socket.ts:55-59 | leaving a chat room twice is leaving it once |
| SocketServer.OnSendMessage | server/src/config/socket.ts:62-76 | exactly one `new_message` to every current member of the chat room and to nobody else, sender included only if it is a member; the sender id is the socket's user and the room, text and type are copied from the payload |
| SocketServer.JoinThenSendReachesSender | server/src/config/socket.ts:48-76 | after joining, a socket receives its own message once; after leaving, not at all |
| SocketServer.OnTypingStart | server/src/config/socket.ts:79-84 | `user_typing` with the user and room reaches the room's members except the sender |
| SocketServer.OnTypingStop | server/src/config/socket.ts:86-91 | `user_stopped_typing` reaches the room's members except the sender |
| SocketServer.TypingNeverEchoes | server/src/config/socket.ts:79-91 | typing indicators never reach the typing socket |
| SocketServer.OnStatusUpdate | server/src/config/socket.ts:94-102 | the status reaches the other members of the socket's cohort room when it has a cohort, and nobody otherwise; no state changes |
| SocketServer.OnMarkNotificationRead | server/src/config/socket.ts:105-108 | the acknowledgement goes to the requesting socket only |
| SocketServer.OnDisconnect | server/src/config/socket.ts:111-122 | the user's registry key is deleted whichever socket it names, other users are untouched, the socket leaves every room, and an `offline` status goes to the other cohort members when there is a cohort |
| SocketServer.StaleDisconnectTakesUserOffline | server/src/config/socket.ts:113 | disconnecting an older socket takes the user offline while a newer socket of the same user is still connected |
| SocketServer.SendNotificationToUser | server/src/config/socket.ts:129-131 | one `notification` to each socket in the user room |
| SocketServer.UserNotificationReachesUser | server/src/config/socket.ts:129-131 | in a well-formed server the user notification reaches exactly the live sockets of that user |
| SocketServer.SendNotificationToCohort | server/src/config/socket.ts:133-135 | one `notification` to each socket in the cohort room |
| SocketServer.CohortNotificationReachesCohort | server/src/config/socket.ts:133-135 | a cohort notification reaches exactly the live sockets carrying that cohort |
| SocketServer.Dispatch | server/src/config/socket.ts:47-108 | an event name without a handler does nothing; only join and leave change state; the registry and sockets never change |
| SocketServer.InitialWf | server/src/config/socket.ts:30-45 | the empty server satisfies the well-formedness invariant (live registry, auto-joined rooms, rooms matching users and cohorts) |
| SocketServer.ConnectWf | server/src/config/socket.ts:34-45 | connect preserves the invariant |
| SocketServer.JoinWf | server/src/config/socket.ts:48-52 | join preserves the invariant |
| SocketServer.LeaveWf | server/src/config/socket.ts:55-59 | leave preserves the invariant |
| SocketServer.DisconnectWf | server/src/config/socket.ts:111-122 | disconnect preserves the invariant |
| SocketServer.DispatchWf | server/src/config/socket.ts:47-108 | every packet preserves the invariant |
| SocketServer.OneUserRoom | server/src/config/socket.ts:40 | a live socket is in exactly one user room, its own |
| SocketServer.AtMostOneCohortRoom | server/src/config/socket.ts:42-45 | a live socket is in at most one cohort room, and in none without a cohort |
| SocketServer.AdmitKeepsNoCohorts | server/src/config/socket.ts:22-23 | admitting a socket keeps "no socket has a cohort" |
| SocketServer.DisconnectKeepsNoCohorts | server/src/config/socket.ts:111-122 | disconnecting keeps "no socket has a cohort" |
| SocketServer.DispatchKeepsNoCohorts | server/src/config/socket.ts:47-108 | every packet keeps "no socket has a cohort" |
| SocketServer.EmptyCohortRooms | server/src/config/socket.ts:43-44 | without cohorts on the sockets every cohort room is empty |
| SocketServer.NoCohortBroadcasts | server/src/config/socket.ts:96-135 | since the gate never sets a cohort, cohort notifications, status broadcasts and offline notices reach nobody |
| SocketServer.Inbox | server/src/config/socket.ts:50-135 | every event a socket receives comes from an emission addressed to it |
| OrderedMap.Get | server/src/config/socket.ts:34-37 | the value found is a stored pair; absence means no entry has the key |
| OrderedMap.Set | server/src/config/socket.ts:34-37 | `Map.set` stores the value, leaves other keys alone, keeps keys distinct, keeps the key order for a present key and appends a new one |
| OrderedMap.Delete | server/src/config/socket.ts:113 | `Map.delete` removes the key, leaves other keys alone and shrinks the map by one exactly when the key was present |
| OrderedMap.Values | server/src/config/socket.ts:137-139 | `values()` lists the values in insertion order |
| OrderedMap.Keys | server/src/config/socket.ts:137-139 | the keys in insertion order |
| OrderedMap.KeySet | server/src/config/socket.ts:141-143 | the key set is exactly the keys `has` reports |
| OrderedMap.DistinctKeysCount | server/src/config/socket.ts:137-139 | without repeated keys a map has one entry per key |
| OrderedMap.GetAt | server/src/config/socket.ts:34-37 | without repeated keys, looking up any entry's key finds that entry |
| SocketClient.Connect | src/services/socket.ts:8-32 | `connect` remembers the token and replaces the socket by a new one whose handshake carries the token and which has only the three internal listeners |
| SocketClient.TransportChanged | src/services/socket.ts:101-103 | the transport opening or closing changes only the socket's connected flag |
| SocketClient.IsConnected | src/services/socket.ts:101-103 | false without a socket, otherwise the socket's connected flag |
| SocketClient.IsConnectedFollowsTransport | src/services/socket.ts:8-39 | a new socket is not connected, the transport opening or closing sets the status, and after `disconnect` it is false |
| SocketClient.Disconnect | src/services/socket.ts:34-39 | after `disconnect` there is no socket and the token is kept |
| SocketClient.DisconnectIdempotent | src/services/socket.ts:34-39 | after a disconnect `isConnected()` is false and a second disconnect changes nothing |
| SocketClient.Reconnect | src/services/socket.ts:106-109 | `reconnect` leaves a socket created with the new token |
| SocketClient.ReconnectForgetsListeners | src/services/socket.ts:106-109 | reconnect is the same as connect: no listener of the old socket survives and the new one is not yet connected |
| SocketClient.Emit | src/services/socket.ts:42-64 | a command yields one packet exactly while a socket exists, namely its encoding |
| SocketClient.EncodeInjective | src/services/socket.ts:42-64 | different commands never produce the same packet |
| SocketClient.On | src/services/socket.ts:67-93 | a subscription appends one listener under its event name while a socket exists and is a no-op otherwise |
| SocketClient.RemoveFirst | src/services/socket.ts:96-98 | removing a listener with a callback drops only its earliest registration and keeps the rest in order |
| SocketClient.FirstOfEvent | src/services/socket.ts:96-98 | the position of the earliest listener of an event, or the end when it has none |
| SocketClient.RemoveFirstOfEvent | src/services/socket.ts:96-98 | removing with an undefined callback drops only the earliest listener of the event, whatever its callback, and keeps the rest in order |
| SocketClient.Off | src/services/socket.ts:96-98 | `off` is a no-op without a socket; otherwise it touches only the listener list, removing the callback's first registration for the event, or with no callback the event's first listener |
| SocketClient.OffWithoutCallbackRemovesOne | src/services/socket.ts:21-31 | `off("connect")` on a fresh socket drops the service's own connection logger, and with two subscribers of an event only the first is removed |
| SocketClient.OffUndoesOn | src/services/socket.ts:67-98 | `off` with the same event and callback undoes an `on` |
| SocketClient.NoSocketNoEffect | src/services/socket.ts:42-103 | before connect and after disconnect every emit, on and off does nothing and the service is not connected |
| SocketClient.SubscribedNames | src/services/socket.ts:67-93 | the set of names the subscriptions listen for |
| SocketClient.FirstIndexOfAppended | src/services/socket.ts:96-98 | an appended listener not yet present is found at the end |
| SocketAgreement.CommandsReachTheirHandlers | src/services/socket.ts:42-64 | every client command's name has a server handler, and dispatching the packet runs the handler the command is written for |
| SocketAgreement.HandledNamesAreCommands | server/src/config/socket.ts:47-108 | the server handles exactly the client's command names plus `mark_notification_read`, which the client never sends |
| SocketAgreement.SubscriptionsMatchEmissions | src/services/socket.ts:67-93 | every subscription name is a name the server emits, and the client subscribes to every emitted name except `notification_marked_read` |
| SocketAgreement.Witness | src/services/socket.ts:67-93 | each subscription has a server event of its kind |
| SocketAgreement.HandshakeUsesConnectToken | src/services/socket.ts:9-16 | the server gate checks the token given to `connect`: an empty one is refused before verification, otherwise admission follows the verifier |
| SocketAgreement.EchoScenario | src/services/socket.ts:42-68 | from a fresh server, a client with a valid token that joins a room and sends a message receives it back exactly once, under a name it subscribes to |
| HttpAuth.BearerToken | server/src/middleware/auth.ts:20-21 | the token is a non-empty field without spaces, and a falsy header gives none |
| HttpAuth.BearerTokenOfHeader | server/src/middleware/auth.ts:21 | any `<scheme> <token>` header yields the token; the word `Bearer` is never checked |
| HttpAuth.NoSpaceNoToken | server/src/middleware/auth.ts:21-25 | a header without a space carries no token |
| HttpAuth.AuthenticateToken | server/src/middleware/auth.ts:15-39 | no token gives 401 "Access token required", a rejected token 403 "Invalid or expired token", and a valid one attaches the claims and passes |
| HttpAuth.MissingTokenSkipsVerifier | server/src/middleware/auth.ts:23-25 | without a token the verifier is not consulted: any two verifiers give the same 401 |
| HttpAuth.AuthorizeRoles | server/src/middleware/auth.ts:41-53 | no user gives 401, a role outside the list 403, otherwise pass with the request unchanged |
| HttpAuth.AuthorizeRolesMonotone | server/src/middleware/auth.ts:47 | widening the role list never turns a pass into a denial |
| HttpAuth.Param | server/src/middleware/auth.ts:62 | a path parameter is present exactly when the route supplied it |
| HttpAuth.ParamOrBody | server/src/middleware/auth.ts:62 | the path parameter when truthy, otherwise the body field of the same name; the same rule picks the resource owner here and the cohort at line 91 |
| HttpAuth.AuthorizeOwnerOrRole | server/src/middleware/auth.ts:55-74 | passes exactly when the resource owner is the user or the role is listed; otherwise 403, and 401 without a user |
| HttpAuth.AuthorizeCohortAccess | server/src/middleware/auth.ts:76-96 | a non-student always passes; a student passes exactly when its cohort equals the addressed one; otherwise 403, and 401 without a user |
| HttpAuth.CohortAccessForNonStudents | server/src/middleware/auth.ts:86-96 | admins, mentors and roles outside the enumeration reach every cohort |
| HttpAuth.CohortlessStudentOnCohortlessRequest | server/src/middleware/auth.ts:91-92 | a student without a cohort passes on a request naming no cohort, both sides being `undefined` |
| RouteGuards.RunGuards | server/src/routes/admin.ts:9-10 | an empty guard chain passes the request through |
| RouteGuards.RunGuardsAppend | server/src/routes/cohorts.ts:9-49 | router-level guards followed by route-level guards behave as one chain that stops at the first failure |
| RouteGuards.Authenticated | server/src/middleware/auth.ts:20-38 | a request authenticates exactly when it carries a token the verifier accepts |
| RouteGuards.GuardsDecideAccess | server/src/routes/courses.ts:9-56 | for every route of the five routers, a request reaches the handler exactly when its token is valid and the permission table admits its claims; the handler sees the claims attached, and a stopped request gets 401 without a token and 403 with an invalid one |
| RouteGuards.AdminOnly | server/src/routes/admin.ts:9-10 | no admin handler is reached by a non-admin |
| RouteGuards.StudentReadsOwnCohort | server/src/routes/cohorts.ts:72-73 | a student reaches `GET /api/cohorts/:cohortId` exactly for its own cohort |
| RouteGuards.EveryRouteAuthenticates | server/src/routes/users.ts:9 | every route of every router requires a valid token |
| RouteGuards.NoCohortCheckOnChatOrMemberList | server/src/routes/chat.ts:2-58 | no chat route applies the imported cohort check, and the cohort member listing checks only the token |
| RouteHandlers.IntParam | server/src/routes/admin.ts:56-57 | `parseInt(q[k]) \|\| d` is the parsed number unless it is NaN or zero; a non-zero default makes the result non-zero |
| RouteHandlers.IntParamCases | server/src/routes/chat.ts:117-118 | a missing parameter or `0` gives the default, and a positive decimal numeral gives its value |
| RouteHandlers.AdminUsersPagination | server/src/routes/admin.ts:56-57 | page defaults to 1 and limit to 20, and neither is zero |
| RouteHandlers.AdminUsersFilters | server/src/routes/admin.ts:58-85 | the `filters` echo holds exactly the raw `role` and `search` parameters |
| RouteHandlers.LogsQuery | server/src/routes/admin.ts:223-224 | level is the parameter when non-empty, else `all`; page defaults to 1 |
| RouteHandlers.ChatMessagesPagination | server/src/routes/chat.ts:117-118 | page defaults to 1 and limit to 50, and neither is zero |
| RouteHandlers.Literal | server/src/routes/cohorts.ts:60-65 | in `{...before, ...body, ...after}` later parts win, key by key |
| RouteHandlers.CreatedCohort | server/src/routes/cohorts.ts:60-65 | the body may replace the id, but `currentStudents` is 0 and `status` is `upcoming` whatever it says; other body fields are kept |
| RouteHandlers.PathIdThenBody | server/src/routes/courses.ts:136-137 | the update shape `{id: pathId, ...body}` of courses, and likewise of cohorts (cohorts.ts:125-128) and lessons (courses.ts:248-249): a body id overrides the path id and every other body field is kept |
| RouteHandlers.CreatedCourse | server/src/routes/courses.ts:67-72 | the body may replace the id but not `status: draft` or `createdBy` |
| RouteHandlers.CreatedLesson | server/src/routes/courses.ts:199-201 | the course id comes from the path unless the body supplies one, and likewise the id |
| RouteHandlers.LessonCompletion | server/src/routes/courses.ts:268-271 | completion is always true and the time spent is the body's when truthy, else 0 |
| RouteHandlers.UpdatedProfile | server/src/routes/users.ts:45-47 | the id is always `placeholder-id`, whatever the body says |
| RouteHandlers.UpdatedUser | server/src/routes/users.ts:89-91 | the path user id always wins over a body id |
| RouteHandlers.CreatedRoom | server/src/routes/chat.ts:69-73 | the body may replace the id but not `participantCount: 1` or `createdBy` |
| RouteHandlers.PostedMessage | server/src/routes/chat.ts:170-174 | the room comes from the path, the text from the body, and the type is the body's when truthy, else `text` |
| RouteHandlers.EditedMessage | server/src/routes/chat.ts:193-195 | the path id, the body text, and `isEdited` true |
| RouteHandlers.IdWithBodyField | server/src/routes/admin.ts:101-104 | the role change, and the status change at lines 120-123, answer with the path id and the body's role or flag, unchanged |
| RouteHandlers.BroadcastNotice | server/src/routes/admin.ts:335-336 | recipients is the body's when truthy, else `all`, so it is always truthy |
| RouteHandlers.FixedFieldsCannotBeForged | server/src/routes/cohorts.ts:60-65 | whatever the body says, a created cohort starts empty and upcoming, a course as a draft by the current user, a room with one participant |
| RouteHandlers.IdPrecedenceDiffers | server/src/routes/users.ts:89-91 | a body id wins on a cohort update and loses on a user update |
| Json.Field | server/src/routes/cohorts.ts:60-65 | a property is defined exactly when the object has the key |
| Json.OrElse | server/src/routes/admin.ts:336 | `v \|\| d` is `v` when truthy, else `d` |
| Json.Spread | server/src/routes/cohorts.ts:125-128 | in `{...a, ...b}` every key of `b` takes `b`'s value and the others keep `a`'s |
| Json.With | server/src/routes/chat.ts:170-174 | a literal property sets that key and no other |
| Json.StrField | server/src/routes/admin.ts:58-59 | a string property is read back exactly when present and a string |
| Json.AsStr | server/src/middleware/auth.ts:91-92 | an optional string becomes an optional JSON string, `undefined` staying `undefined` |
| Identity.RoleStringRoundTrip | server/src/middleware/auth.ts:47 | roles and their strings correspond one to one, so comparing roles is comparing the strings the code compares |
| JsString.ContainsIff | src/pages/courses/CoursesPage.tsx:47-48 | `includes` holds exactly when the needle occurs at some offset |
| JsString.ToLower | src/pages/courses/CoursesPage.tsx:47-48 | lower-casing keeps the length and maps each character |
| JsString.TrimEmptyIff | src/pages/chat/ChatPage.tsx:106 | `trim()` is empty exactly when every character is white space |
| JsString.TrimStartSpec | src/pages/chat/ChatPage.tsx:106 | leading white space removal is empty exactly for all-space text and otherwise stops at a non-space |
| JsString.TrimEndSpec | src/pages/chat/ChatPage.tsx:106 | trailing white space removal is empty exactly for all-space text and otherwise stops at a non-space |
| JsString.Take | src/services/auth.ts:15-16 | `slice(0, n)` is a prefix of length `min(n, length)` |
| JsString.TakeLast | src/components/common/Header.tsx:88 | `slice(-n)` is a suffix of length `min(n, length)` |
| JsString.Split | server/src/middleware/auth.ts:21 | `split(' ')` gives the pieces between separators, none containing the separator |
| JsString.JoinSplit | server/src/middleware/auth.ts:21 | joining the pieces of a split gives the text back |
| JsString.SplitWithoutSeparator | server/src/middleware/auth.ts:21 | text without a separator splits into itself |
| JsString.SplitAfterWord | server/src/middleware/auth.ts:21 | a word, a separator and the rest split into the word followed by the rest's pieces |
| JsString.NatToString | src/services/data.ts:177 | a template literal renders a non-negative integer as a non-empty run of decimal digits |
| JsString.DigitsValueOfNatToString | server/src/routes/admin.ts:56-57 | the digits rendered for `n` denote `n` |
| JsString.ParseInt | server/src/routes/admin.ts:56-57 | `parseInt` of `undefined` is `NaN`, and a number comes only from text whose first non-space character is a digit, or a sign followed by one |
| JsString.ParseIntOfNatToString | server/src/routes/admin.ts:56-57 | `parseInt` reads back what a template literal writes for a non-negative integer |
| JsString.DigitPrefixLen | server/src/routes/chat.ts:117-118 | `parseInt` reads the longest prefix of digits and stops at the first non-digit |
| SeqUtil.Filter | src/services/data.ts:169-173 | `filter` keeps exactly the elements that pass |
| SeqUtil.FilterIsSubsequence | src/components/common/Sidebar.tsx:59-61 | `filter` keeps order: its result is a subsequence of the input |
| SeqUtil.FilterContents | src/services/data.ts:171 | `filter` keeps every passing element as often as it occurs and drops the rest |
| SeqUtil.FilterMembership | src/components/common/Sidebar.tsx:59-61 | an element is kept exactly when it occurs in the input and passes |
| SeqUtil.FilterSnoc | src/services/data.ts:189 | filtering after a push is the old filter plus the new element when it passes |
| SeqUtil.FilterAppend | src/components/common/Sidebar.tsx:59-61 | filtering a concatenation is concatenating the filters |
| SeqUtil.FilterAllOrNone | src/pages/courses/CoursesPage.tsx:46-55 | if every element passes the filter is the identity, and if none does it is empty |
| SeqUtil.FindFirst | src/services/data.ts:138 | `find` returns the first passing element, or nothing when none passes |
| SeqUtil.FindFirstAppend | src/services/data.ts:138 | `find` on a concatenation searches the second part only when the first has no match |
| DataService.FindById | src/services/data.ts:136-162 | the element found has the id and no earlier element has it; nothing is found exactly when no element has the id |
| DataService.GetUserById | src/services/data.ts:136-140 | the user found is stored and has the id; `null` exactly when no stored user has it |
| DataService.GetCourseById | src/services/data.ts:147-151 | the course found is stored and has the id; `null` exactly when no stored course has it |
| DataService.GetCohortById | src/services/data.ts:158-162 | the cohort found is stored and has the id; `null` exactly when no stored cohort has it |
| DataService.EarlierRecordShadows | src/services/data.ts:138 | a record added later under a taken id is never returned |
| DataService.GetChatMessages | src/services/data.ts:169-173 | exactly the stored messages of the room, each as often as stored, in stored order |
| DataService.SenderName | src/services/data.ts:180 | the name always contains a space and is never `Unknown`: a known sender gives first and last name, an unknown one "undefined undefined" |
| DataService.SendMessage | src/services/data.ts:175-191 | appends exactly one message (room, sender and text as given, type `text`, not edited, empty avatar, id `msg-<now>`) and returns it; the other collections are unchanged |
| DataService.SendThenGetMessages | src/services/data.ts:189 | after a send the room's listing is the old one plus the new message at the end, and other rooms' listings are unchanged |
| DataService.SaveUserData | src/services/data.ts:194-196 | the profile is stored under `user_profile` and no other key changes |
| DataService.GetUserData | src/services/data.ts:198-201 | a profile is read exactly when one is stored under `user_profile` |
| DataService.ClearUserData | src/services/data.ts:203-205 | `user_profile` is removed and no other key changes |
| DataService.ProfileStorageRoundTrip | src/services/data.ts:194-205 | a saved profile reads back unchanged, a cleared one reads back as `null`, and the last write wins |
| Models.ApplyLaws | src/services/auth.ts:41 | spreading an empty patch changes nothing, the same patch twice is once, and two patches in a row are one merged patch |
| Models.ApplyFieldwise | src/services/auth.ts:41 | a patch that names a property decides it and one that does not leaves it alone |
| AuthService.NewProfileShape | src/services/auth.ts:13-25 | a new profile is an active student with id the address, whose email and username are determined by the address's first eight characters and by nothing else |
| AuthService.CreateUserFromAddress | src/services/auth.ts:5-30 | the stored profile is returned unchanged when its id is the address; otherwise a new profile is built and saved; either way the result belongs to the address, is the one stored, and no other key changes |
| AuthService.CreateUserFromAddressIdempotent | src/services/auth.ts:7-10 | a second call for the same address returns the first call's profile, whatever the time |
| AuthService.UpdateProfile | src/services/auth.ts:37-45 | throws `No wallet connected` exactly for an empty address; otherwise the result is stored, `updatedAt` is refreshed, no other key changes, and the id is the data's, else the stored profile's, else the address |
| AuthService.UpdateUsesStoredProfileOfAnyAddress | src/services/auth.ts:40-41 | the stored profile is the base even when it belongs to another address |
| AuthService.UpdateWithoutStoredProfile | src/services/auth.ts:40-41 | without a stored profile the base is the profile the address would get |
| AuthService.UpdateTwiceIsMergedUpdate | src/services/auth.ts:40-44 | two updates in a row store and return what one update with the merged data does |
| AuthService.Logout | src/services/auth.ts:48-50 | the stored profile is gone and nothing else changes |
| AuthStore.Set | src/contexts/AuthContext.tsx:69-73 | every `set` writes the state and persists the slice holding only the user, under `auth-storage` |
| AuthStore.Rehydrate | src/contexts/AuthContext.tsx:21-25 | a reload starts from the initial state (no token, not authenticated, not loading) with the persisted user |
| AuthStore.ReloadKeepsOnlyUser | src/contexts/AuthContext.tsx:69-73 | whatever was set last, a reload recovers that user and the initial values of the other three fields |
| AuthStore.InertActions | src/contexts/AuthContext.tsx:27-30 | `connectWallet` and `initialize` change nothing |
| AuthStore.DisconnectWallet | src/contexts/AuthContext.tsx:32-40 | the state is reset to the initial one, the stored profile is gone, an empty slice is persisted, and no other key changes |
| AuthStore.DisconnectForgetsUser | src/contexts/AuthContext.tsx:42-46 | logout is disconnect, a reload after it starts from the initial state, and disconnecting twice is disconnecting once |
| AuthStore.UpdateProfile | src/contexts/AuthContext.tsx:48-58 | without a user it fails with `No user found`; with one it fails only for an empty id; a failure changes nothing and a success changes only the user, which is the profile stored |
| AuthStore.SetLoading | src/contexts/AuthContext.tsx:60-62 | only `isLoading` changes |
| AuthStore.LoadingIsNotPersisted | src/contexts/AuthContext.tsx:60-73 | toggling the loading flag never changes what a reload recovers |
| AuthStore.NoActionAuthenticates | src/contexts/AuthContext.tsx:21-67 | no action and no reload ever sets `isAuthenticated` |
| AuthStore.NeverAuthenticated | src/contexts/AuthContext.tsx:21-67 | no sequence of actions and reloads from an unauthenticated store authenticates it |
| ThemeStore.Created | src/contexts/ThemeContext.tsx:13 | the store starts with `isDark` false |
| ThemeStore.UpdateDocumentTheme | src/contexts/ThemeContext.tsx:37-43 | the root has `dark` exactly when the flag is set, and no other class changes |
| ThemeStore.Show | src/contexts/ThemeContext.tsx:15-24 | setting the flag persists it under `web3uni-theme`, syncs the document, and touches no other class or key |
| ThemeStore.ToggleTheme | src/contexts/ThemeContext.tsx:15-19 | the flag is negated and the document shows it |
| ThemeStore.SetTheme | src/contexts/ThemeContext.tsx:21-24 | the flag is the argument and the document shows it |
| ThemeStore.ToggleTwice | src/contexts/ThemeContext.tsx:15-19 | toggling twice restores the flag and, from a synced document, the classes |
| ThemeStore.SetThemeIdempotent | src/contexts/ThemeContext.tsx:21-24 | setting the same theme twice is setting it once |
| ThemeStore.Rehydrate | src/contexts/ThemeContext.tsx:28-32 | a reload takes the stored flag when there is one and brings the document in line |
| ThemeStore.ReloadRestoresTheme | src/contexts/ThemeContext.tsx:28-32 | a reload finds the theme last set or toggled, whatever the new page's classes |
| AppRoutes.ProtectedRoute | src/App.tsx:34-57 | loading gives the spinner, not authenticated redirects to `/login`, and a present user whose role is outside a given list redirects to `/dashboard`; otherwise the page renders |
| AppRoutes.PublicRoute | src/App.tsx:60-76 | loading gives the spinner, authenticated redirects to `/dashboard`, otherwise the page renders |
| AppRoutes.Resolve | src/App.tsx:92-185 | every redirect of the route table goes to `/dashboard` or `/login`, a page renders only once the store has loaded and only at its own path, and an unlisted path falls through to `/dashboard` |
| AppRoutes.SettlesWithinTwoRedirects | src/App.tsx:92-185 | following redirects from any path settles within two hops on the spinner, the login or register page, the permitted page asked for, or the dashboard |
| AppRoutes.AdminPanelOnlyForAdmins | src/App.tsx:161-169 | the admin panel renders exactly for an authenticated admin or an authenticated store without a user; a mentor lands on the dashboard |
| AppRoutes.NoProtectedPageRenders | src/App.tsx:34-76 | after a page load and any actions and reloads of the store, every path of a loaded store ends on the login or register page |
| Sidebar.IsActiveIff | src/components/common/Sidebar.tsx:10-12 | an entry is active exactly when its path is a prefix of the location ending at its end or at a `/` |
| Sidebar.CoursesHighlight | src/components/common/Sidebar.tsx:10-12 | `/courses` is active on `/courses/1` but not on `/coursesX` |
| Sidebar.VisibleItemsSpec | src/components/common/Sidebar.tsx:59-61 | the shown entries are the order-preserving sublist of the entries listing the user's role |
| Sidebar.VisibleItemsSplit | src/components/common/Sidebar.tsx:14-61 | the filter over the entry list is the filter over the shared entries followed by each role entry |
| Sidebar.SharedItemsShown | src/components/common/Sidebar.tsx:14-38 | the four shared entries are shown to every role of the enumeration and to nobody else |
| Sidebar.StudentNav | src/components/common/Sidebar.tsx:39-44 | a student sees the shared entries then Progress |
| Sidebar.MentorNav | src/components/common/Sidebar.tsx:45-50 | a mentor sees the shared entries then Mentor Panel |
| Sidebar.AdminNav | src/components/common/Sidebar.tsx:51-56 | an admin sees the shared entries then Admin Panel |
| Sidebar.NoRoleNav | src/components/common/Sidebar.tsx:60 | a missing user or a role outside the enumeration sees nothing |
| Sidebar.NavPerRole | src/components/common/Sidebar.tsx:14-61 | the entries each kind of user sees, for every user |
| Sidebar.AdminsHaveNoMentorEntry | src/components/common/Sidebar.tsx:45-50 | an admin's sidebar has no `/mentor` entry although the route admits admins |
| Header.AdminLinkWiderThanAdminRoute | src/components/common/Header.tsx:62-69 | a mentor is shown the Admin link, yet following it lands on the dashboard |
| Header.FirstUpper | src/components/common/Header.tsx:81 | `s?.[0]?.toUpperCase()` is the upper-cased first character, or nothing for an empty name |
| Header.Initials | src/components/common/Header.tsx:81 | the initials are at most two characters, none lower-case, namely the upper-cased first letters of both names when present |
| Header.ShortId | src/components/common/Header.tsx:88 | the short id is the first six characters, `...`, and the last four; thirteen characters for an id of at least ten |
| Header.ShortIdOfShortId | src/components/common/Header.tsx:88 | an id of at most four characters is shown twice around the dots |
| Header.ClickAvatar | src/components/common/Header.tsx:76 | the avatar button flips the menu |
| Header.ClickMenuLink | src/components/common/Header.tsx:97-104 | the Profile and Settings links close the menu |
| Header.HandleLogout | src/components/common/Header.tsx:11-22 | the store is reset and the menu closed |
| Header.LogoutIgnoresDisconnectOutcome | src/components/common/Header.tsx:11-22 | logout does the same whether the wallet disconnect succeeds or throws, namely the store's disconnect |
| HeroSlideshow.SlideFacts | src/components/landing/HeroSlideshow.tsx:34-135 | ten slides; every primary button registers and only the first and sixth have a demo button |
| HeroSlideshow.JsRem | src/components/landing/HeroSlideshow.tsx:169 | JavaScript's `%`: the magnitude is the magnitude's remainder and the sign the dividend's |
| HeroSlideshow.NextSlide | src/components/landing/HeroSlideshow.tsx:167-171 | pauses autoplay and, from a valid index, moves to `(i + 1) mod 10` |
| HeroSlideshow.PrevSlide | src/components/landing/HeroSlideshow.tsx:173-177 | pauses autoplay and, from a valid index, moves to `(i - 1 + 10) mod 10` |
| HeroSlideshow.GoToSlide | src/components/landing/HeroSlideshow.tsx:179-183 | pauses autoplay and stores the index unchecked, valid exactly when in range |
| HeroSlideshow.Resume | src/components/landing/HeroSlideshow.tsx:170 | the resume timeout turns autoplay back on and keeps the slide |
| HeroSlideshow.Tick | src/components/landing/HeroSlideshow.tsx:143-151 | a tick does nothing while paused and otherwise steps as `nextSlide` does, keeping autoplay on |
| HeroSlideshow.StepsStayInRangeAndInvert | src/components/landing/HeroSlideshow.tsx:167-177 | next, previous and tick keep the index valid, and next and previous undo each other |
| HeroSlideshow.OutOfRangeIsNotRepaired | src/components/landing/HeroSlideshow.tsx:169-181 | an index stored out of range stays out of range after a step from a negative index |
| HeroSlideshow.AdvanceIsModular | src/components/landing/HeroSlideshow.tsx:143-151 | while autoplay runs, `k` ticks move `k` slides forward modulo ten |
| HeroSlideshow.HandleSlideClick | src/components/landing/HeroSlideshow.tsx:153-165 | `register` and `login` navigate to their paths and anything else does nothing |
| HeroSlideshow.SlideButtonsNavigate | src/components/landing/HeroSlideshow.tsx:153-165 | every button of every slide navigates except the demo buttons |
| CoursesPage.FilteredCourses | src/pages/courses/CoursesPage.tsx:46-55 | the listed courses are the order-preserving sublist of those matching both the search and the filter, each as often as in the catalogue |
| CoursesPage.SearchIgnoresCase | src/pages/courses/CoursesPage.tsx:47-48 | the case of the search term makes no difference |
| CoursesPage.EmptySearchListsAll | src/pages/courses/CoursesPage.tsx:46-55 | the empty search under `all` lists the whole catalogue |
| CoursesPage.UnknownFilterListsNothing | src/pages/courses/CoursesPage.tsx:49-53 | a filter value the selector does not offer hides every course |
| CoursesPage.CompletedAreEnrolled | src/pages/courses/CoursesPage.tsx:50-51 | every completed course is also an enrolled one |
| CoursesPage.BeginnerAdvancedPartition | src/pages/courses/CoursesPage.tsx:52-53 | `beginner` and `advanced` split the matching courses: each is in exactly one |
| CoursesPage.DifficultyLabel | src/pages/courses/CoursesPage.tsx:57-61 | Beginner up to 2, Intermediate exactly at 3, Advanced from 4 |
| CoursesPage.DifficultyColor | src/pages/courses/CoursesPage.tsx:63-67 | green up to 2, yellow exactly at 3, red from 4 |
| CoursesPage.ColorFollowsLabel | src/pages/courses/CoursesPage.tsx:57-67 | two difficulties share a label exactly when they share a colour |
| CoursesPage.FilterVersusBadge | src/pages/courses/CoursesPage.tsx:52-61 | the `beginner` filter agrees with the badge, but `advanced` also lists courses badged Intermediate |
| TimeAgo.HoursSince | src/pages/cohorts/CohortsPage.tsx:92 | the whole hours elapsed, floored, bracket the elapsed time |
| TimeAgo.Ago | src/pages/cohorts/CohortsPage.tsx:89-97 | under an hour gives the recent text; under a day `<n>h ago` with `n` the whole hours; otherwise `<d>d ago` with `d` the whole days |
| TimeAgo.DaysFromHours | src/pages/admin/AdminPage.tsx:133-137 | flooring to hours and then to days is flooring to days |
| TimeAgo.RecentIff | src/pages/admin/AdminPage.tsx:135 | the recent text appears exactly when less than an hour has passed |
| TimeAgo.AgoReadsBack | src/pages/admin/AdminPage.tsx:130-138 | `parseInt` of an hours label is the whole hours elapsed, and of a days label the whole days |
| TimeAgo.ParseIntOfCount | src/pages/admin/AdminPage.tsx:136-137 | `parseInt` of a count followed by `h` or `d` reads the count |
| TimeAgo.RecentEdges | src/pages/admin/AdminPage.tsx:133-135 | a future timestamp and one 59 minutes old are both recent |
| TimeAgo.HourEdges | src/pages/admin/AdminPage.tsx:133-136 | one hour is `1h ago` and 23 hours 59 minutes is `23h ago` |
| TimeAgo.DayEdge | src/pages/admin/AdminPage.tsx:133-137 | 24 hours is `1d ago` |
| CohortsPage.ProgressColor | src/pages/cohorts/CohortsPage.tsx:75-79 | green from 80, yellow from 60 below 80, red below 60 |
| CohortsPage.ProgressColorMonotone | src/pages/cohorts/CohortsPage.tsx:75-79 | more progress never shows a worse colour |
| CohortsPage.LastActive | src/pages/cohorts/CohortsPage.tsx:89-97 | `Active now` exactly under an hour; otherwise a label whose number is the whole hours, or past a day the whole days |
| CohortsPage.ScheduleEventOnlyForMentors | src/pages/cohorts/CohortsPage.tsx:237-243 | the Schedule Event button is shown exactly to a present user whose role string is `mentor`, so never to admins or without a user |
| AdminPage.RenderContent | src/pages/admin/AdminPage.tsx:366-376 | a value that is no tab id shows the dashboard |
| AdminPage.ClickTab | src/pages/admin/AdminPage.tsx:395-397 | clicking a tab highlights it |
| AdminPage.ClickShowsOwnPanel | src/pages/admin/AdminPage.tsx:113-120 | clicking a tab highlights that tab and no other, and no two tabs render the same content |
| AdminPage.InitialAndUnknownTabs | src/pages/admin/AdminPage.tsx:5 | the page opens on the first tab showing the dashboard; an unknown value shows the dashboard but highlights nothing |
| AdminPage.JoinedAgo | src/pages/admin/AdminPage.tsx:130-138 | `Just now` exactly under an hour |
| ChatPage.HandleSendMessage | src/pages/chat/ChatPage.tsx:104-111 | a message is sent exactly when it is not all white space, and then the field is cleared; otherwise nothing changes |
| ChatPage.SubmitAgreesWithButton | src/pages/chat/ChatPage.tsx:280 | submitting sends exactly when the Send button is enabled, and after a send the button is disabled |
| ChatPage.SelectRoom | src/pages/chat/ChatPage.tsx:154 | clicking a room selects it and keeps the draft |
| ChatPage.StatusColor | src/pages/chat/ChatPage.tsx:120-127 | grey exactly for a status other than online, away and busy |
| ChatPage.StatusColorsDistinct | src/pages/chat/ChatPage.tsx:120-127 | the three known statuses get three different colours |
| ChatPage.RoomIcon | src/pages/chat/ChatPage.tsx:129-136 | the speech balloon exactly for rooms that are neither cohort nor course rooms |
| ChatPage.RoomIconClasses | src/pages/chat/ChatPage.tsx:129-136 | two kinds share an icon exactly when equal or both other than cohort and course |

## Left out

- I/O is outside the model: `console.log`, the DOM, `localStorage` serialization, network transport, timers and Promise delays. Stored JSON is modelled as the value it parses back to. Clock readings and ISO timestamps are parameters.
- JWT signature and expiry checking is an uninterpreted verifier, shared by the socket gate and the HTTP middleware. Secrets are not modelled.
- The internals of Socket.IO and Express are outside the model. The library's removal of a disconnected socket from its rooms is stated as a step of `SocketServer.OnDisconnect`. `Dispatch` ignores packets with unknown names and payloads of the wrong shape; the code would instead stringify a non-string room id, broadcast a string message payload to `chat:undefined`, or throw on `null`. Non-string query values and bodies that are not objects are not modelled.
- SocketServer.OnStatusUpdate: the status is not stored anywhere. The handler only broadcasts it, as its comment at server/src/config/socket.ts:95 says, so the registry is not updated.
- SocketClient.Connect: calling `connect` twice drops the old socket without closing it. The model drops it as well and does not track the leaked transport.
- SocketClient.Off: callback identity is a number, and every listener is registered with `on`. The Socket.IO client's emitter is not part of this model; its two-argument removal, which the wrapper always uses, is modelled as removing the first listener that matches.
- The settings, analytics, backup, dashboard and add-student handlers only echo canned data or clock fields, so only their guards are modelled. The seeded mock users, courses, cohorts, rooms, messages and slide texts are not modelled either.
- JsString.ToLower: case mapping covers ASCII letters only, and every character is one UTF-16 unit. Full Unicode case mapping and surrogate pairs are left out.
- Header.FirstUpper: upper-cases ASCII letters only. `toUpperCase` also maps non-ASCII letters, and some of them grow (`ß` becomes `SS`); that case mapping is left out.
- Header.Initials: the bound of two characters and the absence of lower-case letters hold for the ASCII case mapping modelled. With full Unicode mapping a name starting with `ß` gives longer initials.
- JsString.ParseIntOfNatToString: numbers are unbounded. The loss of precision of `parseInt` above 2^53 is not modelled.
- Models.ApplyFieldwise: object spread is modelled per key. Key order and patch keys explicitly set to `undefined` are not distinguished from absent keys.
- AppRoutes.Resolve: paths match exactly. Trailing slashes, nested routes and the layouts' own rendering are not modelled.
- HeroSlideshow.Resume: several pending resume timeouts may fire in any order. Only a single firing is modelled, and the 5- and 10-second delays are not modelled.
- ThemeStore.Rehydrate: the `if (state)` test in the rehydration hook is treated as always true.
- DataService.GetUserData: a `user_profile` value written by something else, or an empty string, is not modelled. The key holds only profiles written by `saveUserData`.
- TimeAgo.Ago: dates are milliseconds since the epoch. Parsing date strings, `toLocaleDateString` and floating-point time are left out.
- Presentational components (`ThemeToggle`, the landing sections, the layouts, the login and register pages, the dashboard) hold no modelled logic. The Supabase client, the REST `api.ts` wrapper and `server/src/routes/auth.ts` are not part of this model.
