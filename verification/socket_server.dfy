/** The real-time server: the handshake gate, the registry of connected users, room
    membership and every event handler, as pure transitions on an explicit state.
    Each transition returns the new state together with the deliveries it emits. */
module SocketServer {
  import opened Wrappers
  import opened Identity
  import opened Protocol
  import opened JsString
  import OM = OrderedMap

  type UserId = string

  /** The three room namespaces: `user:<id>`, `cohort:<id>` and `chat:<id>`. */
  datatype RoomKey = UserRoom(user: string) | CohortRoom(cohort: string) | ChatRoom(room: string)

  /** The room name used on the wire. */
  function RoomName(k: RoomKey): string {
    match k
    case UserRoom(u) => "user:" + u
    case CohortRoom(c) => "cohort:" + c
    case ChatRoom(r) => "chat:" + r
  }

  /** The prefixes keep the namespaces apart: no two keys share a room name. */
  lemma RoomNameInjective(a: RoomKey, b: RoomKey)
    ensures RoomName(a) == RoomName(b) <==> a == b
  {
    if RoomName(a) == RoomName(b) {
      var n := RoomName(a);
      match a {
        case UserRoom(u) =>
          assert n[0] == 'u' && n[5..] == u;
          match b {
            case UserRoom(v) => assert n[5..] == v;
            case CohortRoom(_) =>
            case ChatRoom(_) =>
          }
        case CohortRoom(c) =>
          assert n[1] == 'o' && n[7..] == c;
          match b {
            case UserRoom(_) =>
            case CohortRoom(v) => assert n[7..] == v;
            case ChatRoom(_) =>
          }
        case ChatRoom(r) =>
          assert n[1] == 'h' && n[5..] == r;
          match b {
            case UserRoom(_) =>
            case CohortRoom(_) =>
            case ChatRoom(v) => assert n[5..] == v;
          }
      }
    }
  }

  /** Room membership. A room nobody is in is absent from the map. */
  type Rooms = map<RoomKey, set<SocketId>>

  function Members(rooms: Rooms, k: RoomKey): set<SocketId> {
    if k in rooms then rooms[k] else {}
  }

  predicate NoEmptyRoom(rooms: Rooms) {
    forall k :: k in rooms ==> rooms[k] != {}
  }

  /** `socket.join(room)`. */
  function AddMember(rooms: Rooms, k: RoomKey, x: SocketId): (r: Rooms)
    ensures forall k' :: Members(r, k') == if k' == k then Members(rooms, k) + {x} else Members(rooms, k')
    ensures NoEmptyRoom(rooms) ==> NoEmptyRoom(r)
  {
    rooms[k := Members(rooms, k) + {x}]
  }

  /** `socket.leave(room)`; a room that becomes empty disappears. */
  function RemoveMember(rooms: Rooms, k: RoomKey, x: SocketId): (r: Rooms)
    ensures forall k' :: Members(r, k') == if k' == k then Members(rooms, k) - {x} else Members(rooms, k')
    ensures NoEmptyRoom(rooms) ==> NoEmptyRoom(r)
  {
    var left := Members(rooms, k) - {x};
    if left == {} then rooms - {k} else rooms[k := left]
  }

  /** What the Socket.IO library does to a socket's rooms when it disconnects. */
  function RemoveEverywhere(rooms: Rooms, x: SocketId): (r: Rooms)
    ensures forall k :: Members(r, k) == Members(rooms, k) - {x}
    ensures NoEmptyRoom(r)
  {
    map k | k in rooms && rooms[k] - {x} != {} :: rooms[k] - {x}
  }

  /** The registry value: the spread of the never-assigned `socket.user` contributes
      nothing, so an entry is just the socket id. */
  datatype Entry = Entry(socketId: SocketId)

  /** What the gate attaches to a socket. */
  datatype SocketCtx = SocketCtx(userId: UserId, role: Role, cohortId: Option<string>)

  /** The server: the `connectedUsers` map, the live sockets and the rooms. */
  datatype State = State(registry: seq<(UserId, Entry)>, sockets: map<SocketId, SocketCtx>, rooms: Rooms)

  const Initial: State := State([], map[], map[])

  /** One emission: the set of sockets it reaches and the event. */
  datatype Delivery = Delivery(to: set<SocketId>, event: ServerEvent)

  /** The events socket `x` receives from a sequence of emissions, in order. */
  function Inbox(out: seq<Delivery>, x: SocketId): (r: seq<ServerEvent>)
    ensures |r| <= |out|
    ensures forall e :: e in r ==> exists i :: 0 <= i < |out| && out[i].event == e && x in out[i].to
    decreases |out|
  {
    if |out| == 0 then []
    else (if x in out[0].to then [out[0].event] else []) + Inbox(out[1..], x)
  }

  datatype Step = Step(state: State, out: seq<Delivery>)

  /** The outgoing event name of each server event. */
  function EventName(e: ServerEvent): string {
    match e
    case JoinedChatRoom(_) => "joined_chat_room"
    case LeftChatRoom(_) => "left_chat_room"
    case NewMessage(_, _, _, _, _, _) => "new_message"
    case UserTyping(_, _) => "user_typing"
    case UserStoppedTyping(_, _) => "user_stopped_typing"
    case UserStatusChanged(_, _) => "user_status_changed"
    case Notification(_) => "notification"
    case NotificationMarkedRead(_) => "notification_marked_read"
  }

  // ----- the well-formedness invariant -----

  /** Every registry entry names a live socket of that user. */
  ghost predicate RegistryLive(s: State) {
    forall u :: OM.Get(s.registry, u).Some? ==>
      OM.Get(s.registry, u).value.socketId in s.sockets &&
      s.sockets[OM.Get(s.registry, u).value.socketId].userId == u
  }


  /** Every live socket sits in its user room, and in its cohort room when it has a cohort. */
  predicate AutoJoined(s: State) {
    forall x :: x in s.sockets ==>
      x in Members(s.rooms, UserRoom(s.sockets[x].userId)) &&
      (Truthy(s.sockets[x].cohortId) ==> x in Members(s.rooms, CohortRoom(s.sockets[x].cohortId.value)))
  }

  /** Rooms hold only live sockets, and user and cohort rooms only sockets of that
      user or cohort. */
  ghost predicate RoomsMatch(s: State) {
    forall k, x :: x in Members(s.rooms, k) ==>
      x in s.sockets &&
      (k.UserRoom? ==> x in s.sockets && s.sockets[x].userId == k.user) &&
      (k.CohortRoom? ==> x in s.sockets && s.sockets[x].cohortId == Some(k.cohort))
  }

  ghost predicate Wf(s: State) {
    OM.DistinctKeys(s.registry) && RegistryLive(s) && NoEmptyRoom(s.rooms) && AutoJoined(s) && RoomsMatch(s)
  }

  lemma InitialWf()
    ensures Wf(Initial)
  {
  }

  /** A live socket is in exactly one user room, its own. */
  lemma OneUserRoom(s: State, x: SocketId)
    requires Wf(s) && x in s.sockets
    ensures forall k: RoomKey :: k.UserRoom? && x in Members(s.rooms, k) <==> k == UserRoom(s.sockets[x].userId)
  {
    forall k: RoomKey
      ensures k.UserRoom? && x in Members(s.rooms, k) <==> k == UserRoom(s.sockets[x].userId)
    {
      if k.UserRoom? && x in Members(s.rooms, k) {
        assert s.sockets[x].userId == k.user;
      }
    }
  }

  /** A live socket is in at most one cohort room, and in none when it has no cohort. */
  lemma AtMostOneCohortRoom(s: State, x: SocketId)
    requires Wf(s) && x in s.sockets
    ensures forall k: RoomKey :: k.CohortRoom? && x in Members(s.rooms, k) ==> s.sockets[x].cohortId == Some(k.cohort)
    ensures s.sockets[x].cohortId.None? ==> forall k: RoomKey :: k.CohortRoom? ==> x !in Members(s.rooms, k)
  {
  }

  // ----- the handshake gate and the connection handler -----

  const NoTokenError: string := "Authentication error: No token provided"
  const InvalidTokenError: string := "Authentication error: Invalid token"

  /** The `io.use` middleware. A falsy token is refused before verification; a token
      the verifier rejects is refused with the second message; otherwise only the user
      id and role are copied onto the socket, never the cohort. */
  function Authenticate(verify: Verifier, token: Option<string>): (r: Result<SocketCtx, string>)
    ensures !Truthy(token) ==> r == Err(NoTokenError)
    ensures Truthy(token) && verify(token.value).None? ==> r == Err(InvalidTokenError)
    ensures Truthy(token) && verify(token.value).Some? ==>
      r.Ok? && r.value.userId == verify(token.value).value.userId &&
      r.value.role == verify(token.value).value.role && r.value.cohortId.None?
  {
    if !Truthy(token) then Err(NoTokenError)
    else match verify(token.value)
      case None => Err(InvalidTokenError)
      case Some(c) => Ok(SocketCtx(c.userId, c.role, None))
  }

  /** The `connection` handler: record the user, join the user room, and join the
      cohort room when the socket has a truthy cohort. */
  function Connect(s: State, sid: SocketId, ctx: SocketCtx): (r: State)
    requires sid !in s.sockets
    ensures OM.Get(r.registry, ctx.userId) == Some(Entry(sid))
    ensures forall u :: u != ctx.userId ==> OM.Get(r.registry, u) == OM.Get(s.registry, u)
    ensures r.sockets == s.sockets[sid := ctx]
    ensures forall k :: (Members(r.rooms, k) ==
        if k == UserRoom(ctx.userId) || (Truthy(ctx.cohortId) && k == CohortRoom(ctx.cohortId.value))
        then Members(s.rooms, k) + {sid}
        else Members(s.rooms, k))
  {
    var joined := AddMember(s.rooms, UserRoom(ctx.userId), sid);
    var rooms := if Truthy(ctx.cohortId) then AddMember(joined, CohortRoom(ctx.cohortId.value), sid) else joined;
    State(OM.Set(s.registry, ctx.userId, Entry(sid)), s.sockets[sid := ctx], rooms)
  }

  lemma ConnectRegistryLive(s: State, sid: SocketId, ctx: SocketCtx)
    requires Wf(s) && sid !in s.sockets
    ensures RegistryLive(Connect(s, sid, ctx))
  {
    var r := Connect(s, sid, ctx);
    forall u | OM.Get(r.registry, u).Some?
      ensures OM.Get(r.registry, u).value.socketId in r.sockets
      ensures r.sockets[OM.Get(r.registry, u).value.socketId].userId == u
    {
      if u != ctx.userId {
        var e := OM.Get(s.registry, u).value.socketId;
        assert e in s.sockets;
        assert e != sid;
      }
    }
  }

  /** The new socket joins its own rooms and no old socket leaves any. */
  lemma AutoJoinedAfterJoin(s: State, r: State, sid: SocketId, ctx: SocketCtx)
    requires AutoJoined(s)
    requires r.sockets == s.sockets[sid := ctx]
    requires forall k :: (Members(r.rooms, k) ==
        if k == UserRoom(ctx.userId) || (Truthy(ctx.cohortId) && k == CohortRoom(ctx.cohortId.value))
        then Members(s.rooms, k) + {sid}
        else Members(s.rooms, k))
    ensures AutoJoined(r)
  {
    forall x | x in r.sockets
      ensures x in Members(r.rooms, UserRoom(r.sockets[x].userId))
      ensures Truthy(r.sockets[x].cohortId) ==> x in Members(r.rooms, CohortRoom(r.sockets[x].cohortId.value))
    {
      if x != sid {
        assert r.sockets[x] == s.sockets[x];
      }
    }
  }

  lemma ConnectAutoJoined(s: State, sid: SocketId, ctx: SocketCtx)
    requires Wf(s) && sid !in s.sockets
    ensures AutoJoined(Connect(s, sid, ctx))
  {
    AutoJoinedAfterJoin(s, Connect(s, sid, ctx), sid, ctx);
  }

  /** Adding a new socket to its user room and, when it has a truthy cohort, to its
      cohort room keeps rooms matching their members. */
  lemma RoomsMatchAfterJoin(s: State, r: State, sid: SocketId, ctx: SocketCtx)
    requires RoomsMatch(s) && sid !in s.sockets
    requires r.sockets == s.sockets[sid := ctx]
    requires forall k :: (Members(r.rooms, k) ==
        if k == UserRoom(ctx.userId) || (Truthy(ctx.cohortId) && k == CohortRoom(ctx.cohortId.value))
        then Members(s.rooms, k) + {sid}
        else Members(s.rooms, k))
    ensures RoomsMatch(r)
  {
    forall k, x | x in Members(r.rooms, k)
      ensures x in r.sockets
      ensures k.UserRoom? ==> x in r.sockets && r.sockets[x].userId == k.user
      ensures k.CohortRoom? ==> x in r.sockets && r.sockets[x].cohortId == Some(k.cohort)
    {
      if x == sid {
        assert sid !in Members(s.rooms, k);
      } else {
        assert x in Members(s.rooms, k);
      }
    }
  }

  lemma ConnectRoomsMatch(s: State, sid: SocketId, ctx: SocketCtx)
    requires Wf(s) && sid !in s.sockets
    ensures RoomsMatch(Connect(s, sid, ctx))
  {
    RoomsMatchAfterJoin(s, Connect(s, sid, ctx), sid, ctx);
  }

  lemma ConnectWf(s: State, sid: SocketId, ctx: SocketCtx)
    requires Wf(s) && sid !in s.sockets
    ensures Wf(Connect(s, sid, ctx))
  {
    ConnectRegistryLive(s, sid, ctx);
    ConnectAutoJoined(s, sid, ctx);
    ConnectRoomsMatch(s, sid, ctx);
  }

  /** A connection attempt either is refused with the gate's message, leaving no
      trace, or is admitted and runs the connection handler. */
  datatype Admission = Admitted(state: State) | Refused(error: string)

  function Admit(s: State, verify: Verifier, token: Option<string>, sid: SocketId): (r: Admission)
    requires sid !in s.sockets
    ensures r.Refused? <==> !Truthy(token) || verify(token.value).None?
    ensures r.Refused? ==> r.error == if Truthy(token) then InvalidTokenError else NoTokenError
    ensures r.Admitted? ==> r.state == Connect(s, sid, SocketCtx(verify(token.value).value.userId, verify(token.value).value.role, None))
  {
    match Authenticate(verify, token)
    case Err(e) => Refused(e)
    case Ok(ctx) => Admitted(Connect(s, sid, ctx))
  }

  /** An admitted socket is online under its token's user, sits in that user's room
      and in no other room, whatever cohort its token carries. */
  lemma AdmittedJoinsOnlyUserRoom(s: State, verify: Verifier, token: Option<string>, sid: SocketId)
    requires Wf(s) && sid !in s.sockets
    requires Admit(s, verify, token, sid).Admitted?
    ensures var r := Admit(s, verify, token, sid).state;
      var u := verify(token.value).value.userId;
      IsUserOnline(r, u) &&
      OM.Get(r.registry, u) == Some(Entry(sid)) &&
      forall k :: sid in Members(r.rooms, k) <==> k == UserRoom(u)
  {
    var ctx := SocketCtx(verify(token.value).value.userId, verify(token.value).value.role, None);
    var r := Connect(s, sid, ctx);
    assert Admit(s, verify, token, sid).state == r;
    forall k ensures sid in Members(r.rooms, k) <==> k == UserRoom(ctx.userId) {
      assert sid !in Members(s.rooms, k);
    }
  }

  // ----- the per-socket event handlers -----

  /** `join_chat_room`: join the chat room and acknowledge to this socket only. */
  function OnJoinChatRoom(s: State, sid: SocketId, roomId: string): (r: Step)
    requires sid in s.sockets
    ensures r.state.registry == s.registry && r.state.sockets == s.sockets
    ensures forall k :: Members(r.state.rooms, k) == if k == ChatRoom(roomId) then Members(s.rooms, k) + {sid} else Members(s.rooms, k)
    ensures forall x :: Inbox(r.out, x) == if x == sid then [JoinedChatRoom(roomId)] else []
  {
    Step(s.(rooms := AddMember(s.rooms, ChatRoom(roomId), sid)), [Delivery({sid}, JoinedChatRoom(roomId))])
  }

  /** `leave_chat_room`: leave the chat room and acknowledge to this socket only. */
  function OnLeaveChatRoom(s: State, sid: SocketId, roomId: string): (r: Step)
    requires sid in s.sockets
    ensures r.state.registry == s.registry && r.state.sockets == s.sockets
    ensures forall k :: Members(r.state.rooms, k) == if k == ChatRoom(roomId) then Members(s.rooms, k) - {sid} else Members(s.rooms, k)
    ensures forall x :: Inbox(r.out, x) == if x == sid then [LeftChatRoom(roomId)] else []
  {
    Step(s.(rooms := RemoveMember(s.rooms, ChatRoom(roomId), sid)), [Delivery({sid}, LeftChatRoom(roomId))])
  }

  /** `send_message`: one `new_message` to every member of the chat room, the sender
      included when it is a member; the temporary id is `temp_` and the clock reading. */
  function OnSendMessage(s: State, sid: SocketId, data: MessageData, now: nat): (r: Step)
    requires sid in s.sockets
    ensures r.state == s
    ensures forall x :: (Inbox(r.out, x) ==
        if x in Members(s.rooms, ChatRoom(data.chatRoomId))
        then [NewMessage("temp_" + NatToString(now), data.chatRoomId, s.sockets[sid].userId, data.message, data.msgType, now)]
        else [])
  {
    var msg := NewMessage("temp_" + NatToString(now), data.chatRoomId, s.sockets[sid].userId, data.message, data.msgType, now);
    Step(s, [Delivery(Members(s.rooms, ChatRoom(data.chatRoomId)), msg)])
  }

  /** `typing_start`: tell the other members of the chat room. */
  function OnTypingStart(s: State, sid: SocketId, roomId: string): (r: Step)
    requires sid in s.sockets
    ensures r.state == s
    ensures forall x :: (Inbox(r.out, x) ==
        if x != sid && x in Members(s.rooms, ChatRoom(roomId)) then [UserTyping(s.sockets[sid].userId, roomId)] else [])
  {
    Step(s, [Delivery(Members(s.rooms, ChatRoom(roomId)) - {sid}, UserTyping(s.sockets[sid].userId, roomId))])
  }

  /** `typing_stop`: tell the other members of the chat room. */
  function OnTypingStop(s: State, sid: SocketId, roomId: string): (r: Step)
    requires sid in s.sockets
    ensures r.state == s
    ensures forall x :: (Inbox(r.out, x) ==
        if x != sid && x in Members(s.rooms, ChatRoom(roomId)) then [UserStoppedTyping(s.sockets[sid].userId, roomId)] else [])
  {
    Step(s, [Delivery(Members(s.rooms, ChatRoom(roomId)) - {sid}, UserStoppedTyping(s.sockets[sid].userId, roomId))])
  }

  /** `status_update`: tell the rest of the cohort, if the socket has one. The registry
      is not touched. */
  function OnStatusUpdate(s: State, sid: SocketId, status: string): (r: Step)
    requires sid in s.sockets
    ensures r.state == s
    ensures forall x :: (Inbox(r.out, x) ==
        if Truthy(s.sockets[sid].cohortId) && x != sid && x in Members(s.rooms, CohortRoom(s.sockets[sid].cohortId.value))
        then [UserStatusChanged(s.sockets[sid].userId, status)]
        else [])
  {
    var ctx := s.sockets[sid];
    if Truthy(ctx.cohortId)
    then Step(s, [Delivery(Members(s.rooms, CohortRoom(ctx.cohortId.value)) - {sid}, UserStatusChanged(ctx.userId, status))])
    else Step(s, [])
  }

  /** `mark_notification_read`: acknowledge to this socket only. */
  function OnMarkNotificationRead(s: State, sid: SocketId, notificationId: string): (r: Step)
    requires sid in s.sockets
    ensures r.state == s
    ensures forall x :: Inbox(r.out, x) == if x == sid then [NotificationMarkedRead(notificationId)] else []
  {
    Step(s, [Delivery({sid}, NotificationMarkedRead(notificationId))])
  }

  /** `disconnect`: delete the registry entry of this socket's user, whichever socket it
      names; tell the rest of the cohort the user is offline; then the library drops
      the socket from every room. */
  function OnDisconnect(s: State, sid: SocketId): (r: Step)
    requires sid in s.sockets
    ensures !OM.Has(r.state.registry, s.sockets[sid].userId) || !OM.DistinctKeys(s.registry)
    ensures forall u :: u != s.sockets[sid].userId ==> OM.Get(r.state.registry, u) == OM.Get(s.registry, u)
    ensures r.state.sockets == s.sockets - {sid}
    ensures forall k :: Members(r.state.rooms, k) == Members(s.rooms, k) - {sid}
    ensures forall x :: (Inbox(r.out, x) ==
        if Truthy(s.sockets[sid].cohortId) && x != sid && x in Members(s.rooms, CohortRoom(s.sockets[sid].cohortId.value))
        then [UserStatusChanged(s.sockets[sid].userId, "offline")]
        else [])
  {
    var ctx := s.sockets[sid];
    var out := if Truthy(ctx.cohortId)
      then [Delivery(Members(s.rooms, CohortRoom(ctx.cohortId.value)) - {sid}, UserStatusChanged(ctx.userId, "offline"))]
      else [];
    Step(State(OM.Delete(s.registry, ctx.userId), s.sockets - {sid}, RemoveEverywhere(s.rooms, sid)), out)
  }

  // ----- helpers called by the HTTP side -----

  /** `sendNotificationToUser`: one `notification` to every socket in the user room. */
  function SendNotificationToUser(s: State, userId: UserId, payload: string): (out: seq<Delivery>)
    ensures forall x :: Inbox(out, x) == if x in Members(s.rooms, UserRoom(userId)) then [Notification(payload)] else []
  {
    [Delivery(Members(s.rooms, UserRoom(userId)), Notification(payload))]
  }

  /** `sendNotificationToCohort`: one `notification` to every socket in the cohort room. */
  function SendNotificationToCohort(s: State, cohortId: string, payload: string): (out: seq<Delivery>)
    ensures forall x :: Inbox(out, x) == if x in Members(s.rooms, CohortRoom(cohortId)) then [Notification(payload)] else []
  {
    [Delivery(Members(s.rooms, CohortRoom(cohortId)), Notification(payload))]
  }

  /** `getConnectedUsers`: the registry values in insertion order. */
  function GetConnectedUsers(s: State): (r: seq<Entry>)
    ensures |r| == |s.registry|
    ensures forall i :: 0 <= i < |r| ==> r[i] == s.registry[i].1
  {
    OM.Values(s.registry)
  }

  /** `isUserOnline`: whether the user is a key of the registry. */
  predicate IsUserOnline(s: State, u: UserId): (r: bool)
    ensures r <==> exists i :: 0 <= i < |s.registry| && s.registry[i].0 == u
  {
    OM.Has(s.registry, u)
  }

  // ----- dispatch -----

  /** The names of the client events the server listens for. */
  const HandledNames: set<string> :=
    {"join_chat_room", "leave_chat_room", "send_message", "typing_start", "typing_stop",
     "status_update", "mark_notification_read"}

  /** Route a client packet to its handler. A name without a handler, or a payload of
      the wrong shape, does nothing. */
  function Dispatch(s: State, sid: SocketId, p: Packet, now: nat): (r: Step)
    requires sid in s.sockets
    ensures p.name !in HandledNames ==> r == Step(s, [])
    ensures p.name != "join_chat_room" && p.name != "leave_chat_room" ==> r.state == s
    ensures r.state.registry == s.registry && r.state.sockets == s.sockets
  {
    match p.arg
    case ArgString(a) =>
      if p.name == "join_chat_room" then OnJoinChatRoom(s, sid, a)
      else if p.name == "leave_chat_room" then OnLeaveChatRoom(s, sid, a)
      else if p.name == "typing_start" then OnTypingStart(s, sid, a)
      else if p.name == "typing_stop" then OnTypingStop(s, sid, a)
      else if p.name == "status_update" then OnStatusUpdate(s, sid, a)
      else if p.name == "mark_notification_read" then OnMarkNotificationRead(s, sid, a)
      else Step(s, [])
    case ArgMessage(d) =>
      if p.name == "send_message" then OnSendMessage(s, sid, d, now) else Step(s, [])
  }

  // ----- properties of the transitions -----

  /** Adding a live socket to a chat room keeps rooms matching their members. */
  lemma RoomsMatchAfterChatJoin(s: State, r: State, sid: SocketId, roomId: string)
    requires RoomsMatch(s) && sid in s.sockets
    requires r.sockets == s.sockets
    requires forall k :: Members(r.rooms, k) == if k == ChatRoom(roomId) then Members(s.rooms, k) + {sid} else Members(s.rooms, k)
    ensures RoomsMatch(r)
  {
    forall k, x | x in Members(r.rooms, k)
      ensures x in r.sockets
      ensures k.UserRoom? ==> x in r.sockets && r.sockets[x].userId == k.user
      ensures k.CohortRoom? ==> x in r.sockets && r.sockets[x].cohortId == Some(k.cohort)
    {
      if k != ChatRoom(roomId) {
        assert x in Members(s.rooms, k);
      }
    }
  }

  lemma JoinWf(s: State, sid: SocketId, roomId: string)
    requires Wf(s) && sid in s.sockets
    ensures Wf(OnJoinChatRoom(s, sid, roomId).state)
  {
    RoomsMatchAfterChatJoin(s, OnJoinChatRoom(s, sid, roomId).state, sid, roomId);
  }

  lemma LeaveWf(s: State, sid: SocketId, roomId: string)
    requires Wf(s) && sid in s.sockets
    ensures Wf(OnLeaveChatRoom(s, sid, roomId).state)
  {
    var r := OnLeaveChatRoom(s, sid, roomId).state;
    forall x | x in r.sockets
      ensures x in Members(r.rooms, UserRoom(r.sockets[x].userId))
      ensures Truthy(r.sockets[x].cohortId) ==> x in Members(r.rooms, CohortRoom(r.sockets[x].cohortId.value))
    {
      assert x in Members(s.rooms, UserRoom(s.sockets[x].userId));
    }
  }

  lemma DisconnectWf(s: State, sid: SocketId)
    requires Wf(s) && sid in s.sockets
    ensures Wf(OnDisconnect(s, sid).state)
  {
    var r := OnDisconnect(s, sid).state;
    var gone := s.sockets[sid].userId;
    forall u | OM.Get(r.registry, u).Some?
      ensures OM.Get(r.registry, u).value.socketId in r.sockets
      ensures r.sockets[OM.Get(r.registry, u).value.socketId].userId == u
    {
      assert u != gone;
      var e := OM.Get(s.registry, u).value.socketId;
      assert s.sockets[e].userId == u;
      assert e != sid;
    }
    assert RegistryLive(r);
    forall x | x in r.sockets
      ensures x in Members(r.rooms, UserRoom(r.sockets[x].userId))
      ensures Truthy(r.sockets[x].cohortId) ==> x in Members(r.rooms, CohortRoom(r.sockets[x].cohortId.value))
    {
      assert r.sockets[x] == s.sockets[x];
      assert x in Members(s.rooms, UserRoom(s.sockets[x].userId));
    }
    assert AutoJoined(r);
    forall k, x | x in Members(r.rooms, k)
      ensures x in r.sockets
      ensures k.UserRoom? ==> r.sockets[x].userId == k.user
      ensures k.CohortRoom? ==> r.sockets[x].cohortId == Some(k.cohort)
    {
      assert x in Members(s.rooms, k) && x != sid;
    }
  }

  /** Every packet a connected socket sends keeps the server well formed. */
  lemma DispatchWf(s: State, sid: SocketId, p: Packet, now: nat)
    requires Wf(s) && sid in s.sockets
    ensures Wf(Dispatch(s, sid, p, now).state)
  {
    if p.arg.ArgString? {
      if p.name == "join_chat_room" {
        JoinWf(s, sid, p.arg.s);
      } else if p.name == "leave_chat_room" {
        LeaveWf(s, sid, p.arg.s);
      }
    }
  }

  /** Joining a chat room twice is the same as joining it once. */
  lemma JoinIdempotent(s: State, sid: SocketId, roomId: string)
    requires sid in s.sockets
    ensures var once := OnJoinChatRoom(s, sid, roomId).state;
      OnJoinChatRoom(once, sid, roomId).state == once
  {
    var once := OnJoinChatRoom(s, sid, roomId).state;
    var twice := OnJoinChatRoom(once, sid, roomId).state;
    assert twice.rooms == once.rooms by {
      assert Members(once.rooms, ChatRoom(roomId)) + {sid} == Members(once.rooms, ChatRoom(roomId));
    }
  }

  /** Leaving a chat room twice is the same as leaving it once. */
  lemma LeaveIdempotent(s: State, sid: SocketId, roomId: string)
    requires sid in s.sockets && NoEmptyRoom(s.rooms)
    ensures var once := OnLeaveChatRoom(s, sid, roomId).state;
      OnLeaveChatRoom(once, sid, roomId).state == once
  {
    var once := OnLeaveChatRoom(s, sid, roomId).state;
    var twice := OnLeaveChatRoom(once, sid, roomId).state;
    var k := ChatRoom(roomId);
    assert sid !in Members(once.rooms, k);
    if k in once.rooms {
      assert Members(once.rooms, k) - {sid} == once.rooms[k];
      assert once.rooms[k] != {};
    }
  }

  /** After joining, the socket receives what is later sent to the room, itself included;
      after leaving, it does not. */
  lemma JoinThenSendReachesSender(s: State, sid: SocketId, roomId: string, text: string, kind: string, now: nat)
    requires sid in s.sockets
    ensures var joined := OnJoinChatRoom(s, sid, roomId).state;
      |Inbox(OnSendMessage(joined, sid, MessageData(roomId, text, kind), now).out, sid)| == 1
    ensures var left := OnLeaveChatRoom(s, sid, roomId).state;
      Inbox(OnSendMessage(left, sid, MessageData(roomId, text, kind), now).out, sid) == []
  {
  }

  /** Typing indicators never come back to the socket that is typing. */
  lemma TypingNeverEchoes(s: State, sid: SocketId, roomId: string)
    requires sid in s.sockets
    ensures Inbox(OnTypingStart(s, sid, roomId).out, sid) == []
    ensures Inbox(OnTypingStop(s, sid, roomId).out, sid) == []
  {
  }

  /** Disconnecting an older socket of a user takes the user offline even while a newer
      socket of the same user, the one the registry names, is still connected. */
  lemma StaleDisconnectTakesUserOffline(s: State, older: SocketId, newer: SocketId)
    requires Wf(s)
    requires older in s.sockets && newer in s.sockets && older != newer
    requires s.sockets[older].userId == s.sockets[newer].userId
    ensures var r := OnDisconnect(s, older).state;
      newer in r.sockets && !IsUserOnline(r, s.sockets[newer].userId)
  {
  }

  /** On connect the socket joins its user room, its cohort room exactly when it has a
      truthy cohort, and nothing else. */
  lemma ConnectJoins(s: State, sid: SocketId, ctx: SocketCtx)
    requires Wf(s) && sid !in s.sockets
    ensures var r := Connect(s, sid, ctx);
      IsUserOnline(r, ctx.userId) &&
      forall k :: sid in Members(r.rooms, k) <==>
        k == UserRoom(ctx.userId) || (Truthy(ctx.cohortId) && k == CohortRoom(ctx.cohortId.value))
  {
  }

  /** A second connection of the same user replaces the registry entry: the user
      stays listed once, under the newer socket. */
  lemma ReconnectReplacesEntry(s: State, sid: SocketId, ctx: SocketCtx)
    requires Wf(s) && sid !in s.sockets && IsUserOnline(s, ctx.userId)
    ensures |GetConnectedUsers(Connect(s, sid, ctx))| == |GetConnectedUsers(s)|
    ensures OM.Get(Connect(s, sid, ctx).registry, ctx.userId) == Some(Entry(sid))
  {
    assert OM.Keys(Connect(s, sid, ctx).registry) == OM.Keys(s.registry);
  }

  /** In a well-formed server `getConnectedUsers` lists one entry per online user,
      each naming a live socket of that user. */
  lemma {:induction false} ConnectedUsersOnePerUser(s: State)
    requires Wf(s)
    ensures |GetConnectedUsers(s)| == |OM.KeySet(s.registry)|
    ensures forall i :: 0 <= i < |GetConnectedUsers(s)| ==>
      GetConnectedUsers(s)[i].socketId in s.sockets &&
      s.sockets[GetConnectedUsers(s)[i].socketId].userId == s.registry[i].0
  {
    OM.DistinctKeysCount(s.registry);
    forall i | 0 <= i < |GetConnectedUsers(s)|
      ensures GetConnectedUsers(s)[i].socketId in s.sockets
      ensures s.sockets[GetConnectedUsers(s)[i].socketId].userId == s.registry[i].0
    {
      OM.GetAt(s.registry, i);
    }
  }

  /** A user notification reaches exactly the live sockets of that user. */
  lemma UserNotificationReachesUser(s: State, userId: UserId, payload: string, x: SocketId)
    requires Wf(s)
    ensures (|Inbox(SendNotificationToUser(s, userId, payload), x)| == 1) <==> (x in s.sockets && s.sockets[x].userId == userId)
  {
  }

  /** A cohort notification reaches exactly the live sockets whose cohort it is. */
  lemma CohortNotificationReachesCohort(s: State, cohortId: string, payload: string, x: SocketId)
    requires Wf(s) && cohortId != ""
    ensures (|Inbox(SendNotificationToCohort(s, cohortId, payload), x)| == 1) <==> (x in s.sockets && s.sockets[x].cohortId == Some(cohortId))
  {
  }

  /** No socket carries a cohort: what every state reached through `Admit` satisfies. */
  ghost predicate NoCohorts(s: State) {
    forall x :: x in s.sockets ==> s.sockets[x].cohortId.None?
  }

  lemma {:induction false} AdmitKeepsNoCohorts(s: State, verify: Verifier, token: Option<string>, sid: SocketId)
    requires NoCohorts(s) && sid !in s.sockets
    requires Admit(s, verify, token, sid).Admitted?
    ensures NoCohorts(Admit(s, verify, token, sid).state)
  {
    var r := Admit(s, verify, token, sid).state;
    forall x | x in r.sockets
      ensures r.sockets[x].cohortId.None?
    {
      if x != sid {
        assert r.sockets[x] == s.sockets[x];
      }
    }
  }

  lemma DisconnectKeepsNoCohorts(s: State, sid: SocketId)
    requires NoCohorts(s) && sid in s.sockets
    ensures NoCohorts(OnDisconnect(s, sid).state)
  {
  }

  lemma DispatchKeepsNoCohorts(s: State, sid: SocketId, p: Packet, now: nat)
    requires NoCohorts(s) && sid in s.sockets
    ensures NoCohorts(Dispatch(s, sid, p, now).state)
  {
  }

  /** Since the gate never sets a cohort, cohort notifications, status broadcasts and
      offline notices reach nobody. */
  lemma NoCohortBroadcasts(s: State, sid: SocketId, cohortId: string, payload: string, status: string, x: SocketId)
    requires Wf(s) && NoCohorts(s) && sid in s.sockets
    ensures Inbox(SendNotificationToCohort(s, cohortId, payload), x) == []
    ensures OnStatusUpdate(s, sid, status).out == []
    ensures Inbox(OnDisconnect(s, sid).out, x) == []
  {
    EmptyCohortRooms(s);
  }

  /** Without cohorts on the sockets every cohort room is empty. */
  lemma EmptyCohortRooms(s: State)
    requires Wf(s) && NoCohorts(s)
    ensures forall k: RoomKey :: k.CohortRoom? ==> Members(s.rooms, k) == {}
  {
    forall k: RoomKey | k.CohortRoom?
      ensures Members(s.rooms, k) == {}
    {
      var owners := set y | y in s.sockets && s.sockets[y].cohortId == Some(k.cohort);
      assert owners == {};
      assert Members(s.rooms, k) <= owners;
    }
  }
}
