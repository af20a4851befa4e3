/** The two halves of the real-time protocol checked against each other: the client's
    packets land on the intended server handlers, the client listens for exactly the
    events the server emits to it, and the handshake token is the one the gate reads. */
module SocketAgreement {
  import opened Wrappers
  import opened Protocol
  import opened Identity
  import opened JsString
  import S = SocketServer
  import C = SocketClient

  /** The server handler each client command is written for. */
  function Intended(s: S.State, sid: SocketId, c: C.Command, now: nat): S.Step
    requires sid in s.sockets
  {
    match c
    case JoinChatRoom(r) => S.OnJoinChatRoom(s, sid, r)
    case LeaveChatRoom(r) => S.OnLeaveChatRoom(s, sid, r)
    case SendMessage(d) => S.OnSendMessage(s, sid, d, now)
    case StartTyping(r) => S.OnTypingStart(s, sid, r)
    case StopTyping(r) => S.OnTypingStop(s, sid, r)
    case UpdateStatus(st) => S.OnStatusUpdate(s, sid, st)
  }

  /** Every command the client emits is dispatched to its intended handler. */
  lemma CommandsReachTheirHandlers(s: S.State, sid: SocketId, c: C.Command, now: nat)
    requires sid in s.sockets
    ensures C.Encode(c).name in S.HandledNames
    ensures S.Dispatch(s, sid, C.Encode(c), now) == Intended(s, sid, c, now)
  {
  }

  /** The server listens for every client command and for one event the client never
      sends, `mark_notification_read`. */
  lemma HandledNamesAreCommands(n: string)
    ensures n in S.HandledNames <==> n == "mark_notification_read" || exists c :: C.Encode(c).name == n
  {
    if n in S.HandledNames {
      if n == "join_chat_room" { assert C.Encode(C.JoinChatRoom("")).name == n; }
      else if n == "leave_chat_room" { assert C.Encode(C.LeaveChatRoom("")).name == n; }
      else if n == "send_message" { assert C.Encode(C.SendMessage(MessageData("", "", ""))).name == n; }
      else if n == "typing_start" { assert C.Encode(C.StartTyping("")).name == n; }
      else if n == "typing_stop" { assert C.Encode(C.StopTyping("")).name == n; }
      else if n == "status_update" { assert C.Encode(C.UpdateStatus("")).name == n; }
    }
  }

  /** A server event of the kind each subscription listens for. */
  function Witness(k: C.Subscription): (e: ServerEvent)
    ensures S.EventName(e) == C.SubscriptionName(k)
  {
    match k
    case OnNewMessage => NewMessage("", "", "", "", "", 0)
    case OnUserTyping => UserTyping("", "")
    case OnUserStoppedTyping => UserStoppedTyping("", "")
    case OnUserStatusChanged => UserStatusChanged("", "")
    case OnNotification => Notification("")
    case OnJoinedChatRoom => JoinedChatRoom("")
    case OnLeftChatRoom => LeftChatRoom("")
  }

  /** The client subscribes to exactly the server's outgoing event names, except the
      `notification_marked_read` acknowledgement, which no subscription listens for. */
  lemma SubscriptionsMatchEmissions()
    ensures forall k :: exists e :: S.EventName(e) == C.SubscriptionName(k)
    ensures forall e :: S.EventName(e) in C.SubscribedNames() <==> S.EventName(e) != "notification_marked_read"
  {
    forall k ensures exists e :: S.EventName(e) == C.SubscriptionName(k) {
      var e := Witness(k);
    }
    forall e ensures S.EventName(e) in C.SubscribedNames() <==> S.EventName(e) != "notification_marked_read" {
      match e
      case NewMessage(_, _, _, _, _, _) => assert C.SubscriptionName(C.OnNewMessage) == S.EventName(e);
      case UserTyping(_, _) => assert C.SubscriptionName(C.OnUserTyping) == S.EventName(e);
      case UserStoppedTyping(_, _) => assert C.SubscriptionName(C.OnUserStoppedTyping) == S.EventName(e);
      case UserStatusChanged(_, _) => assert C.SubscriptionName(C.OnUserStatusChanged) == S.EventName(e);
      case Notification(_) => assert C.SubscriptionName(C.OnNotification) == S.EventName(e);
      case JoinedChatRoom(_) => assert C.SubscriptionName(C.OnJoinedChatRoom) == S.EventName(e);
      case LeftChatRoom(_) => assert C.SubscriptionName(C.OnLeftChatRoom) == S.EventName(e);
      case NotificationMarkedRead(_) =>
    }
  }

  /** The token passed to the client's `connect` is the one the server's gate checks:
      an empty one is refused before verification, and otherwise the verifier decides. */
  lemma HandshakeUsesConnectToken(s: S.State, svc: C.Service, token: string, verify: Verifier, sid: SocketId)
    requires sid !in s.sockets
    ensures var sent := Some(C.Connect(svc, token).socket.value.authToken);
      (token == "" ==> S.Admit(s, verify, sent, sid) == S.Admission.Refused(S.NoTokenError)) &&
      (token != "" ==> (S.Admit(s, verify, sent, sid).Admitted? <==> verify(token).Some?))
  {
  }

  /** From a fresh server: a client connects with a valid token, joins a room and sends
      a message; it receives its own message back, once, under a name it subscribes to. */
  lemma EchoScenario(verify: Verifier, token: string, sid: SocketId, room: string, text: string, now: nat)
    requires token != "" && verify(token).Some?
    ensures var client := C.Connect(C.Fresh, token);
      var admitted := S.Admit(S.Initial, verify, Some(client.socket.value.authToken), sid);
      admitted.Admitted? &&
      var joined := S.Dispatch(admitted.state, sid, C.Emit(client, C.JoinChatRoom(room)).value, now).state;
      var sent := S.Dispatch(joined, sid, C.Emit(client, C.SendMessage(MessageData(room, text, "text"))).value, now);
      S.Inbox(sent.out, sid) == [NewMessage("temp_" + NatToString(now), room, verify(token).value.userId, text, "text", now)] &&
      S.EventName(sent.out[0].event) in C.SubscribedNames()
  {
    var client := C.Connect(C.Fresh, token);
    var admitted := S.Admit(S.Initial, verify, Some(client.socket.value.authToken), sid);
    assert admitted.Admitted?;
    var s0 := admitted.state;
    assert sid in s0.sockets;
    var join := C.Emit(client, C.JoinChatRoom(room)).value;
    assert join == Packet("join_chat_room", ArgString(room));
    var joined := S.Dispatch(s0, sid, join, now).state;
    assert joined == S.OnJoinChatRoom(s0, sid, room).state;
    assert sid in S.Members(joined.rooms, S.ChatRoom(room));
    var data := MessageData(room, text, "text");
    var send := C.Emit(client, C.SendMessage(data)).value;
    assert send == Packet("send_message", ArgMessage(data));
    var sent := S.Dispatch(joined, sid, send, now);
    assert sent == S.OnSendMessage(joined, sid, data, now);
    assert S.EventName(sent.out[0].event) == C.SubscriptionName(C.OnNewMessage);
  }
}
