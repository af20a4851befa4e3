/** The browser-side socket service: either no socket, or one socket created with the
    handshake token and carrying its registered listeners. Commands become packets
    only while a socket exists. */
module SocketClient {
  import opened Wrappers
  import opened Protocol

  /** A listener callback: one of the three the service installs itself, or a
      caller's callback, told apart by an identity. */
  datatype Callback = Internal | UserCallback(id: nat)

  datatype Listener = Listener(event: string, callback: Callback)

  /** A socket: the token it was created with, whether the transport is open, and its
      listeners in registration order. */
  datatype ClientSocket = ClientSocket(authToken: string, connected: bool, listeners: seq<Listener>)

  /** The service: the current socket, if any, and the last token given to `connect`. */
  datatype Service = Service(socket: Option<ClientSocket>, token: Option<string>)

  const Fresh: Service := Service(None, None)

  /** The connection-event listeners `connect` installs on every new socket. */
  const InternalListeners: seq<Listener> :=
    [Listener("connect", Internal), Listener("disconnect", Internal), Listener("connect_error", Internal)]

  /** `connect(token)`: remember the token and replace the socket by a new one whose
      handshake carries the token and which has only the internal listeners. */
  function Connect(svc: Service, token: string): (r: Service)
    ensures r.token == Some(token)
    ensures r.socket.Some? && r.socket.value.authToken == token
    ensures !r.socket.value.connected
    ensures r.socket.value.listeners == InternalListeners
  {
    Service(Some(ClientSocket(token, false, InternalListeners)), Some(token))
  }

  /** The transport opening or closing: the library flips `connected`. */
  function TransportChanged(svc: Service, open: bool): (r: Service)
    ensures r.token == svc.token
    ensures r.socket.Some? <==> svc.socket.Some?
    ensures r.socket.Some? ==> r.socket.value == svc.socket.value.(connected := open)
  {
    match svc.socket
    case None => svc
    case Some(sock) => svc.(socket := Some(sock.(connected := open)))
  }

  /** `disconnect()`: close and drop the socket if there is one; the token is kept. */
  function Disconnect(svc: Service): (r: Service)
    ensures r.socket.None?
    ensures r.token == svc.token
  {
    if svc.socket.Some? then svc.(socket := None) else svc
  }

  /** `isConnected()`: `this.socket?.connected || false`, so false without a socket. */
  predicate IsConnected(svc: Service): (r: bool)
    ensures svc.socket.None? ==> !r
    ensures svc.socket.Some? ==> (r <==> svc.socket.value.connected)
  {
    svc.socket.Some? && svc.socket.value.connected
  }

  /** The connection status follows the transport: a new socket is not yet connected,
      opening or closing the transport sets it, and after `disconnect` it is false
      whatever the transport did. */
  lemma IsConnectedFollowsTransport(svc: Service, token: string, open: bool)
    ensures !IsConnected(Connect(svc, token))
    ensures IsConnected(TransportChanged(Connect(svc, token), open)) == open
    ensures svc.socket.Some? ==> IsConnected(TransportChanged(svc, open)) == open
    ensures !IsConnected(Disconnect(TransportChanged(svc, open)))
  {
  }

  /** `reconnect(token)`. */
  function Reconnect(svc: Service, token: string): (r: Service)
    ensures r.socket.Some? && r.socket.value.authToken == token
  {
    Connect(Disconnect(svc), token)
  }

  // ----- commands -----

  /** The six command methods. */
  datatype Command =
    | JoinChatRoom(roomId: string)
    | LeaveChatRoom(roomId: string)
    | SendMessage(data: MessageData)
    | StartTyping(chatRoomId: string)
    | StopTyping(chatRoomId: string)
    | UpdateStatus(status: string)

  /** The packet each command puts on the wire. */
  function Encode(c: Command): Packet {
    match c
    case JoinChatRoom(r) => Packet("join_chat_room", ArgString(r))
    case LeaveChatRoom(r) => Packet("leave_chat_room", ArgString(r))
    case SendMessage(d) => Packet("send_message", ArgMessage(d))
    case StartTyping(r) => Packet("typing_start", ArgString(r))
    case StopTyping(r) => Packet("typing_stop", ArgString(r))
    case UpdateStatus(st) => Packet("status_update", ArgString(st))
  }

  /** `this.socket?.emit(...)`: one packet while a socket exists, nothing otherwise.
      Emitting does not change the service. */
  function Emit(svc: Service, c: Command): (r: Option<Packet>)
    ensures r.Some? <==> svc.socket.Some?
    ensures r.Some? ==> r.value == Encode(c)
  {
    if svc.socket.Some? then Some(Encode(c)) else None
  }

  /** Different commands never produce the same packet. */
  lemma EncodeInjective(a: Command, b: Command)
    ensures Encode(a) == Encode(b) ==> a == b
  {
  }

  // ----- listener registrations -----

  /** The seven `on...` subscription methods. */
  datatype Subscription =
    | OnNewMessage | OnUserTyping | OnUserStoppedTyping | OnUserStatusChanged
    | OnNotification | OnJoinedChatRoom | OnLeftChatRoom

  /** The event name each subscription listens for. */
  function SubscriptionName(k: Subscription): string {
    match k
    case OnNewMessage => "new_message"
    case OnUserTyping => "user_typing"
    case OnUserStoppedTyping => "user_stopped_typing"
    case OnUserStatusChanged => "user_status_changed"
    case OnNotification => "notification"
    case OnJoinedChatRoom => "joined_chat_room"
    case OnLeftChatRoom => "left_chat_room"
  }

  /** `this.socket?.on(name, callback)`: append a listener while a socket exists. */
  function On(svc: Service, k: Subscription, cb: nat): (r: Service)
    ensures svc.socket.None? ==> r == svc
    ensures svc.socket.Some? ==> (
      r.socket.Some? && r.token == svc.token &&
      r.socket.value.authToken == svc.socket.value.authToken &&
      r.socket.value.connected == svc.socket.value.connected &&
      r.socket.value.listeners == svc.socket.value.listeners + [Listener(SubscriptionName(k), UserCallback(cb))])
  {
    match svc.socket
    case None => svc
    case Some(sock) => svc.(socket := Some(sock.(listeners := sock.listeners + [Listener(SubscriptionName(k), UserCallback(cb))])))
  }

  /** The position of the first occurrence of `l`. */
  function FirstIndex(ls: seq<Listener>, l: Listener): (i: nat)
    requires l in ls
    ensures i < |ls| && ls[i] == l && l !in ls[..i]
    decreases |ls|
  {
    if ls[0] == l then 0
    else
      var j := FirstIndex(ls[1..], l);
      assert ls[..j + 1] == [ls[0]] + ls[1..][..j];
      j + 1
  }

  /** Remove the first listener of `event` with callback `cb`: exactly one registration
      goes, the earliest, and the rest keep their order. */
  function RemoveFirst(ls: seq<Listener>, event: string, cb: Callback): (r: seq<Listener>)
    ensures Listener(event, cb) !in ls ==> r == ls
    ensures Listener(event, cb) in ls ==> (
      var i := FirstIndex(ls, Listener(event, cb));
      |r| == |ls| - 1 && r[..i] == ls[..i] && r[i..] == ls[i + 1..])
  {
    var l := Listener(event, cb);
    if l in ls then ls[..FirstIndex(ls, l)] + ls[FirstIndex(ls, l) + 1..] else ls
  }

  /** Appending a listener not yet present puts its first occurrence at the end. */
  lemma {:induction false} FirstIndexOfAppended(ls: seq<Listener>, l: Listener)
    requires l !in ls
    ensures l in ls + [l] && FirstIndex(ls + [l], l) == |ls|
    decreases |ls|
  {
    assert (ls + [l])[|ls|] == l;
    if |ls| > 0 {
      assert (ls + [l])[1..] == ls[1..] + [l];
      FirstIndexOfAppended(ls[1..], l);
    }
  }

  /** The position of the first listener of `event`, or `|ls|` when it has none. */
  function FirstOfEvent(ls: seq<Listener>, event: string): (i: nat)
    ensures i <= |ls|
    ensures i < |ls| ==> ls[i].event == event
    ensures forall j :: 0 <= j < i ==> ls[j].event != event
    decreases |ls|
  {
    if |ls| == 0 || ls[0].event == event then 0 else FirstOfEvent(ls[1..], event) + 1
  }

  /** Remove the first listener of `event`, whatever its callback: the emitter's
      two-argument removal compares `cb === fn || cb.fn === fn`, and with `fn`
      undefined the second test holds for the first listener registered with `on`. */
  function RemoveFirstOfEvent(ls: seq<Listener>, event: string): (r: seq<Listener>)
    ensures FirstOfEvent(ls, event) == |ls| ==> r == ls
    ensures FirstOfEvent(ls, event) < |ls| ==> (
      var i := FirstOfEvent(ls, event);
      |r| == |ls| - 1 && r[..i] == ls[..i] && r[i..] == ls[i + 1..])
  {
    var i := FirstOfEvent(ls, event);
    if i < |ls| then ls[..i] + ls[i + 1..] else ls
  }

  /** `this.socket?.off(event, callback)`: the wrapper always passes two arguments, so
      with a callback its first registration for that event goes, and without one
      (`undefined`) the first listener of the event goes. */
  function Off(svc: Service, event: string, cb: Option<nat>): (r: Service)
    ensures svc.socket.None? ==> r == svc
    ensures svc.socket.Some? ==> (
      r.socket.Some? && r.token == svc.token &&
      r.socket.value.authToken == svc.socket.value.authToken &&
      r.socket.value.connected == svc.socket.value.connected)
    ensures svc.socket.Some? && cb.None? ==>
      r.socket.value.listeners == RemoveFirstOfEvent(svc.socket.value.listeners, event)
    ensures svc.socket.Some? && cb.Some? ==>
      r.socket.value.listeners == RemoveFirst(svc.socket.value.listeners, event, UserCallback(cb.value))
  {
    match svc.socket
    case None => svc
    case Some(sock) =>
      var ls := if cb.Some? then RemoveFirst(sock.listeners, event, UserCallback(cb.value)) else RemoveFirstOfEvent(sock.listeners, event);
      svc.(socket := Some(sock.(listeners := ls)))
  }

  /** Behind listeners of other events, the first listener of `event` is found
      where they end. */
  lemma {:induction false} FirstOfEventAfter(ls: seq<Listener>, rest: seq<Listener>, event: string)
    requires forall j :: 0 <= j < |ls| ==> ls[j].event != event
    requires |rest| > 0 && rest[0].event == event
    ensures FirstOfEvent(ls + rest, event) == |ls|
    decreases |ls|
  {
    if |ls| > 0 {
      assert (ls + rest)[1..] == ls[1..] + rest;
      FirstOfEventAfter(ls[1..], rest, event);
    } else {
      assert ls + rest == rest;
    }
  }

  /** `off(event)` without a callback removes one listener, not all of them: on a fresh
      socket, `off("connect")` drops the service's own connection logger, and a
      second subscriber of an event survives the removal of the first. */
  lemma OffWithoutCallbackRemovesOne(token: string, k: Subscription, a: nat, b: nat)
    ensures Off(Connect(Fresh, token), "connect", None).socket.value.listeners == InternalListeners[1..]
    ensures var svc := On(On(Connect(Fresh, token), k, a), k, b);
      Off(svc, SubscriptionName(k), None).socket.value.listeners ==
        InternalListeners + [Listener(SubscriptionName(k), UserCallback(b))]
  {
    var ls := InternalListeners;
    assert FirstOfEvent(ls, "connect") == 0;
    var n := SubscriptionName(k);
    var rest := [Listener(n, UserCallback(a)), Listener(n, UserCallback(b))];
    FirstOfEventAfter(ls, rest, n);
    var two := ls + rest;
    assert On(On(Connect(Fresh, token), k, a), k, b).socket.value.listeners == two;
    assert two[..3] == ls && two[4..] == [Listener(n, UserCallback(b))];
  }

  /** The names the client subscribes to. */
  function SubscribedNames(): (r: set<string>)
    ensures forall k :: SubscriptionName(k) in r
    ensures forall n :: n in r ==> exists k :: SubscriptionName(k) == n
  {
    var r := {SubscriptionName(OnNewMessage), SubscriptionName(OnUserTyping), SubscriptionName(OnUserStoppedTyping),
      SubscriptionName(OnUserStatusChanged), SubscriptionName(OnNotification), SubscriptionName(OnJoinedChatRoom),
      SubscriptionName(OnLeftChatRoom)};
    r
  }

  // ----- properties -----

  /** Before the first `connect` and after any `disconnect`, every command, subscription
      and removal does nothing. */
  lemma NoSocketNoEffect(svc: Service, c: Command, k: Subscription, cb: nat, event: string, which: Option<nat>)
    requires svc.socket.None?
    ensures Emit(svc, c).None?
    ensures On(svc, k, cb) == svc
    ensures Off(svc, event, which) == svc
    ensures !IsConnected(svc)
  {
  }

  /** `disconnect` leaves the service unconnected, and a second one changes nothing. */
  lemma DisconnectIdempotent(svc: Service)
    ensures !IsConnected(Disconnect(svc))
    ensures Disconnect(Disconnect(svc)) == Disconnect(svc)
  {
  }

  /** `reconnect` starts from a fresh socket: nothing registered on the old one survives,
      so it is the same as a plain `connect` with the new token. */
  lemma ReconnectForgetsListeners(svc: Service, token: string)
    ensures Reconnect(svc, token) == Connect(svc, token)
    ensures Reconnect(svc, token).socket.value.listeners == InternalListeners
    ensures !IsConnected(Reconnect(svc, token))
  {
  }

  /** A listener registered with `on` is removed by the matching `off`. */
  lemma OffUndoesOn(svc: Service, k: Subscription, cb: nat)
    requires svc.socket.Some?
    requires Listener(SubscriptionName(k), UserCallback(cb)) !in svc.socket.value.listeners
    ensures Off(On(svc, k, cb), SubscriptionName(k), Some(cb)) == svc
  {
    var l := Listener(SubscriptionName(k), UserCallback(cb));
    var ls := svc.socket.value.listeners;
    var after := On(svc, k, cb).socket.value.listeners;
    assert after == ls + [l];
    assert l in after by { assert after[|ls|] == l; }
    FirstIndexOfAppended(ls, l);
    assert after[..|ls|] == ls;
    assert RemoveFirst(after, SubscriptionName(k), UserCallback(cb)) == ls;
  }
}
