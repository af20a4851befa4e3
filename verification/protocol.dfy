/** What travels over the real-time connection, with no event names attached: the
    names are written down separately by the server and by the client, and a lemma
    checks that they agree. */
module Protocol {

  type SocketId = string

  /** The `send_message` payload `{chatRoomId, message, type}`. */
  datatype MessageData = MessageData(chatRoomId: string, message: string, msgType: string)

  /** The argument of a client-to-server packet: a bare string or a message payload. */
  datatype WireArg = ArgString(s: string) | ArgMessage(data: MessageData)

  /** One client-to-server emit: event name and argument. */
  datatype Packet = Packet(name: string, arg: WireArg)

  /** Server-to-client events. Message ids and creation times come from the clock. */
  datatype ServerEvent =
    | JoinedChatRoom(roomId: string)
    | LeftChatRoom(roomId: string)
    | NewMessage(id: string, chatRoomId: string, senderId: string, message: string, msgType: string, createdAt: nat)
    | UserTyping(typingUser: string, typingRoom: string)
    | UserStoppedTyping(stoppedUser: string, stoppedRoom: string)
    | UserStatusChanged(statusUser: string, status: string)
    | Notification(payload: string)
    | NotificationMarkedRead(notificationId: string)
}
