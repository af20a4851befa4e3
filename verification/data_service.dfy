/** The browser's in-memory data service and its profile slot in `localStorage`.
    The collections are parameters; the seeded sample records are not modelled.
    Promise delays resolve at once. */
module DataService {
  import opened Wrappers
  import opened JsString
  import opened SeqUtil
  import opened Models

  datatype Db = Db(users: seq<User>, courses: seq<Course>, cohorts: seq<Cohort>, rooms: seq<ChatRoom>, messages: seq<ChatMessage>)

  /** `items.find(x => x.id === id) || null`. */
  function FindById<T>(items: seq<T>, idOf: T -> string, id: string): (r: Option<T>)
    ensures r.Some? ==> idOf(r.value) == id
    ensures r.Some? ==> exists i :: 0 <= i < |items| && items[i] == r.value && forall j :: 0 <= j < i ==> idOf(items[j]) != id
    ensures r.None? <==> forall i :: 0 <= i < |items| ==> idOf(items[i]) != id
  {
    FindFirst((x: T) => idOf(x) == id, items)
  }

  function UserId(u: User): string { u.id }
  function CourseId(c: Course): string { c.id }
  function CohortId(c: Cohort): string { c.id }

  /** `getUserById`: the first user with that id, or `null`. */
  function GetUserById(db: Db, id: string): (r: Option<User>)
    ensures r.Some? ==> r.value.id == id && r.value in db.users
    ensures r.None? <==> forall u :: u in db.users ==> u.id != id
  {
    var r := FindById(db.users, UserId, id);
    assert r.None? <== forall u :: u in db.users ==> u.id != id by {
      if r.Some? {
        var i :| 0 <= i < |db.users| && db.users[i] == r.value && forall j :: 0 <= j < i ==> db.users[j].id != id;
      }
    }
    r
  }

  /** `getCourseById`. */
  function GetCourseById(db: Db, id: string): (r: Option<Course>)
    ensures r.Some? ==> r.value.id == id && r.value in db.courses
    ensures r.None? <==> forall c :: c in db.courses ==> c.id != id
  {
    var r := FindById(db.courses, CourseId, id);
    assert r.None? <== forall c :: c in db.courses ==> c.id != id by {
      if r.Some? {
        var i :| 0 <= i < |db.courses| && db.courses[i] == r.value && forall j :: 0 <= j < i ==> db.courses[j].id != id;
      }
    }
    r
  }

  /** `getCohortById`. */
  function GetCohortById(db: Db, id: string): (r: Option<Cohort>)
    ensures r.Some? ==> r.value.id == id && r.value in db.cohorts
    ensures r.None? <==> forall c :: c in db.cohorts ==> c.id != id
  {
    var r := FindById(db.cohorts, CohortId, id);
    assert r.None? <== forall c :: c in db.cohorts ==> c.id != id by {
      if r.Some? {
        var i :| 0 <= i < |db.cohorts| && db.cohorts[i] == r.value && forall j :: 0 <= j < i ==> db.cohorts[j].id != id;
      }
    }
    r
  }

  /** When two records share an id, the earlier one is found: a record appended
      later under a taken id is never returned. */
  lemma EarlierRecordShadows(db: Db, u: User)
    requires GetUserById(db, u.id).Some?
    ensures GetUserById(db.(users := db.users + [u]), u.id) == GetUserById(db, u.id)
  {
    FindFirstAppend((x: User) => UserId(x) == u.id, db.users, [u]);
  }

  function InRoom(chatRoomId: string): ChatMessage -> bool {
    (m: ChatMessage) => m.chatRoomId == chatRoomId
  }

  /** `getChatMessages`: the stored messages of one room, each as often as stored and
      in stored order. */
  function GetChatMessages(db: Db, chatRoomId: string): (r: seq<ChatMessage>)
    ensures forall i :: 0 <= i < |r| ==> r[i].chatRoomId == chatRoomId
    ensures IsSubsequence(r, db.messages)
    ensures forall m :: multiset(r)[m] == if m.chatRoomId == chatRoomId then multiset(db.messages)[m] else 0
  {
    FilterIsSubsequence(InRoom(chatRoomId), db.messages);
    FilterContents(InRoom(chatRoomId), db.messages);
    Filter(InRoom(chatRoomId), db.messages)
  }

  /** The display name `sendMessage` computes. The concatenation binds tighter than
      `||`, so the result always holds a space and the `'Unknown'` fallback is never
      taken: an unknown sender is named "undefined undefined". */
  function SenderName(db: Db, senderId: string): (r: string)
    ensures ' ' in r && r != "Unknown"
    ensures GetUserById(db, senderId).Some? ==>
      r == GetUserById(db, senderId).value.firstName + " " + GetUserById(db, senderId).value.lastName
    ensures (forall u :: u in db.users ==> u.id != senderId) ==> r == "undefined undefined"
  {
    var found := GetUserById(db, senderId);
    var first := if found.Some? then found.value.firstName else "undefined";
    var last := if found.Some? then found.value.lastName else "undefined";
    var name := first + " " + last;
    assert name[|first|] == ' ';
    assert ' ' !in "Unknown";
    OrDefault(Some(name), "Unknown")
  }

  /** `sendMessage`: append one text message and return it. `now` stands for
      `Date.now()` and `stamp` for the ISO timestamp. */
  function SendMessage(db: Db, chatRoomId: string, message: string, senderId: string, now: nat, stamp: string): (r: (Db, ChatMessage))
    ensures r.0.messages == db.messages + [r.1]
    ensures r.0.users == db.users && r.0.courses == db.courses && r.0.cohorts == db.cohorts && r.0.rooms == db.rooms
    ensures r.1.chatRoomId == chatRoomId && r.1.senderId == senderId && r.1.message == message
    ensures r.1.msgType == "text" && !r.1.isEdited && r.1.senderAvatar == Some("")
    ensures r.1.id == "msg-" + NatToString(now) && r.1.senderName == SenderName(db, senderId)
  {
    var msg := ChatMessage("msg-" + NatToString(now), chatRoomId, senderId, SenderName(db, senderId), Some(""),
      message, "text", false, stamp, stamp);
    (db.(messages := db.messages + [msg]), msg)
  }

  /** After a send, the room's listing is the previous one with the new message at the
      end, and every other room's listing is unchanged. */
  lemma SendThenGetMessages(db: Db, chatRoomId: string, message: string, senderId: string, now: nat, stamp: string)
    ensures var (db', msg) := SendMessage(db, chatRoomId, message, senderId, now, stamp);
      GetChatMessages(db', chatRoomId) == GetChatMessages(db, chatRoomId) + [msg] &&
      forall other :: other != chatRoomId ==> GetChatMessages(db', other) == GetChatMessages(db, other)
  {
    var (db', msg) := SendMessage(db, chatRoomId, message, senderId, now, stamp);
    FilterSnoc(InRoom(chatRoomId), db.messages, msg);
    forall other | other != chatRoomId
      ensures GetChatMessages(db', other) == GetChatMessages(db, other)
    {
      FilterSnoc(InRoom(other), db.messages, msg);
    }
  }

  // ----- localStorage -----

  /** What the application keeps under a `localStorage` key: the profile written by the
      data service, the auth store's persisted slice and the theme store's state.
      A stored JSON value is modelled as the value it parses back to. */
  datatype Stored = ProfileJson(user: User) | AuthSlice(persistedUser: Option<User>) | ThemeSlice(dark: bool)

  type Storage = map<string, Stored>

  const ProfileKey: string := "user_profile"

  /** `saveUserData`. */
  function SaveUserData(st: Storage, u: User): (r: Storage)
    ensures ProfileKey in r && r[ProfileKey] == ProfileJson(u)
    ensures r - {ProfileKey} == st - {ProfileKey}
  {
    st[ProfileKey := ProfileJson(u)]
  }

  /** `getUserData`: the stored profile, or `null`. */
  function GetUserData(st: Storage): (r: Option<User>)
    ensures r.Some? <==> ProfileKey in st && st[ProfileKey].ProfileJson?
    ensures r.Some? ==> st[ProfileKey] == ProfileJson(r.value)
  {
    if ProfileKey in st && st[ProfileKey].ProfileJson? then Some(st[ProfileKey].user) else None
  }

  /** `clearUserData`. */
  function ClearUserData(st: Storage): (r: Storage)
    ensures ProfileKey !in r
    ensures r - {ProfileKey} == st - {ProfileKey}
  {
    st - {ProfileKey}
  }

  /** A saved profile reads back unchanged, a cleared one reads back as `null`, and
      the last write wins. */
  lemma ProfileStorageRoundTrip(st: Storage, u: User, v: User)
    ensures GetUserData(SaveUserData(st, u)) == Some(u)
    ensures GetUserData(ClearUserData(st)) == None
    ensures SaveUserData(SaveUserData(st, v), u) == SaveUserData(st, u)
    ensures ClearUserData(SaveUserData(st, u)) == ClearUserData(st)
  {
  }
}
