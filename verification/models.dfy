/** The records the browser application keeps: users, courses, cohorts, chat rooms
    and chat messages, with the fields the modelled logic reads. Timestamps are the
    ISO strings the application stores; they are supplied from outside. */
module Models {
  import opened Wrappers
  import opened Identity

  /** A profile. Optional properties are `None` when `undefined`. */
  datatype User = User(
    id: string,
    email: string,
    username: string,
    firstName: string,
    lastName: string,
    role: Role,
    avatar: Option<string>,
    bio: Option<string>,
    cohortId: Option<string>,
    isActive: bool,
    createdAt: string,
    updatedAt: string)

  /** `Partial<User>`: the properties an update supplies; `None` is an absent key. */
  datatype UserPatch = UserPatch(
    id: Option<string>,
    email: Option<string>,
    username: Option<string>,
    firstName: Option<string>,
    lastName: Option<string>,
    role: Option<Role>,
    avatar: Option<string>,
    bio: Option<string>,
    cohortId: Option<string>,
    isActive: Option<bool>,
    createdAt: Option<string>,
    updatedAt: Option<string>)

  const NoChanges: UserPatch := UserPatch(None, None, None, None, None, None, None, None, None, None, None, None)

  /** `o ?? d` for one patch property. */
  function Pick<T>(o: Option<T>, d: T): T {
    if o.Some? then o.value else d
  }

  /** `{...u, ...p}`: every property the patch supplies replaces the profile's. */
  function Apply(u: User, p: UserPatch): User {
    User(
      Pick(p.id, u.id), Pick(p.email, u.email), Pick(p.username, u.username),
      Pick(p.firstName, u.firstName), Pick(p.lastName, u.lastName), Pick(p.role, u.role),
      if p.avatar.Some? then p.avatar else u.avatar,
      if p.bio.Some? then p.bio else u.bio,
      if p.cohortId.Some? then p.cohortId else u.cohortId,
      Pick(p.isActive, u.isActive), Pick(p.createdAt, u.createdAt), Pick(p.updatedAt, u.updatedAt))
  }

  /** `{...p, ...q}` on patches. */
  function Merge(p: UserPatch, q: UserPatch): UserPatch {
    UserPatch(
      if q.id.Some? then q.id else p.id,
      if q.email.Some? then q.email else p.email,
      if q.username.Some? then q.username else p.username,
      if q.firstName.Some? then q.firstName else p.firstName,
      if q.lastName.Some? then q.lastName else p.lastName,
      if q.role.Some? then q.role else p.role,
      if q.avatar.Some? then q.avatar else p.avatar,
      if q.bio.Some? then q.bio else p.bio,
      if q.cohortId.Some? then q.cohortId else p.cohortId,
      if q.isActive.Some? then q.isActive else p.isActive,
      if q.createdAt.Some? then q.createdAt else p.createdAt,
      if q.updatedAt.Some? then q.updatedAt else p.updatedAt)
  }

  /** Spreading an empty patch changes nothing, spreading the same patch twice is
      spreading it once, and two spreads in a row are one spread of the merged patch. */
  lemma ApplyLaws(u: User, p: UserPatch, q: UserPatch)
    ensures Apply(u, NoChanges) == u
    ensures Apply(Apply(u, p), p) == Apply(u, p)
    ensures Apply(Apply(u, p), q) == Apply(u, Merge(p, q))
  {
  }

  /** A patch that names a property decides it; one that does not leaves it alone. */
  lemma ApplyFieldwise(u: User, p: UserPatch)
    ensures Apply(u, p).id == (if p.id.Some? then p.id.value else u.id)
    ensures Apply(u, p).role == (if p.role.Some? then p.role.value else u.role)
    ensures Apply(u, p).cohortId == (if p.cohortId.Some? then p.cohortId else u.cohortId)
    ensures p.updatedAt.None? ==> Apply(u, p).updatedAt == u.updatedAt
  {
  }

  datatype Course = Course(id: string, title: string, description: string, status: string, difficulty: int, createdBy: string)

  datatype Cohort = Cohort(id: string, name: string, mentorId: string, maxStudents: nat, currentStudents: nat, status: string)

  datatype ChatRoom = ChatRoom(id: string, name: string, kind: string, participantCount: nat)

  datatype ChatMessage = ChatMessage(
    id: string,
    chatRoomId: string,
    senderId: string,
    senderName: string,
    senderAvatar: Option<string>,
    message: string,
    msgType: string,
    isEdited: bool,
    createdAt: string,
    updatedAt: string)
}
