/** Who a request or connection speaks for: the role enumeration and the claims a
    verified token carries. Token verification itself (signature, expiry) is an
    uninterpreted oracle. */
module Identity {
  import opened Wrappers

  /** A role as it appears in a token or a profile: one of the three `UserRole`
      values, or any other string. */
  datatype RoleName = Student | Mentor | Admin | OtherRole(name: string)

  const KnownRoleNames: set<string> := {"student", "mentor", "admin"}

  /** Roles compare as strings in the source, so `OtherRole` never spells a known role. */
  type Role = r: RoleName | !r.OtherRole? || r.name !in KnownRoleNames witness Student

  /** The string value of a role. */
  function RoleString(r: Role): string {
    match r
    case Student => "student"
    case Mentor => "mentor"
    case Admin => "admin"
    case OtherRole(n) => n
  }

  /** The role a string denotes. */
  function RoleOf(s: string): Role {
    if s == "student" then Student
    else if s == "mentor" then Mentor
    else if s == "admin" then Admin
    else OtherRole(s)
  }

  /** Roles and their strings are in one-to-one correspondence, so comparing roles is
      comparing the strings the source compares. */
  lemma RoleStringRoundTrip(r: Role, s: string)
    ensures RoleOf(RoleString(r)) == r
    ensures RoleString(RoleOf(s)) == s
  {
  }

  /** The decoded payload of a JSON Web Token. */
  datatype Claims = Claims(userId: string, email: string, role: Role, cohortId: Option<string>)

  /** `jwt.verify(token, secret)`: the claims of a valid token, `None` where the
      library would throw. */
  type Verifier = string -> Option<Claims>
}
