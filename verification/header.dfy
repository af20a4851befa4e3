/** The dashboard header: the admin link, the avatar initials, the shortened wallet
    id and the user menu with its logout button. A missing user renders `undefined`
    pieces as nothing. */
module Header {
  import opened Wrappers
  import opened Identity
  import opened JsString
  import opened Models
  import AuthStore
  import AppRoutes

  /** The header shows the Admin link to admins and mentors. */
  predicate AdminLinkShown(user: Option<User>) {
    user.Some? && (user.value.role == Admin || user.value.role == Mentor)
  }

  /** The link is offered more widely than the route admits: a mentor who follows it
      is sent back to the dashboard. */
  lemma AdminLinkWiderThanAdminRoute(u: User, token: Option<string>)
    requires u.role == Mentor
    ensures AdminLinkShown(Some(u))
    ensures AppRoutes.Follow(AuthStore.AuthState(Some(u), token, true, false), "/admin", 2) == AppRoutes.Render(AppRoutes.DashboardPage)
  {
    AppRoutes.AdminPanelOnlyForAdmins(AuthStore.AuthState(Some(u), token, true, false));
  }

  /** `s?.[0]?.toUpperCase()`: the first character, upper-cased, or nothing. */
  function FirstUpper(s: string): (r: string)
    ensures |r| == if |s| == 0 then 0 else 1
    ensures |s| > 0 ==> r[0] == UpperChar(s[0])
  {
    if |s| == 0 then "" else [UpperChar(s[0])]
  }

  /** The avatar initials. */
  function Initials(user: Option<User>): (r: string)
    ensures user.None? ==> r == ""
    ensures |r| <= 2
    ensures user.Some? && user.value.firstName != "" && user.value.lastName != "" ==>
      r == [UpperChar(user.value.firstName[0]), UpperChar(user.value.lastName[0])]
    ensures forall i :: 0 <= i < |r| ==> !('a' <= r[i] <= 'z')
  {
    if user.None? then "" else FirstUpper(user.value.firstName) + FirstUpper(user.value.lastName)
  }

  /** The shortened id: the first six characters, `...`, the last four. */
  function ShortId(user: Option<User>): (r: string)
    ensures user.None? ==> r == "..."
    ensures user.Some? ==> |r| == |Take(user.value.id, 6)| + 3 + |TakeLast(user.value.id, 4)|
    ensures user.Some? ==> StartsWith(r, Take(user.value.id, 6)) && r[|Take(user.value.id, 6)|..][..3] == "..."
    ensures user.Some? && |user.value.id| >= 10 ==>
      |r| == 13 && r[..6] == user.value.id[..6] && r[9..] == user.value.id[|user.value.id| - 4..]
  {
    if user.None? then "..." else
      var id := user.value.id;
      var r := Take(id, 6) + "..." + TakeLast(id, 4);
      assert r[..|Take(id, 6)|] == Take(id, 6);
      assert r[|Take(id, 6)|..][..3] == "...";
      r
  }

  /** An id of at most four characters is shown whole on both sides of the dots: the
      two slices overlap. */
  lemma ShortIdOfShortId(u: User)
    requires |u.id| <= 4
    ensures ShortId(Some(u)) == u.id + "..." + u.id
  {
  }

  /** The avatar button flips the menu; the Profile and Settings links close it. */
  function ClickAvatar(open: bool): (r: bool)
    ensures r != open
  {
    !open
  }

  function ClickMenuLink(open: bool): (r: bool)
    ensures !r
  {
    false
  }

  datatype DisconnectOutcome = Disconnected | DisconnectFailed

  /** `handleLogout`: the store logs out and the menu closes whether the wallet
      disconnect succeeds or throws. */
  function HandleLogout(env: AuthStore.Env, open: bool, outcome: DisconnectOutcome): (r: (AuthStore.Env, bool))
    ensures !r.1
    ensures r.0.state == AuthStore.Initial
  {
    match outcome
    case Disconnected => (AuthStore.Logout(env), false)
    case DisconnectFailed => (AuthStore.Logout(env), false)
  }

  /** The outcome of the wallet disconnect makes no difference. */
  lemma LogoutIgnoresDisconnectOutcome(env: AuthStore.Env, open: bool)
    ensures HandleLogout(env, open, Disconnected) == HandleLogout(env, open, DisconnectFailed)
    ensures HandleLogout(env, open, Disconnected).0 == AuthStore.DisconnectWallet(env)
  {
  }
}
