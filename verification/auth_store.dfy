/** The auth store as a state machine over its four fields. The store is persisted
    under `auth-storage`; every `set` also writes the persisted slice, which holds the
    user and nothing else. */
module AuthStore {
  import opened Wrappers
  import opened Models
  import opened DataService
  import AS = AuthService

  datatype AuthState = AuthState(user: Option<User>, token: Option<string>, isAuthenticated: bool, isLoading: bool)

  const Initial: AuthState := AuthState(None, None, false, false)

  const PersistKey: string := "auth-storage"

  const NoUserError: string := "No user found"

  /** The store's state together with the browser storage its actions write. */
  datatype Env = Env(state: AuthState, storage: Storage)

  /** `partialize`: the part of the state that is persisted. */
  function Partialize(s: AuthState): Stored {
    AuthSlice(s.user)
  }

  /** `set(...)` under the persist middleware. */
  function Set(env: Env, s: AuthState): (r: Env)
    ensures r.state == s
    ensures PersistKey in r.storage && r.storage[PersistKey] == AuthSlice(s.user)
    ensures r.storage - {PersistKey} == env.storage - {PersistKey}
  {
    Env(s, env.storage[PersistKey := Partialize(s)])
  }

  /** The state after a page load: the initial state with the persisted slice spread
      over it. */
  function Rehydrate(st: Storage): (r: AuthState)
    ensures r.token.None? && !r.isAuthenticated && !r.isLoading
    ensures r.user == if PersistKey in st && st[PersistKey].AuthSlice? then st[PersistKey].persistedUser else None
  {
    if PersistKey in st && st[PersistKey].AuthSlice? then Initial.(user := st[PersistKey].persistedUser) else Initial
  }

  /** Only the user survives a reload: whatever was set last, the reloaded store has
      that user, no token, and is neither authenticated nor loading. */
  lemma ReloadKeepsOnlyUser(env: Env, s: AuthState)
    ensures Rehydrate(Set(env, s).storage) == Initial.(user := s.user)
    ensures s.user == Initial.user ==> Rehydrate(Set(env, s).storage) == Initial
  {
  }

  /** `connectWallet`: left to the wallet button. */
  function ConnectWallet(env: Env): Env { env }

  /** `initialize`: left to a component with wallet hooks. */
  function Initialize(env: Env): Env { env }

  lemma InertActions(env: Env)
    ensures ConnectWallet(env) == env && Initialize(env) == env
  {
  }

  /** `disconnectWallet`: drop the stored profile and reset every field. */
  function DisconnectWallet(env: Env): (r: Env)
    ensures r.state == Initial
    ensures GetUserData(r.storage).None?
    ensures PersistKey in r.storage && r.storage[PersistKey] == AuthSlice(None)
    ensures r.storage - {ProfileKey, PersistKey} == env.storage - {ProfileKey, PersistKey}
  {
    Set(env.(storage := AS.Logout(env.storage)), Initial)
  }

  /** `logout`: the alias that looks up `disconnectWallet` and calls it. */
  function Logout(env: Env): Env {
    DisconnectWallet(env)
  }

  /** After a disconnect, or a logout, which is the same action, the profile is gone
      from storage and a reload starts from the initial state; disconnecting again
      changes nothing. */
  lemma DisconnectForgetsUser(env: Env)
    ensures Logout(env) == DisconnectWallet(env)
    ensures Rehydrate(DisconnectWallet(env).storage) == Initial
    ensures DisconnectWallet(DisconnectWallet(env)) == DisconnectWallet(env)
  {
    var once := DisconnectWallet(env);
    assert AS.Logout(once.storage) == once.storage;
  }

  /** `updateProfile(data)`: without a user it throws `No user found`; otherwise the
      service's result becomes the user. A failure leaves the store as it was, and a
      success changes no other field. */
  function UpdateProfile(env: Env, data: UserPatch, stamp: string): (r: Result<Env, string>)
    ensures env.state.user.None? ==> r == Err(NoUserError)
    ensures env.state.user.Some? ==> (r.Err? <==> env.state.user.value.id == "")
    ensures env.state.user.Some? && r.Err? ==> r.error == AS.NoWalletError
    ensures r.Ok? ==> r.value.state == env.state.(user := r.value.state.user)
    ensures r.Ok? ==> r.value.state.user.Some? && GetUserData(r.value.storage) == r.value.state.user
    ensures r.Ok? ==> r.value.storage - {ProfileKey, PersistKey} == env.storage - {ProfileKey, PersistKey}
  {
    match env.state.user
    case None => Err(NoUserError)
    case Some(u) =>
      match AS.UpdateProfile(env.storage, data, u.id, stamp)
      case Err(e) => Err(e)
      case Ok((updated, st)) =>
        assert st - {ProfileKey, PersistKey} == env.storage - {ProfileKey, PersistKey} by {
          assert st - {ProfileKey} == env.storage - {ProfileKey};
        }
        Ok(Set(env.(storage := st), env.state.(user := Some(updated))))
  }

  /** `setLoading`. */
  function SetLoading(env: Env, loading: bool): (r: Env)
    ensures r.state == env.state.(isLoading := loading)
    ensures r.storage - {PersistKey} == env.storage - {PersistKey}
  {
    Set(env, env.state.(isLoading := loading))
  }

  /** Toggling the loading flag never changes what a reload recovers. */
  lemma LoadingIsNotPersisted(env: Env, loading: bool)
    ensures Rehydrate(SetLoading(env, loading).storage) == Rehydrate(Set(env, env.state).storage)
  {
  }

  /** No action of the store, and no reload, ever sets `isAuthenticated`: starting
      unauthenticated, the store stays unauthenticated. */
  lemma NoActionAuthenticates(env: Env, data: UserPatch, stamp: string, loading: bool, st: Storage)
    requires !env.state.isAuthenticated
    ensures !ConnectWallet(env).state.isAuthenticated && !Initialize(env).state.isAuthenticated
    ensures !DisconnectWallet(env).state.isAuthenticated && !Logout(env).state.isAuthenticated
    ensures UpdateProfile(env, data, stamp).Ok? ==> !UpdateProfile(env, data, stamp).value.state.isAuthenticated
    ensures !SetLoading(env, loading).state.isAuthenticated
    ensures !Rehydrate(st).isAuthenticated && !Initial.isAuthenticated
  {
  }

  /** What can happen to the store: one of its actions, called by some component, or
      a page reload. A throwing `updateProfile` leaves the store as it was. */
  datatype Action =
    | CallConnectWallet | CallInitialize | CallDisconnectWallet | CallLogout
    | CallUpdateProfile(data: UserPatch, stamp: string)
    | CallSetLoading(loading: bool)
    | Reload

  function Step(env: Env, a: Action): Env {
    match a
    case CallConnectWallet => ConnectWallet(env)
    case CallInitialize => Initialize(env)
    case CallDisconnectWallet => DisconnectWallet(env)
    case CallLogout => Logout(env)
    case CallUpdateProfile(data, stamp) =>
      (match UpdateProfile(env, data, stamp) case Ok(e) => e case Err(_) => env)
    case CallSetLoading(loading) => SetLoading(env, loading)
    case Reload => Env(Rehydrate(env.storage), env.storage)
  }

  function Run(env: Env, acts: seq<Action>): Env
    decreases |acts|
  {
    if |acts| == 0 then env else Run(Step(env, acts[0]), acts[1..])
  }

  /** The store a page load produces from whatever storage holds. */
  function Loaded(st: Storage): Env {
    Env(Rehydrate(st), st)
  }

  /** From a page load, no sequence of actions and reloads ever authenticates the
      store. */
  lemma {:induction false} NeverAuthenticated(env: Env, acts: seq<Action>)
    requires !env.state.isAuthenticated
    ensures !Run(env, acts).state.isAuthenticated
    decreases |acts|
  {
    if |acts| > 0 {
      var a := acts[0];
      assert !Step(env, a).state.isAuthenticated by {
        match a
        case CallUpdateProfile(data, stamp) => NoActionAuthenticates(env, data, stamp, false, env.storage);
        case CallSetLoading(loading) => NoActionAuthenticates(env, NoChanges, "", loading, env.storage);
        case _ => NoActionAuthenticates(env, NoChanges, "", false, env.storage);
      }
      NeverAuthenticated(Step(env, a), acts[1..]);
    }
  }
}
