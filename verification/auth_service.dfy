/** The wallet-based auth service: a profile is derived from the wallet address and
    kept in the `user_profile` slot of `localStorage`. */
module AuthService {
  import opened Wrappers
  import opened Identity
  import opened JsString
  import opened Models
  import opened DataService

  const NoWalletError: string := "No wallet connected"
  const EmailDomain: string := "@web3uni.com"

  /** The profile built for an address that has no stored profile; `stamp` is the
      creation time. */
  function NewProfile(address: string, stamp: string): User {
    User(address, Take(address, 8) + EmailDomain, "user_" + Take(address, 8), "Web3", "User", Student,
      Some(""), Some("Web3 University Student"), None, true, stamp, stamp)
  }

  lemma AppendCancel(x: string, y: string, s: string)
    requires x + s == y + s
    ensures x == y
  {
    assert |x| == |y|;
    assert x == (x + s)[..|x|];
    assert y == (y + s)[..|y|];
  }

  /** A new profile is a student profile for that address whose email and username
      are determined by the address's first eight characters, and by nothing else:
      two addresses get the same email exactly when those characters agree. */
  lemma NewProfileShape(a: string, b: string, stamp: string)
    ensures NewProfile(a, stamp).id == a && NewProfile(a, stamp).role == Student && NewProfile(a, stamp).isActive
    ensures StartsWith(NewProfile(a, stamp).email, Take(a, 8)) && StartsWith(a, Take(a, 8))
    ensures |a| >= 8 ==> |NewProfile(a, stamp).email| == 8 + |EmailDomain|
    ensures NewProfile(a, stamp).email == NewProfile(b, stamp).email <==> Take(a, 8) == Take(b, 8)
    ensures NewProfile(a, stamp).username == NewProfile(b, stamp).username <==> Take(a, 8) == Take(b, 8)
  {
    var pa := NewProfile(a, stamp).email;
    assert pa[..|Take(a, 8)|] == Take(a, 8);
    if NewProfile(a, stamp).email == NewProfile(b, stamp).email {
      AppendCancel(Take(a, 8), Take(b, 8), EmailDomain);
    }
    if NewProfile(a, stamp).username == NewProfile(b, stamp).username {
      var ua := "user_" + Take(a, 8);
      var ub := "user_" + Take(b, 8);
      assert Take(a, 8) == ua[5..] && Take(b, 8) == ub[5..];
    }
  }

  /** `createUserFromAddress`: reuse the stored profile when its id is the address,
      otherwise build and store a new one. Either way the profile returned belongs to
      the address and is the one stored, and no other key is touched. */
  function CreateUserFromAddress(st: Storage, address: string, stamp: string): (r: (User, Storage))
    ensures r.0.id == address
    ensures GetUserData(r.1) == Some(r.0)
    ensures r.1 - {ProfileKey} == st - {ProfileKey}
    ensures GetUserData(st).Some? && GetUserData(st).value.id == address ==> r.0 == GetUserData(st).value && r.1 == st
    ensures !(GetUserData(st).Some? && GetUserData(st).value.id == address) ==> r.0 == NewProfile(address, stamp)
  {
    var existing := GetUserData(st);
    if existing.Some? && existing.value.id == address then
      (existing.value, st)
    else
      var u := NewProfile(address, stamp);
      (u, SaveUserData(st, u))
  }

  /** A second call for the same address finds the profile the first call stored and
      returns it unchanged, whatever the time. */
  lemma CreateUserFromAddressIdempotent(st: Storage, address: string, stamp: string, later: string)
    ensures var (u, st') := CreateUserFromAddress(st, address, stamp);
      CreateUserFromAddress(st', address, later) == (u, st')
  {
  }

  /** `updateProfile(data, currentAddress)`: without an address it throws; otherwise
      it spreads `data` over the stored profile (or over one created for the address),
      refreshes `updatedAt`, stores the result and returns it. */
  function UpdateProfile(st: Storage, data: UserPatch, currentAddress: string, stamp: string): (r: Result<(User, Storage), string>)
    ensures r.Err? <==> currentAddress == ""
    ensures r.Err? ==> r.error == NoWalletError
    ensures r.Ok? ==> GetUserData(r.value.1) == Some(r.value.0) && r.value.1 - {ProfileKey} == st - {ProfileKey}
    ensures r.Ok? ==> r.value.0.updatedAt == stamp
    ensures r.Ok? ==> (r.value.0.id ==
      if data.id.Some? then data.id.value
      else if GetUserData(st).Some? then GetUserData(st).value.id
      else currentAddress)
  {
    if currentAddress == "" then Err(NoWalletError)
    else
      var (current, st1) :=
        if GetUserData(st).Some? then (GetUserData(st).value, st) else CreateUserFromAddress(st, currentAddress, stamp);
      var updated := Apply(current, data).(updatedAt := stamp);
      Ok((updated, SaveUserData(st1, updated)))
  }

  /** The stored profile is the base even when it belongs to another address: the
      address is then only a fallback that is not used. */
  lemma UpdateUsesStoredProfileOfAnyAddress(st: Storage, data: UserPatch, address: string, stamp: string)
    requires address != "" && GetUserData(st).Some?
    ensures UpdateProfile(st, data, address, stamp).value.0 == Apply(GetUserData(st).value, data).(updatedAt := stamp)
  {
  }

  /** Without a stored profile the base is the profile the address would get. */
  lemma UpdateWithoutStoredProfile(st: Storage, data: UserPatch, address: string, stamp: string)
    requires address != "" && GetUserData(st).None?
    ensures UpdateProfile(st, data, address, stamp).value.0 == Apply(NewProfile(address, stamp), data).(updatedAt := stamp)
  {
  }

  /** Two updates in a row store what one update with the merged data stores. */
  lemma {:induction false} UpdateTwiceIsMergedUpdate(st: Storage, p: UserPatch, q: UserPatch, address: string, stamp: string)
    requires address != ""
    ensures var first := UpdateProfile(st, p, address, stamp);
      UpdateProfile(first.value.1, q, address, stamp) == UpdateProfile(st, Merge(p, q), address, stamp)
  {
    var first := UpdateProfile(st, p, address, stamp);
    var base := if GetUserData(st).Some? then GetUserData(st).value else NewProfile(address, stamp);
    ApplyLaws(base, p, q);
    ApplyLaws(Apply(base, p).(updatedAt := stamp), q, q);
    assert first.value.0 == Apply(base, p).(updatedAt := stamp);
    var u := Apply(base, Merge(p, q)).(updatedAt := stamp);
    assert UpdateProfile(first.value.1, q, address, stamp).value.0 == u;
    assert UpdateProfile(st, Merge(p, q), address, stamp).value.0 == u;
    assert UpdateProfile(first.value.1, q, address, stamp).value.1 == st[ProfileKey := ProfileJson(u)];
    assert UpdateProfile(st, Merge(p, q), address, stamp).value.1 == st[ProfileKey := ProfileJson(u)];
  }

  /** `logout`: forget the stored profile and nothing else. */
  function Logout(st: Storage): (r: Storage)
    ensures GetUserData(r).None?
    ensures r - {ProfileKey} == st - {ProfileKey}
  {
    ClearUserData(st)
  }
}
