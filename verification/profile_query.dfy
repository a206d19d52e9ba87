/** The profile canister's queries: read-only lookups over a snapshot of `user_data`. */
module ProfileQuery {
  import opened IcTypes
  import opened ProfileStore
  import StableMap

  const UserNotFound := "User not found"

  /** `get_user_by_id(id)`: the profile stored under `id`. */
  function GetUserById(users: map<Principal, UserProfile>, id: Principal): (r: Result<UserProfile, string>)
    ensures r.Ok? <==> id in users
    ensures r.Ok? ==> r.value == users[id]
    ensures r.Err? ==> r.error == UserNotFound
  {
    if id in users then Ok(users[id]) else Err(UserNotFound)
  }

  /** `get_user()`: the caller's own profile. */
  function GetUser(users: map<Principal, UserProfile>, caller: Principal): (r: Result<UserProfile, string>)
    ensures r.Ok? <==> caller in users
    ensures r.Ok? ==> r.value == users[caller]
    ensures r.Err? ==> r.error == UserNotFound
  {
    if caller in users then Ok(users[caller]) else Err(UserNotFound)
  }

  /** `get_user_list()`: every stored profile once, in ascending key order; never fails. */
  ghost function GetUserList(users: map<Principal, UserProfile>): (r: Result<seq<UserProfile>, string>)
    ensures r.Ok? && |r.value| == |users|
    ensures forall i :: 0 <= i < |r.value| ==> r.value[i] in users.Values
    ensures forall k :: k in users ==> users[k] in r.value
    ensures forall i :: 0 <= i < |r.value| ==> r.value[i] == users[StableMap.Entries(users)[i].0]
  {
    var v := StableMap.Values(users);
    assert |v| == |users|;
    Ok(v)
  }

  /** The stored profiles only ever carry their owner's id when every write goes
      through `create_user` and `update_user`. */
  ghost predicate IdsMatchKeys(users: map<Principal, UserProfile>)
  {
    forall k :: k in users ==> users[k].id == k
  }

  lemma {:induction false} WritesKeepIdsMatchingKeys(users: map<Principal, UserProfile>, caller: Principal, p: UserProfile)
    requires IdsMatchKeys(users)
    ensures IdsMatchKeys(CreateUserStep(users, caller, p).0)
    ensures IdsMatchKeys(UpdateUserStep(users, caller, p).0)
  {
    var c := CreateUserStep(users, caller, p).0;
    forall k | k in c ensures c[k].id == k {
      if k != caller { assert c[k] == users[k]; }
    }
    var u := UpdateUserStep(users, caller, p).0;
    forall k | k in u ensures u[k].id == k {
      if k != caller { assert u[k] == users[k]; }
    }
  }

  /** After P's profile is created, `get_user` as P returns it, with id P;
      it answers the same to P after any later `update_user` by P. */
  lemma CreateThenGetUser(users: map<Principal, UserProfile>, caller: Principal, p: UserProfile, q: UserProfile)
    requires CreateUserStep(users, caller, p).1.Ok?
    ensures var created := CreateUserStep(users, caller, p).0;
            && GetUser(created, caller) == Ok(p.(id := caller))
            && GetUser(UpdateUserStep(created, caller, q).0, caller) == Ok(q.(id := caller))
  {
  }
}
