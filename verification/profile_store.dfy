/** The profile canister: one profile per principal in a stable map, created
    once by its owner and then replaced by its owner. */
module ProfileStore {
  import opened IcTypes

  datatype UserStats = UserStats(yearsExperience: u8, projectsCompleted: u8, clientSatisfaction: u8)

  datatype UserProfile = UserProfile(
    id: Principal,
    name: string,
    skill: string,
    description: string,
    achievements: seq<string>,
    stats: UserStats)

  const UserAlreadyExists := "User already exists"
  const UserDoesNotExist := "User does not exist"

  /** The stored profile for a submission by `caller`: every field as submitted
      except the id, which is the caller whatever was sent. */
  function Owned(p: UserProfile, caller: Principal): (q: UserProfile)
    ensures q.id == caller
    ensures q.(id := p.id) == p
  {
    p.(id := caller)
  }

  /** `create_user(profile)` on a snapshot of the map: insert if the caller has no profile yet. */
  function CreateUserStep(users: map<Principal, UserProfile>, caller: Principal, p: UserProfile)
    : (o: (map<Principal, UserProfile>, Result<string, string>))
    ensures caller in users ==> o == (users, Err(UserAlreadyExists))
    ensures caller !in users ==>
      && o.1 == Ok("User created!")
      && caller in o.0 && o.0[caller].id == caller && o.0[caller] == Owned(p, caller)
      && o.0.Keys == users.Keys + {caller} && |o.0| == |users| + 1
      && (forall k :: k in users ==> o.0[k] == users[k])
  {
    if caller in users then (users, Err(UserAlreadyExists))
    else (users[caller := Owned(p, caller)], Ok("User created!"))
  }

  /** `update_user(profile)` on a snapshot of the map: replace the whole profile if the caller has one. */
  function UpdateUserStep(users: map<Principal, UserProfile>, caller: Principal, p: UserProfile)
    : (o: (map<Principal, UserProfile>, Result<string, string>))
    ensures caller !in users ==> o == (users, Err(UserDoesNotExist))
    ensures caller in users ==>
      && o.1 == Ok("User updated!")
      && o.0.Keys == users.Keys && |o.0| == |users|
      && o.0[caller] == Owned(p, caller)
      && (forall k :: k in users && k != caller ==> o.0[k] == users[k])
  {
    if caller in users then (users[caller := Owned(p, caller)], Ok("User updated!"))
    else (users, Err(UserDoesNotExist))
  }

  /** The canister's `State`: `user_data`, updated in place. */
  class UserStore {
    var userData: map<Principal, UserProfile>

    /** The maps opened on fresh memory are empty. */
    constructor ()
      ensures userData == map[]
    {
      userData := map[];
    }

    method CreateUser(caller: Principal, p: UserProfile) returns (r: Result<string, string>)
      modifies this
      ensures (userData, r) == CreateUserStep(old(userData), caller, p)
    {
      if caller in userData {
        return Err(UserAlreadyExists);
      }
      userData := userData[caller := Owned(p, caller)];
      r := Ok("User created!");
    }

    method UpdateUser(caller: Principal, p: UserProfile) returns (r: Result<string, string>)
      modifies this
      ensures (userData, r) == UpdateUserStep(old(userData), caller, p)
    {
      var updated := Owned(p, caller);
      if caller in userData {
        userData := userData[caller := updated];
        r := Ok("User updated!");
      } else {
        r := Err(UserDoesNotExist);
      }
    }
  }

  /** A profile, once created, can be replaced only by its owner and never removed:
      both update methods keep every key and change at most the caller's entry. */
  lemma ProfilesPersist(users: map<Principal, UserProfile>, caller: Principal, p: UserProfile, other: Principal)
    requires other in users && other != caller
    ensures other in CreateUserStep(users, caller, p).0 && CreateUserStep(users, caller, p).0[other] == users[other]
    ensures other in UpdateUserStep(users, caller, p).0 && UpdateUserStep(users, caller, p).0[other] == users[other]
  {
  }
}
