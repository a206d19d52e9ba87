/** The profile page: the signed-in user's profile form, its achievements list,
    the stat inputs, the save button (which writes to the profile canister) and a
    local token-creation form. Form objects that are spread and rebuilt in the
    page are modelled as JavaScript objects (maps from keys to values), so that
    a key that is missing reads as `undefined`. */
module ProfilePage {
  import opened IcTypes
  import opened JsStrings
  import ProfileStore
  import ProfileQuery

  /** The JavaScript values the forms hold; numbers are those `parseInt` and
      `parseFloat` produce, taken as exact. */
  datatype JsValue = JsString(text: string) | JsNumber(number: real) | Undefined

  type JsObject = map<string, JsValue>

  /** Property access: a missing key reads as `undefined`. */
  function Get(o: JsObject, key: string): (v: JsValue)
    ensures key !in o ==> v == Undefined
    ensures key in o ==> v == o[key]
  {
    if key in o then o[key] else Undefined
  }

  // ---------------------------------------------------------------- achievements

  /** `handleAddAchievement`'s update of the list: the trimmed text is appended
      when it is not empty; text that is only white space changes nothing. */
  function AddAchievement(achievements: seq<string>, text: string): (r: seq<string>)
    ensures Trim(text) != "" ==> r == achievements + [Trim(text)]
    ensures Trim(text) == "" <==> r == achievements
    ensures |r| > |achievements| ==> r[|r| - 1] != "" && !IsWhiteSpace(r[|r| - 1][0])
  {
    if Trim(text) != "" then achievements + [Trim(text)] else achievements
  }

  /** The entries of `xs`, whose first sits at position `offset`, other than the one at `index`. */
  function KeepOthers<T>(xs: seq<T>, index: int, offset: int): seq<T>
    decreases |xs|
  {
    if xs == [] then []
    else (if offset == index then [] else [xs[0]]) + KeepOthers(xs[1..], index, offset + 1)
  }

  /** `achievements.filter((_, i) => i !== index)`. */
  function RemoveAt(xs: seq<string>, index: int): (r: seq<string>)
    ensures 0 <= index < |xs| ==> r == xs[..index] + xs[index + 1..]
    ensures !(0 <= index < |xs|) ==> r == xs
  {
    if 0 <= index < |xs| then
      KeepOthersDropsOne(xs, index, 0);
      KeepOthers(xs, index, 0)
    else
      KeepOthersKeepsAll(xs, index, 0);
      KeepOthers(xs, index, 0)
  }

  /** When `index` names no entry of the list, the filter keeps every entry. */
  lemma {:induction false} KeepOthersKeepsAll<T>(xs: seq<T>, index: int, offset: int)
    requires !(offset <= index < offset + |xs|)
    ensures KeepOthers(xs, index, offset) == xs
    decreases |xs|
  {
    if xs != [] {
      KeepOthersKeepsAll(xs[1..], index, offset + 1);
      assert xs == [xs[0]] + xs[1..];
    }
  }

  /** When `index` names an entry of the list, the filter drops exactly that entry. */
  lemma {:induction false} KeepOthersDropsOne<T>(xs: seq<T>, index: int, offset: int)
    requires offset <= index < offset + |xs|
    ensures KeepOthers(xs, index, offset) == xs[..index - offset] + xs[index - offset + 1..]
    decreases |xs|
  {
    var tail := xs[1..];
    if offset == index {
      KeepOthersKeepsAll(tail, index, offset + 1);
      assert xs[..0] + xs[1..] == tail;
    } else {
      var k := index - offset;
      calc {
        KeepOthers(xs, index, offset);
        [xs[0]] + KeepOthers(tail, index, offset + 1);
        { KeepOthersDropsOne(tail, index, offset + 1); }
        [xs[0]] + (tail[..k - 1] + tail[k..]);
        { assert xs[..k] == [xs[0]] + tail[..k - 1];
          assert xs[k + 1..] == tail[k..]; }
        xs[..k] + xs[k + 1..];
      }
    }
  }

  // ---------------------------------------------------------------- initials

  /** The first character of a word, or nothing for an empty word: `w[0]` is
      `undefined` there, and `join("")` renders `undefined` as the empty string. */
  function First(w: string): string
  {
    if w == "" then "" else [w[0]]
  }

  function Firsts(words: seq<string>): string
    decreases |words|
  {
    if words == [] then "" else First(words[0]) + Firsts(words[1..])
  }

  /** `name.split(" ").map(n => n[0]).join("")`, the avatar's fallback text. */
  function Initials(name: string): (r: string)
    ensures r == ScanInitials(name, true)
  {
    FirstsOfSplit(name);
    Firsts(Split(name))
  }

  /** A one-pass reference: every non-space character that starts the text or
      follows a space, in order. `atStart` says whether the previous character
      was a space (or there was none). */
  function ScanInitials(s: string, atStart: bool): (r: string)
    ensures |r| <= |s| && ' ' !in r
    decreases |s|
  {
    if s == [] then ""
    else if s[0] == ' ' then ScanInitials(s[1..], true)
    else (if atStart then [s[0]] else "") + ScanInitials(s[1..], false)
  }

  lemma {:induction false} FirstsOfSplit(s: string)
    ensures Firsts(Split(s)) == ScanInitials(s, true)
    ensures Firsts(Split(s)[1..]) == ScanInitials(s, false)
    decreases |s|
  {
    if s == [] {
    } else if s[0] == ' ' {
      FirstsOfSplit(s[1..]);
      assert Split(s)[1..] == Split(s[1..]);
    } else {
      FirstsOfSplit(s[1..]);
      var rest := Split(s[1..]);
      assert Split(s)[1..] == rest[1..];
    }
  }

  // ---------------------------------------------------------------- stats

  /** The three stats, read and displayed under their snake-case keys. */
  datatype StatField = YearsExperience | ProjectsCompleted | ClientSatisfaction

  function SnakeKey(f: StatField): string
  {
    match f
    case YearsExperience => "years_experience"
    case ProjectsCompleted => "projects_completed"
    case ClientSatisfaction => "client_satisfaction"
  }

  /** The keys the stat inputs' change handlers write. */
  function CamelKey(f: StatField): string
  {
    match f
    case YearsExperience => "yearsExperience"
    case ProjectsCompleted => "projectsCompleted"
    case ClientSatisfaction => "clientSatisfaction"
  }

  /** A stat as the canister's `nat8` takes it, if the value is one. */
  function AsNat8(v: JsValue): (r: Option<u8>)
    ensures r.Some? ==> v == JsNumber(r.value as real)
  {
    if v.JsNumber? && v.number == v.number.Floor as real && 0 <= v.number.Floor < 0x100
    then Some(v.number.Floor as u8) else None
  }

  /** The stats record sent to the canister: only the snake-case fields are
      encoded, and the call cannot be made unless each holds a `nat8`. */
  function EncodeStats(stats: JsObject): (r: Option<ProfileStore.UserStats>)
    ensures r.Some? ==>
      && Get(stats, SnakeKey(YearsExperience)) == JsNumber(r.value.yearsExperience as real)
      && Get(stats, SnakeKey(ProjectsCompleted)) == JsNumber(r.value.projectsCompleted as real)
      && Get(stats, SnakeKey(ClientSatisfaction)) == JsNumber(r.value.clientSatisfaction as real)
  {
    var y := AsNat8(Get(stats, "years_experience"));
    var p := AsNat8(Get(stats, "projects_completed"));
    var c := AsNat8(Get(stats, "client_satisfaction"));
    if y.Some? && p.Some? && c.Some? then Some(ProfileStore.UserStats(y.value, p.value, c.value)) else None
  }

  /** The stat change handler as written: the value goes under the camel-case key. */
  function EditStatAsWritten(stats: JsObject, f: StatField, v: JsValue): JsObject
  {
    stats[CamelKey(f) := v]
  }

  /** As written, editing a stat changes neither what is displayed nor what is saved. */
  lemma StatEditIsLost(stats: JsObject, f: StatField, v: JsValue)
    ensures forall g :: Get(EditStatAsWritten(stats, f, v), SnakeKey(g)) == Get(stats, SnakeKey(g))
    ensures EncodeStats(EditStatAsWritten(stats, f, v)) == EncodeStats(stats)
  {
    forall g ensures SnakeKey(g) != CamelKey(f) {
      assert SnakeKey(g)[|SnakeKey(g)| - 2] != CamelKey(f)[|CamelKey(f)| - 2] || |SnakeKey(g)| != |CamelKey(f)|;
    }
  }

  /** The concrete case: years of experience 0, edited to 5, still shows 0. */
  lemma StatEditIsLostExample()
    ensures var stats := map["years_experience" := JsNumber(0.0), "projects_completed" := JsNumber(0.0),
                             "client_satisfaction" := JsNumber(0.0)];
            Get(EditStatAsWritten(stats, YearsExperience, JsNumber(5.0)), "years_experience") == JsNumber(0.0)
  {
    StatEditIsLost(map["years_experience" := JsNumber(0.0), "projects_completed" := JsNumber(0.0),
                       "client_satisfaction" := JsNumber(0.0)], YearsExperience, JsNumber(5.0));
  }

  /** The stat change handler as intended: the displayed field takes the new
      value, the other two stay, and the saved record carries the new value. */
  function EditStat(stats: JsObject, f: StatField, v: JsValue): (r: JsObject)
    ensures Get(r, SnakeKey(f)) == v
    ensures forall g :: g != f ==> Get(r, SnakeKey(g)) == Get(stats, SnakeKey(g))
  {
    stats[SnakeKey(f) := v]
  }

  lemma StatEditIsSaved(stats: JsObject, n: u8)
    requires EncodeStats(stats).Some?
    ensures EncodeStats(EditStat(stats, YearsExperience, JsNumber(n as real)))
         == Some(EncodeStats(stats).value.(yearsExperience := n))
  {
    var r := EditStat(stats, YearsExperience, JsNumber(n as real));
    assert AsNat8(JsNumber(n as real)) == Some(n);
    assert Get(r, "projects_completed") == Get(stats, "projects_completed");
    assert Get(r, "client_satisfaction") == Get(stats, "client_satisfaction");
  }

  // ---------------------------------------------------------------- saving

  /** The profile form. */
  datatype UserForm = UserForm(name: string, skill: string, description: string,
                               achievements: seq<string>, stats: JsObject)

  /** The argument `handleUserUpdate` sends: the form's fields, with the id
      `aaaaa-aa` (which the canister replaces by the caller). */
  function Submission(form: UserForm): (r: Option<ProfileStore.UserProfile>)
    ensures r.Some? <==> EncodeStats(form.stats).Some?
    ensures r.Some? ==>
      && r.value.name == form.name && r.value.skill == form.skill
      && r.value.description == form.description && r.value.achievements == form.achievements
      && r.value.stats == EncodeStats(form.stats).value
  {
    match EncodeStats(form.stats)
    case None => None
    case Some(stats) =>
      Some(ProfileStore.UserProfile(ManagementCanister, form.name, form.skill, form.description,
                                    form.achievements, stats))
  }

  /** Saving as written: always `create_user`. */
  function SaveProfileAsWritten(users: map<Principal, ProfileStore.UserProfile>, caller: Principal, form: UserForm)
    : map<Principal, ProfileStore.UserProfile>
  {
    match Submission(form)
    case None => users
    case Some(p) => ProfileStore.CreateUserStep(users, caller, p).0
  }

  /** As written, once a profile exists no later save changes it (the canister
      answers "User already exists"). */
  lemma SavesAfterTheFirstAreLost(users: map<Principal, ProfileStore.UserProfile>, caller: Principal, form: UserForm)
    requires caller in users
    ensures SaveProfileAsWritten(users, caller, form) == users
    ensures Submission(form).Some? ==>
      ProfileStore.CreateUserStep(users, caller, Submission(form).value).1 == Err(ProfileStore.UserAlreadyExists)
  {
  }

  /** Saving as intended: `update_user` for an existing profile, `create_user` for a first one. */
  function SaveProfile(users: map<Principal, ProfileStore.UserProfile>, caller: Principal, form: UserForm)
    : (r: map<Principal, ProfileStore.UserProfile>)
    ensures Submission(form).Some? ==>
      ProfileQuery.GetUser(r, caller) == Ok(Submission(form).value.(id := caller))
    ensures Submission(form).None? ==> r == users
    ensures forall k :: k in users && k != caller ==> k in r && r[k] == users[k]
  {
    match Submission(form)
    case None => users
    case Some(p) =>
      if caller in users then ProfileStore.UpdateUserStep(users, caller, p).0
      else ProfileStore.CreateUserStep(users, caller, p).0
  }

  // ---------------------------------------------------------------- token form

  /** What `handleCreateToken` copies out of the form. */
  datatype CreatedToken = CreatedToken(name: JsValue, symbol: JsValue, totalSupply: JsValue, marketCap: JsValue)

  /** The form as the page starts it (it has no `marketCap` key). */
  const InitialTokenForm: JsObject := map["tokenName" := JsString(""), "tokenSymbol" := JsString(""),
                                          "totalSupply" := JsNumber(0.0), "circulatingSupply" := JsNumber(0.0),
                                          "tokenPrice" := JsNumber(0.0)]

  /** The form after a creation: a new object with four keys. */
  const ClearedTokenForm: JsObject := map["tokenName" := JsString(""), "tokenSymbol" := JsString(""),
                                          "totalSupply" := JsNumber(0.0), "marketCap" := JsNumber(0.0)]

  function CopyToken(form: JsObject): (t: CreatedToken)
    ensures t.name == Get(form, "tokenName") && t.symbol == Get(form, "tokenSymbol")
    ensures t.totalSupply == Get(form, "totalSupply") && t.marketCap == Get(form, "marketCap")
  {
    CreatedToken(Get(form, "tokenName"), Get(form, "tokenSymbol"), Get(form, "totalSupply"), Get(form, "marketCap"))
  }

  /** A token created straight from the initial form has no market cap, and the
      cleared form has lost the token price the price input reads. */
  lemma TokenFormQuirks()
    ensures CopyToken(InitialTokenForm).marketCap == Undefined
    ensures Get(ClearedTokenForm, "tokenPrice") == Undefined
    ensures CopyToken(ClearedTokenForm) == CreatedToken(JsString(""), JsString(""), JsNumber(0.0), JsNumber(0.0))
  {
  }

  // ---------------------------------------------------------------- the component

  /** The profile page's state and handlers, with the stat handler and the save
      as intended (`EditStat`, `SaveProfile`) rather than as written. */
  class Page {
    var user: UserForm
    var newAchievement: string
    var achievementsModified: bool
    var isEditing: bool
    var newToken: JsObject
    var createdToken: Option<CreatedToken>

    constructor ()
      ensures user == UserForm("", "", "", [], map["years_experience" := JsNumber(0.0),
                                                   "projects_completed" := JsNumber(0.0),
                                                   "client_satisfaction" := JsNumber(0.0)])
      ensures newAchievement == "" && !achievementsModified && !isEditing
      ensures newToken == InitialTokenForm && createdToken == None
    {
      user := UserForm("", "", "", [], map["years_experience" := JsNumber(0.0),
                                           "projects_completed" := JsNumber(0.0),
                                           "client_satisfaction" := JsNumber(0.0)]);
      newAchievement := "";
      achievementsModified := false;
      isEditing := false;
      newToken := InitialTokenForm;
      createdToken := None;
    }

    method HandleAddAchievement()
      modifies this
      ensures user == old(user).(achievements := AddAchievement(old(user.achievements), old(newAchievement)))
      ensures Trim(old(newAchievement)) != "" ==> newAchievement == "" && achievementsModified
      ensures Trim(old(newAchievement)) == "" ==>
        newAchievement == old(newAchievement) && achievementsModified == old(achievementsModified)
      ensures isEditing == old(isEditing) && newToken == old(newToken) && createdToken == old(createdToken)
    {
      if Trim(newAchievement) != "" {
        user := user.(achievements := user.achievements + [Trim(newAchievement)]);
        newAchievement := "";
        achievementsModified := true;
      }
    }

    method HandleRemoveAchievement(index: int)
      modifies this
      ensures user == old(user).(achievements := RemoveAt(old(user.achievements), index))
      ensures achievementsModified
      ensures newAchievement == old(newAchievement) && isEditing == old(isEditing)
      ensures newToken == old(newToken) && createdToken == old(createdToken)
    {
      user := user.(achievements := RemoveAt(user.achievements, index));
      achievementsModified := true;
    }

    /** The "Edit Profile" button: editing starts and nothing else changes. */
    method StartEditing()
      modifies this
      ensures isEditing
      ensures user == old(user) && newAchievement == old(newAchievement)
      ensures achievementsModified == old(achievementsModified)
      ensures newToken == old(newToken) && createdToken == old(createdToken)
    {
      isEditing := true;
    }

    /** A stat input's change handler, with the value stored under the displayed
        key (the intended handler; the inputs are disabled unless editing). */
    method HandleStatChange(f: StatField, v: JsValue)
      requires isEditing
      modifies this
      ensures user == old(user).(stats := EditStat(old(user.stats), f, v))
      ensures newAchievement == old(newAchievement) && achievementsModified == old(achievementsModified)
      ensures isEditing == old(isEditing) && newToken == old(newToken) && createdToken == old(createdToken)
    {
      user := user.(stats := EditStat(user.stats, f, v));
    }

    /** `handleSaveProfile`, which the "Save Profile" button runs while editing:
        the profile is written to the canister for `caller` (with `update_user`
        once it exists, as intended) and editing ends. */
    method HandleSaveProfile(store: ProfileStore.UserStore, caller: Principal)
      requires isEditing
      modifies this, store
      ensures store.userData == SaveProfile(old(store.userData), caller, old(user))
      ensures !isEditing
      ensures user == old(user) && newAchievement == old(newAchievement)
      ensures achievementsModified == old(achievementsModified)
      ensures newToken == old(newToken) && createdToken == old(createdToken)
    {
      var submission := Submission(user);
      if submission.Some? {
        var reply;
        if caller in store.userData {
          reply := store.UpdateUser(caller, submission.value);
        } else {
          reply := store.CreateUser(caller, submission.value);
        }
      }
      isEditing := false;
    }

    method HandleCreateToken()
      modifies this
      ensures createdToken == Some(CopyToken(old(newToken)))
      ensures newToken == ClearedTokenForm
      ensures user == old(user) && newAchievement == old(newAchievement)
      ensures achievementsModified == old(achievementsModified) && isEditing == old(isEditing)
    {
      createdToken := Some(CopyToken(newToken));
      newToken := ClearedTokenForm;
    }
  }
}
