/** The account models: User and Profile records, the save-time defaults
    of `User.save` and `Profile.save`, `Profile.clean`, `Profile.__str__`,
    and a store holding both tables in which the two post-save signal
    handlers are explicit steps of the save methods. */
module UserAuths {
  import opened Wrappers
  import opened Strings

  const DEFAULT_USER_IMAGE: string := "default-user.jpg"
  const MAX_NAME_LENGTH: nat := 100
  const MAX_ABOUT_LENGTH: nat := 500
  const OTP_LENGTH: nat := 6
  /** Default `max_length` of an `EmailField`. */
  const MAX_EMAIL_LENGTH: nat := 254
  /** Default `max_length` of a `FileField`, the bound on a stored file name. */
  const MAX_FILE_NAME_LENGTH: nat := 100

  /** The stored password column: blank as created, or a hash written by
      `set_password`. */
  datatype PasswordField = Blank | Hashed(digest: string)

  /** A row of the user table; its primary key is its position in the store. */
  datatype User = User(
    email: string,
    username: string,
    fullName: string,
    password: PasswordField,
    otp: Option<string>)

  /** A row of the profile table; the one-to-one `user` link is the key
      under which the store holds it. */
  datatype Profile = Profile(
    fullName: string,
    country: Option<string>,
    about: Option<string>,
    image: Option<string>)

  /** A failed write: a unique constraint (`IntegrityError`) or a value
      longer than its column on a backend that enforces lengths (`DataError`). */
  datatype DbError = IntegrityError(field: string) | DataError

  /** The validation error of `Profile.clean`, keyed by field. */
  datatype ValidationError = ValidationError(field: string, message: string)

  /** `email.split('@')[0]`. */
  function LocalPart(email: string): (local: string)
    ensures IsSplitHead(email, '@', local)
  {
    TakeUntil(email, '@')
  }

  /** The record as `User.save` leaves it before writing: a blank full name
      and a blank username are taken from the email's local part. */
  function UserSaveDefaults(u: User): (r: User)
    ensures r.fullName == if u.fullName == "" then LocalPart(u.email) else u.fullName
    ensures r.username == if u.username == "" then LocalPart(u.email) else u.username
    ensures r.email == u.email && r.password == u.password && r.otp == u.otp
  {
    var named := if u.fullName == "" then u.(fullName := LocalPart(u.email)) else u;
    if named.username == "" then named.(username := LocalPart(named.email)) else named
  }

  /** A filled-in full name is the text of the email before its first `@`,
      or the whole email when it has none. */
  lemma UserSaveDefaultsFullName(u: User)
    requires u.fullName == ""
    ensures var n := UserSaveDefaults(u).fullName;
      n <= u.email && '@' !in n && (|n| < |u.email| ==> u.email[|n|] == '@')
  {
  }

  /** A filled-in username is that same local part. */
  lemma UserSaveDefaultsUsername(u: User)
    requires u.username == ""
    ensures UserSaveDefaults(u).username == LocalPart(u.email)
    ensures var n := UserSaveDefaults(u).username;
      n <= u.email && '@' !in n && (|n| < |u.email| ==> u.email[|n|] == '@')
  {
  }

  /** `User.save` keeps names that are set, and only ever touches the two
      name fields. */
  lemma UserSaveDefaultsKeeps(u: User)
    ensures var v := UserSaveDefaults(u);
      && v.email == u.email && v.password == u.password && v.otp == u.otp
      && (u.fullName != "" ==> v.fullName == u.fullName)
      && (u.username != "" ==> v.username == u.username)
  {
  }

  /** Saving twice fills in nothing more than saving once. */
  lemma UserSaveDefaultsIdempotent(u: User)
    ensures UserSaveDefaults(UserSaveDefaults(u)) == UserSaveDefaults(u)
  {
  }

  /** Both names are non-blank after `User.save` exactly when they were set
      or the email does not begin with `@` (an email such as "@x.com" leaves
      a blank name blank). */
  lemma {:induction false} UserSaveDefaultsNonBlank(u: User)
    ensures var v := UserSaveDefaults(u);
      (v.fullName != "" && v.username != "") <==>
      ((u.fullName != "" && u.username != "") || (u.email != [] && u.email[0] != '@'))
  {
    var e := u.email;
    if e != [] && e[0] != '@' {
      assert LocalPart(e) == [e[0]] + TakeUntil(e[1..], '@');
    } else {
      assert LocalPart(e) == [];
    }
  }

  /** `Profile.save`: a blank full name is taken from the linked user's
      username. */
  function ProfileSaveDefaults(p: Profile, username: string): (q: Profile)
    ensures q.fullName == (if p.fullName == "" then username else p.fullName)
    ensures q.(fullName := p.fullName) == p
  {
    if p.fullName == "" then p.(fullName := username) else p
  }

  /** The profile `Profile.objects.create(user=...)` writes for a user with
      this username: blank fields, the default image, then `Profile.save`. */
  function NewProfile(username: string): (p: Profile)
    ensures p.fullName == username
    ensures p.country == None && p.about == None && p.image == Some(DEFAULT_USER_IMAGE)
  {
    ProfileSaveDefaults(Profile("", None, None, Some(DEFAULT_USER_IMAGE)), username)
  }

  /** Saving a just-created profile again changes nothing. */
  lemma NewProfileResaved(username: string)
    ensures ProfileSaveDefaults(NewProfile(username), username) == NewProfile(username)
  {
  }

  /** `Profile.clean`: an `about` text over the bound is rejected, keyed `about`. */
  function ProfileClean(p: Profile): (r: Option<ValidationError>)
    ensures r.Some? <==> p.about.Some? && |p.about.value| > MAX_ABOUT_LENGTH
    ensures r.Some? ==> r.value.field == "about"
  {
    if p.about.Some? && p.about.value != "" && |p.about.value| > MAX_ABOUT_LENGTH then
      Some(ValidationError("about", "About text cannot exceed 500 characters"))
    else
      None
  }

  /** `Profile.__str__`: the profile's own full name, or the user's. */
  function ProfileStr(p: Profile, owner: User): (s: string)
    ensures p.fullName != "" ==> s == p.fullName
    ensures p.fullName == "" ==> s == owner.fullName
  {
    if p.fullName != "" then p.fullName else owner.fullName
  }

  /** A profile written by `Profile.save` names itself after its user's
      username when it had no name, falling back to the user's full name
      only when that username is blank too. */
  lemma ProfileStrAfterSave(p: Profile, owner: User)
    ensures ProfileStr(ProfileSaveDefaults(p, owner.username), owner) ==
      if p.fullName != "" then p.fullName
      else if owner.username != "" then owner.username
      else owner.fullName
  {
  }

  /** The declared column lengths of a user row. */
  predicate UserFits(u: User) {
    && |u.email| <= MAX_EMAIL_LENGTH
    && |u.username| <= MAX_NAME_LENGTH
    && |u.fullName| <= MAX_NAME_LENGTH
    && (u.otp.Some? ==> |u.otp.value| <= OTP_LENGTH)
  }

  /** The declared column lengths of a profile row (`about` is a text
      column, which no backend bounds; `image` is a file field, whose
      stored name has Django's default bound). */
  predicate ProfileFits(p: Profile) {
    && |p.fullName| <= MAX_NAME_LENGTH
    && (p.country.Some? ==> |p.country.value| <= MAX_NAME_LENGTH)
    && (p.image.Some? ==> |p.image.value| <= MAX_FILE_NAME_LENGTH)
  }

  /** The profile created for a user whose username fits its column fits
      every profile column, the default image name included. */
  lemma NewProfileFits(username: string)
    requires |username| <= MAX_NAME_LENGTH
    ensures ProfileFits(NewProfile(username))
  {
  }

  /** Rows other than `skip` that already hold this email. */
  predicate EmailTaken(users: seq<User>, skip: int, email: string) {
    exists j :: 0 <= j < |users| && j != skip && users[j].email == email
  }

  predicate UsernameTaken(users: seq<User>, skip: int, username: string) {
    exists j :: 0 <= j < |users| && j != skip && users[j].username == username
  }

  /** What the database says about writing `u` at row `skip` (-1 for a new
      row): a length error on a strict backend, then the unique email and
      username constraints. */
  function WriteError(users: seq<User>, skip: int, u: User, strict: bool): (r: Option<DbError>)
    ensures r.None? <==>
      (strict ==> UserFits(u)) && !EmailTaken(users, skip, u.email) && !UsernameTaken(users, skip, u.username)
    ensures r == Some(IntegrityError("email")) <==> (strict ==> UserFits(u)) && EmailTaken(users, skip, u.email)
  {
    if strict && !UserFits(u) then Some(DataError)
    else if EmailTaken(users, skip, u.email) then Some(IntegrityError("email"))
    else if UsernameTaken(users, skip, u.username) then Some(IntegrityError("username"))
    else None
  }

  predicate UniqueEmails(users: seq<User>) {
    forall i, j :: 0 <= i < j < |users| ==> users[i].email != users[j].email
  }

  predicate UniqueUsernames(users: seq<User>) {
    forall i, j :: 0 <= i < j < |users| ==> users[i].username != users[j].username
  }

  /** Appending a row whose email and username are free keeps both columns
      unique. */
  lemma AppendKeepsUnique(users: seq<User>, v: User)
    requires UniqueEmails(users) && UniqueUsernames(users)
    requires !EmailTaken(users, -1, v.email) && !UsernameTaken(users, -1, v.username)
    ensures UniqueEmails(users + [v]) && UniqueUsernames(users + [v])
  {
    var us := users + [v];
    forall i, j | 0 <= i < j < |us|
      ensures us[i].email != us[j].email && us[i].username != us[j].username
    {
      if j == |users| {
        assert us[i] == users[i];
      }
    }
  }

  /** Overwriting row `k` with a row whose email and username no other row
      holds keeps both columns unique. */
  lemma UpdateKeepsUnique(users: seq<User>, k: nat, v: User)
    requires k < |users|
    requires UniqueEmails(users) && UniqueUsernames(users)
    requires !EmailTaken(users, k, v.email) && !UsernameTaken(users, k, v.username)
    ensures UniqueEmails(users[k := v]) && UniqueUsernames(users[k := v])
  {
    var us := users[k := v];
    forall i, j | 0 <= i < j < |us|
      ensures us[i].email != us[j].email && us[i].username != us[j].username
    {
      if i == k {
        assert us[j] == users[j];
      } else if j == k {
        assert us[i] == users[i];
      }
    }
  }

  /** The invariant of the two tables. Every user has exactly one profile
      (user row `k` has key `k + 1`, its profile is `profiles[k + 1]`);
      emails and usernames are unique; every stored row is as its `save`
      left it; on a strict backend every value fits its column. */
  ghost predicate TablesValid(users: seq<User>, profiles: map<nat, Profile>, strict: bool) {
    && (forall pk :: pk in profiles <==> 1 <= pk <= |users|)
    && UniqueEmails(users)
    && UniqueUsernames(users)
    && UsersSaved(users)
    && ProfilesSaved(users, profiles)
    && (strict ==> UsersFit(users) && ProfilesFit(profiles))
  }

  ghost predicate UsersSaved(users: seq<User>) {
    forall k :: 0 <= k < |users| ==> UserSaveDefaults(users[k]) == users[k]
  }

  ghost predicate ProfilesSaved(users: seq<User>, profiles: map<nat, Profile>) {
    forall pk :: pk in profiles && 1 <= pk <= |users| ==>
      ProfileSaveDefaults(profiles[pk], users[pk - 1].username) == profiles[pk]
  }

  ghost predicate UsersFit(users: seq<User>) {
    forall k :: 0 <= k < |users| ==> UserFits(users[k])
  }

  ghost predicate ProfilesFit(profiles: map<nat, Profile>) {
    forall pk :: pk in profiles ==> ProfileFits(profiles[pk])
  }

  /** Inserting a new user row that the database accepts, together with its
      new profile, keeps the invariant. */
  lemma InsertKeepsTablesValid(users: seq<User>, profiles: map<nat, Profile>, strict: bool, v: User)
    requires TablesValid(users, profiles, strict)
    requires UserSaveDefaults(v) == v
    requires WriteError(users, -1, v, strict).None?
    ensures TablesValid(users + [v], profiles[|users| + 1 := NewProfile(v.username)], strict)
  {
    AppendKeepsUnique(users, v);
    var us := users + [v];
    var ps := profiles[|users| + 1 := NewProfile(v.username)];
    assert UsersSaved(us) by {
      forall k | 0 <= k < |us| ensures UserSaveDefaults(us[k]) == us[k] {
        if k < |users| { assert us[k] == users[k]; }
      }
    }
    assert ProfilesSaved(us, ps) by {
      forall pk | pk in ps && 1 <= pk <= |us|
        ensures ProfileSaveDefaults(ps[pk], us[pk - 1].username) == ps[pk]
      {
        if pk <= |users| { assert us[pk - 1] == users[pk - 1]; }
      }
    }
    if strict {
      assert UsersFit(us) by {
        forall k | 0 <= k < |us| ensures UserFits(us[k]) {
          if k < |users| { assert us[k] == users[k]; }
        }
      }
      ProfileWriteKeepsFit(profiles, |users| + 1, NewProfile(v.username));
    }
  }

  /** Overwriting the user row with key `pk` with a row the database
      accepts, and re-saving its profile, keeps the invariant. */
  lemma UpdateKeepsTablesValid(users: seq<User>, profiles: map<nat, Profile>, strict: bool, pk: nat, v: User)
    requires TablesValid(users, profiles, strict)
    requires 1 <= pk <= |users|
    requires UserSaveDefaults(v) == v
    requires WriteError(users, pk - 1, v, strict).None?
    ensures pk in profiles
    ensures TablesValid(users[pk - 1 := v], profiles[pk := ProfileSaveDefaults(profiles[pk], v.username)], strict)
  {
    var k := pk - 1;
    UpdateKeepsUnique(users, k, v);
    var us := users[k := v];
    var ps := profiles[pk := ProfileSaveDefaults(profiles[pk], v.username)];
    assert UsersSaved(us) by {
      forall i | 0 <= i < |us| ensures UserSaveDefaults(us[i]) == us[i] {
        if i != k { assert us[i] == users[i]; }
      }
    }
    assert ProfilesSaved(us, ps) by {
      forall q | q in ps && 1 <= q <= |us|
        ensures ProfileSaveDefaults(ps[q], us[q - 1].username) == ps[q]
      {
        if q != pk { assert us[q - 1] == users[q - 1]; }
      }
    }
    if strict {
      assert UsersFit(us) by {
        forall i | 0 <= i < |us| ensures UserFits(us[i]) {
          if i != k { assert us[i] == users[i]; }
        }
      }
      ProfileWriteKeepsFit(profiles, pk, ps[pk]);
    }
  }

  /** Writing back stored row `k` with its email and username unchanged
      meets both unique constraints. */
  lemma RewriteKeepsKeysFree(users: seq<User>, profiles: map<nat, Profile>, strict: bool, k: nat, w: User)
    requires TablesValid(users, profiles, strict)
    requires k < |users|
    requires w.email == users[k].email && w.username == users[k].username
    ensures !EmailTaken(users, k, w.email) && !UsernameTaken(users, k, w.username)
  {
  }

  /** Re-saving a stored profile for its own user's username changes nothing. */
  lemma ResaveKeepsProfile(users: seq<User>, profiles: map<nat, Profile>, strict: bool, pk: nat)
    requires TablesValid(users, profiles, strict)
    requires 1 <= pk <= |users|
    ensures pk in profiles
    ensures profiles[pk := ProfileSaveDefaults(profiles[pk], users[pk - 1].username)] == profiles
  {
    assert ProfileSaveDefaults(profiles[pk], users[pk - 1].username) == profiles[pk];
  }

  /** Re-saving a stored user with only its password replaced passes every
      check and leaves its profile as it is. */
  lemma PasswordRewriteSaves(users: seq<User>, profiles: map<nat, Profile>, strict: bool, pk: nat, password: PasswordField)
    requires TablesValid(users, profiles, strict)
    requires 1 <= pk <= |users|
    ensures var w := users[pk - 1].(password := password);
      && UserSaveDefaults(w) == w
      && WriteError(users, pk - 1, w, strict).None?
      && pk in profiles
      && profiles[pk := ProfileSaveDefaults(profiles[pk], w.username)] == profiles
  {
    var w := users[pk - 1].(password := password);
    assert UserSaveDefaults(users[pk - 1]) == users[pk - 1];
    assert strict ==> UserFits(users[pk - 1]);
    RewriteKeepsKeysFree(users, profiles, strict, pk - 1, w);
    ResaveKeepsProfile(users, profiles, strict, pk);
  }

  /** Overwriting one profile with a re-save-stable value keeps every
      profile re-save-stable. */
  lemma ProfileWriteKeepsSaved(users: seq<User>, profiles: map<nat, Profile>, pk: nat, q: Profile)
    requires ProfilesSaved(users, profiles)
    requires 1 <= pk <= |users|
    requires ProfileSaveDefaults(q, users[pk - 1].username) == q
    ensures ProfilesSaved(users, profiles[pk := q])
  {
    var ps := profiles[pk := q];
    forall k | k in ps && 1 <= k <= |users|
      ensures ProfileSaveDefaults(ps[k], users[k - 1].username) == ps[k]
    {
      if k != pk { assert ps[k] == profiles[k]; }
    }
  }

  /** Overwriting one profile with one that fits keeps every profile fitting. */
  lemma ProfileWriteKeepsFit(profiles: map<nat, Profile>, pk: nat, q: Profile)
    requires ProfilesFit(profiles)
    requires ProfileFits(q)
    ensures ProfilesFit(profiles[pk := q])
  {
    var ps := profiles[pk := q];
    forall k | k in ps ensures ProfileFits(ps[k]) {
      if k != pk { assert ps[k] == profiles[k]; }
    }
  }

  /** Writing a user's profile as `Profile.save` leaves it keeps the tables
      valid when it fits. */
  lemma SetProfileKeepsTablesValid(users: seq<User>, profiles: map<nat, Profile>, strict: bool, pk: nat, p: Profile)
    requires TablesValid(users, profiles, strict)
    requires 1 <= pk <= |users|
    requires strict ==> ProfileFits(ProfileSaveDefaults(p, users[pk - 1].username))
    ensures TablesValid(users, profiles[pk := ProfileSaveDefaults(p, users[pk - 1].username)], strict)
  {
    var q := ProfileSaveDefaults(p, users[pk - 1].username);
    assert ProfileSaveDefaults(q, users[pk - 1].username) == q;
    ProfileWriteKeepsSaved(users, profiles, pk, q);
    if strict {
      ProfileWriteKeepsFit(profiles, pk, q);
    }
    assert (profiles[pk := q]).Keys == profiles.Keys;
  }

  /** Both tables, held by primary key. `strictLengths` says whether the
      backend rejects values longer than their column (PostgreSQL does,
      SQLite does not). */
  class Store {
    const strictLengths: bool
    var users: seq<User>
    var profiles: map<nat, Profile>

    ghost predicate Valid()
      reads this
    {
      TablesValid(users, profiles, strictLengths)
    }

    constructor (strictLengths: bool)
      ensures Valid()
      ensures this.strictLengths == strictLengths
      ensures users == [] && profiles == map[]
    {
      this.strictLengths := strictLengths;
      users := [];
      profiles := map[];
    }

    /** `User.objects.create(...)`: `User.save` on a new instance, the
        insert, then `create_user_profile` (created) and `save_user_profile`.
        Returns the new primary key. */
    method CreateUser(u: User) returns (r: Result<nat, DbError>)
      requires Valid()
      modifies this
      ensures Valid()
      ensures var v := UserSaveDefaults(u);
        match WriteError(old(users), -1, v, strictLengths)
        case Some(e) =>
          r == Failure(e) && users == old(users) && profiles == old(profiles)
        case None =>
          && r == Success(|old(users)| + 1)
          && r.value !in old(profiles)
          && users == old(users) + [v]
          && profiles == old(profiles)[r.value := NewProfile(v.username)]
    {
      // The two statements of `User.save`, which `UserSaveDefaults` states as a value.
      var v := u;
      if v.fullName == "" {
        v := v.(fullName := LocalPart(v.email));
      }
      if v.username == "" {
        v := v.(username := LocalPart(v.email));
      }
      assert v == UserSaveDefaults(u);
      var err := WriteError(users, -1, v, strictLengths);
      if err.Some? {
        return Failure(err.value);
      }
      UserSaveDefaultsIdempotent(u);
      InsertKeepsTablesValid(users, profiles, strictLengths, v);
      var pk := |users| + 1;
      // create_user_profile: the instance was created, so its profile is.
      var profile := NewProfile(v.username);
      // save_user_profile: that profile is saved once more.
      profile := ProfileSaveDefaults(profile, v.username);
      NewProfileResaved(v.username);
      users, profiles := users + [v], profiles[pk := profile];
      r := Success(pk);
    }

    /** `user.save()` on an instance loaded from row `pk`: `User.save`, the
        update, then `save_user_profile` re-saves the user's profile. */
    method SaveUser(pk: nat, u: User) returns (r: Result<User, DbError>)
      requires Valid()
      requires 1 <= pk <= |users|
      modifies this
      ensures Valid()
      ensures pk in old(profiles)
      ensures var err := WriteError(old(users), pk - 1, UserSaveDefaults(u), strictLengths);
        err.Some? ==> r == Failure(err.value) && users == old(users) && profiles == old(profiles)
      ensures var v := UserSaveDefaults(u);
        WriteError(old(users), pk - 1, v, strictLengths).None? ==>
          && r == Success(v)
          && users == old(users)[pk - 1 := v]
          && profiles == old(profiles)[pk := ProfileSaveDefaults(old(profiles)[pk], v.username)]
    {
      assert pk in profiles;
      // The two statements of `User.save`, which `UserSaveDefaults` states as a value.
      var v := u;
      if v.fullName == "" {
        v := v.(fullName := LocalPart(v.email));
      }
      if v.username == "" {
        v := v.(username := LocalPart(v.email));
      }
      assert v == UserSaveDefaults(u);
      var err := WriteError(users, pk - 1, v, strictLengths);
      if err.Some? {
        return Failure(err.value);
      }
      UserSaveDefaultsIdempotent(u);
      UpdateKeepsTablesValid(users, profiles, strictLengths, pk, v);
      // save_user_profile: the instance was not created, so only a re-save.
      var profile := ProfileSaveDefaults(profiles[pk], v.username);
      users, profiles := users[pk - 1 := v], profiles[pk := profile];
      r := Success(v);
    }

    /** `profile.save()` on the profile of the user with key `pk`. */
    method SaveProfile(pk: nat, p: Profile) returns (r: Result<Profile, DbError>)
      requires Valid()
      modifies this
      ensures Valid()
      ensures users == old(users)
      ensures !(1 <= pk <= |users|) ==> r == Failure(IntegrityError("user")) && profiles == old(profiles)
      ensures 1 <= pk <= |users| ==>
        var q := ProfileSaveDefaults(p, users[pk - 1].username);
        if strictLengths && !ProfileFits(q) then r == Failure(DataError) && profiles == old(profiles)
        else r == Success(q) && profiles == old(profiles)[pk := q]
    {
      if !(1 <= pk <= |users|) {
        return Failure(IntegrityError("user"));
      }
      var q := p;
      if q.fullName == "" {
        q := q.(fullName := users[pk - 1].username);
      }
      if strictLengths && !ProfileFits(q) {
        return Failure(DataError);
      }
      SetProfileKeepsTablesValid(users, profiles, strictLengths, pk, p);
      profiles := profiles[pk := q];
      r := Success(q);
    }
  }

  /** Registering an email whose local part another user already holds as
      username fails on the username constraint, even when the email is new
      ("a@y.com" after "a@x.com"). */
  lemma CreateCollidesOnLocalPart(users: seq<User>, u: User, strict: bool)
    requires u.username == ""
    requires !EmailTaken(users, -1, u.email)
    requires exists j :: 0 <= j < |users| && users[j].username == LocalPart(u.email)
    requires strict ==> UserFits(UserSaveDefaults(u))
    ensures WriteError(users, -1, UserSaveDefaults(u), strict) == Some(IntegrityError("username"))
  {
  }
}
