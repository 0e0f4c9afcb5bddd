/** The API serializers: the login token's extra claims, the registration
    checks and account creation, and the fields the user and registration
    serializers expose. */
module ApiSerializer {
  import opened Wrappers
  import opened Strings
  import opened UserAuths

  /** A JSON scalar, as token claims and serializer output hold them. */
  datatype Value = Str(s: string) | Int(n: int)

  /** The claims `get_token` adds to the library's token. */
  const CUSTOM_CLAIMS: set<string> := {"full_name", "email", "username"}

  /** A token's claims dictionary, which `update` changes in place. Signing
      it is the JWT library's concern and is not part of this model. */
  class Token {
    var claims: map<string, Value>

    constructor (claims: map<string, Value>)
      ensures this.claims == claims
    {
      this.claims := claims;
    }

    /** `dict.update`: every key of `extra` takes its value there, every
        other key keeps its value. */
    method Update(extra: map<string, Value>)
      modifies this
      ensures claims == old(claims) + extra
    {
      claims := claims + extra;
    }
  }

  /** `MyTokenObtainPairSerializer.get_token`: the token the library builds
      for the user (its claims are `base`), with the user's full name,
      email and username added. The user record is a value and is not
      touched. */
  method GetToken(user: User, base: map<string, Value>) returns (token: Token)
    ensures fresh(token)
    ensures token.claims.Keys == base.Keys + CUSTOM_CLAIMS
    ensures token.claims["full_name"] == Str(user.fullName)
    ensures token.claims["email"] == Str(user.email)
    ensures token.claims["username"] == Str(user.username)
    ensures forall k :: k in base && k !in CUSTOM_CLAIMS ==> token.claims[k] == base[k]
  {
    token := new Token(base);
    token.Update(map[
      "full_name" := Str(user.fullName),
      "email" := Str(user.email),
      "username" := Str(user.username)]);
  }

  /** A serializer error, keyed by field. */
  datatype FieldError = FieldError(field: string, message: string)

  /** `RegisterSerializer.validate`: the two password fields must agree. */
  function Validate(attrs: map<string, string>): (r: Result<map<string, string>, FieldError>)
    requires "password" in attrs && "password2" in attrs
    ensures r.Failure? <==> attrs["password"] != attrs["password2"]
    ensures r.Failure? ==> r.error.field == "password"
    ensures r.Success? ==> r.value == attrs
  {
    if attrs["password"] != attrs["password2"] then
      Failure(FieldError("password", "Password fields didn't match."))
    else
      Success(attrs)
  }

  /** The password field's validation followed by `validate`: the
      password must first satisfy `policy` (Django's `validate_password`,
      supplied by the caller), then match its confirmation. `attrs` are
      the field values after DRF's conversion, which has already stripped
      surrounding whitespace from both password fields. */
  function RunValidation(attrs: map<string, string>, policy: string -> bool): (r: Result<map<string, string>, FieldError>)
    requires "password" in attrs && "password2" in attrs
    ensures r.Success? <==> policy(attrs["password"]) && attrs["password"] == attrs["password2"]
    ensures r.Success? ==> r.value == attrs
    ensures r.Failure? ==> r.error.field == "password"
  {
    if !policy(attrs["password"]) then
      Failure(FieldError("password", "This password does not satisfy the password policy."))
    else
      Validate(attrs)
  }

  /** The record `User.objects.create(email=..., full_name=...)` starts
      from: no username, a blank password and no OTP. Its save therefore
      takes the username from the email, and the full name too when it was
      given blank. */
  function Unsaved(email: string, fullName: string): (u: User)
    ensures var saved := UserSaveDefaults(u);
      && saved.email == email
      && saved.username == LocalPart(email)
      && saved.fullName == (if fullName == "" then LocalPart(email) else fullName)
      && saved.password == Blank && saved.otp == None
  {
    User(email, "", fullName, Blank, None)
  }

  /** `RegisterSerializer.create`: `password2` is dropped, the user is
      created from the email and full name (which creates its profile),
      then the password is written through `set_password` as `hash` of it
      and the user saved again. Returns the new user's primary key. */
  method Create(store: Store, validatedData: map<string, string>, hash: string -> string)
    returns (r: Result<nat, DbError>)
    requires store.Valid()
    requires "email" in validatedData && "full_name" in validatedData && "password" in validatedData
    modifies store
    ensures store.Valid()
    ensures var email := validatedData["email"];
      var err := WriteError(old(store.users), -1, UserSaveDefaults(Unsaved(email, validatedData["full_name"])), store.strictLengths);
      err.Some? ==> r == Failure(err.value) && store.users == old(store.users) && store.profiles == old(store.profiles)
    ensures var email := validatedData["email"];
      var fullName := validatedData["full_name"];
      var err := WriteError(old(store.users), -1, UserSaveDefaults(Unsaved(email, fullName)), store.strictLengths);
      err.None? ==>
        && r == Success(|old(store.users)| + 1)
        && store.users == old(store.users) + [User(
             email,
             LocalPart(email),
             if fullName == "" then LocalPart(email) else fullName,
             Hashed(hash(validatedData["password"])),
             None)]
        && store.profiles == old(store.profiles)[r.value := NewProfile(LocalPart(email))]
  {
    var data := validatedData - {"password2"};
    var created := store.CreateUser(Unsaved(data["email"], data["full_name"]));
    if created.Failure? {
      return Failure(created.error);
    }
    var pk := created.value;
    var user := store.users[pk - 1];
    user := user.(password := Hashed(hash(data["password"])));
    PasswordRewriteSaves(store.users, store.profiles, store.strictLengths, pk, user.password);
    var saved := store.SaveUser(pk, user);
    r := Success(pk);
  }

  /** `UserSerializer`'s output: id, email, username and full name. */
  function UserRepresentation(pk: nat, u: User): (out: map<string, Value>)
    ensures out.Keys == {"id", "email", "username", "full_name"}
    ensures out["id"] == Int(pk) && out["email"] == Str(u.email)
    ensures out["username"] == Str(u.username) && out["full_name"] == Str(u.fullName)
    ensures "password" !in out && "otp" !in out
  {
    map["id" := Int(pk), "email" := Str(u.email), "username" := Str(u.username), "full_name" := Str(u.fullName)]
  }

  /** The user representation does not depend on the password or the OTP. */
  lemma UserRepresentationHidesSecrets(pk: nat, u: User, password: PasswordField, otp: Option<string>)
    ensures UserRepresentation(pk, u) == UserRepresentation(pk, u.(password := password, otp := otp))
  {
  }

  /** `RegisterSerializer`'s output: both password fields are write-only,
      so only the email and full name are read back. */
  function RegisterRepresentation(u: User): (out: map<string, Value>)
    ensures out.Keys == {"email", "full_name"}
    ensures out["email"] == Str(u.email) && out["full_name"] == Str(u.fullName)
    ensures "password" !in out && "password2" !in out
  {
    map["email" := Str(u.email), "full_name" := Str(u.fullName)]
  }
}
