/** The API views: the OTP generator, the user lookup by email and the
    password-reset request, which stores a fresh OTP and answers with a
    reset link. */
module ApiViews {
  import opened Wrappers
  import opened Strings
  import opened UserAuths

  const FRONTEND_URL: string := "http://localhost:5173"
  /** The default `length` of `generate_random_otp`. */
  const DEFAULT_OTP_DIGITS: nat := 7

  /** `generate_random_otp(length)`: one `random.randint(0, 9)` per
      position, written out and joined. Draw `i` of the random source is
      `rand(i)`. */
  function GenerateRandomOtp(length: nat, rand: nat -> Digit): (otp: string)
    ensures |otp| == length
    ensures IsDigitString(otp)
    ensures forall i :: 0 <= i < length ==> otp[i] == DigitChar(rand(i))
  {
    if length == 0 then ""
    else GenerateRandomOtp(length - 1, rand) + [DigitChar(rand(length - 1))]
  }

  /** Draws that spell out a given digit string. */
  function DrawsFor(s: string): nat -> Digit
    requires IsDigitString(s)
  {
    (i: nat) => if i < |s| then DigitValue(s[i]) else 0
  }

  /** Every digit string, leading zeros included, is an OTP the generator
      can produce. */
  lemma EveryDigitStringIsAnOtp(s: string)
    requires IsDigitString(s)
    ensures GenerateRandomOtp(|s|, DrawsFor(s)) == s
  {
    var otp := GenerateRandomOtp(|s|, DrawsFor(s));
    forall i | 0 <= i < |s| ensures otp[i] == s[i] {
      assert DrawsFor(s)(i) == DigitValue(s[i]);
    }
  }

  /** The default OTP is one digit wider than the `otp` column declares
      (`OTP_LENGTH`), so a row holding one does not fit that column. */
  lemma DefaultOtpOverflowsColumn(u: User, rand: nat -> Digit)
    ensures var otp := GenerateRandomOtp(DEFAULT_OTP_DIGITS, rand);
      |otp| == OTP_LENGTH + 1 && !UserFits(u.(otp := Some(otp)))
  {
  }

  /** `PasswordResetEmailVerifyAPIView.get_object`:
      `User.objects.filter(email=email).first()`, the matching user with the
      lowest primary key. */
  function GetObject(users: seq<User>, email: string): (r: Option<nat>)
    ensures r.Some? ==> 1 <= r.value <= |users| && users[r.value - 1].email == email
    ensures r.Some? ==> forall k :: 0 <= k < r.value - 1 ==> users[k].email != email
    ensures r.None? <==> forall k :: 0 <= k < |users| ==> users[k].email != email
  {
    if users == [] then None
    else if users[0].email == email then Some(1)
    else
      match GetObject(users[1..], email)
      case None =>
        assert forall k :: 1 <= k < |users| ==> users[k] == users[1..][k - 1];
        None
      case Some(pk) =>
        assert forall k :: 1 <= k <= pk ==> users[k] == users[1..][k - 1];
        Some(pk + 1)
  }

  /** With unique emails the first match is the only one. */
  lemma {:induction false} GetObjectUnique(users: seq<User>, k: nat)
    requires UniqueEmails(users)
    requires k < |users|
    ensures GetObject(users, users[k].email) == Some(k + 1)
  {
    var r := GetObject(users, users[k].email);
    assert r.Some?;
  }

  /** A reply: HTTP status and JSON body. */
  datatype Response = Response(status: nat, body: map<string, string>)

  const RESET_PATH: string := "/create-new-password/?otp="

  /** The link the reset request returns: the frontend's reset page, then
      the `otp`, `uuid` and `refresh_token` query values in that order. */
  function ResetLink(otp: string, uuid: nat, refreshToken: string): (link: string)
    ensures |link| == |FRONTEND_URL + RESET_PATH| + |otp| + |"&uuid="| + |NatToString(uuid)|
      + |"&refresh_token="| + |refreshToken|
    ensures link[..|FRONTEND_URL + RESET_PATH|] == FRONTEND_URL + RESET_PATH
    ensures link[|link| - |refreshToken|..] == refreshToken
  {
    LinkLayout(FRONTEND_URL + RESET_PATH, otp, NatToString(uuid), refreshToken);
    FRONTEND_URL + RESET_PATH + otp + "&uuid=" + NatToString(uuid) + "&refresh_token=" + refreshToken
  }

  /** A link of the reset link's shape starts with its `base` and ends with
      its token. */
  lemma LinkLayout(base: string, otp: string, uuidText: string, refreshToken: string)
    ensures var link := base + otp + "&uuid=" + uuidText + "&refresh_token=" + refreshToken;
      && link[..|base|] == base
      && link[|link| - |refreshToken|..] == refreshToken
  {
    var head3 := base + otp + "&uuid=" + uuidText + "&refresh_token=";
    var rest1 := "&uuid=" + (uuidText + ("&refresh_token=" + refreshToken));
    Regroup(base + otp + "&uuid=" + uuidText, "&refresh_token=", refreshToken);
    Regroup(base + otp + "&uuid=", uuidText, "&refresh_token=" + refreshToken);
    Regroup(base + otp, "&uuid=", uuidText + ("&refresh_token=" + refreshToken));
    Regroup(base, otp, rest1);
    SplitAtSeam(base, otp + rest1);
    SplitAtSeam(head3, refreshToken);
  }

  /** A string of digits has no `&` in it. */
  lemma DigitsHaveNoAmpersand(s: string)
    requires IsDigitString(s)
    ensures '&' !in s
  {
  }

  /** Concatenation regroups. */
  lemma Regroup(a: string, b: string, c: string)
    ensures a + b + c == a + (b + c)
  {
  }

  /** A concatenation splits back at the seam. */
  lemma SplitAtSeam(a: string, b: string)
    ensures (a + b)[..|a|] == a && (a + b)[|a|..] == b
  {
  }

  /** A value without `&`, followed by `&` and the rest of a query, is read
      back up to that `&`. */
  lemma QueryValueReadBack(value: string, sepAndRest: string)
    requires '&' !in value
    requires |sepAndRest| > 0 && sepAndRest[0] == '&'
    ensures TakeUntil(value + sepAndRest, '&') == value
  {
    assert sepAndRest == ['&'] + sepAndRest[1..];
    Regroup(value, ['&'], sepAndRest[1..]);
    SplitHeadOfJoin(value, '&', sepAndRest[1..]);
  }

  /** Reading the two query values back out of a link of the reset link's
      shape, for any leading `base`. */
  lemma QueryValuesReadBack(base: string, otp: string, uuidText: string, refreshToken: string)
    requires '&' !in otp && '&' !in uuidText
    ensures var link := base + otp + "&uuid=" + uuidText + "&refresh_token=" + refreshToken;
      && link[..|base|] == base
      && TakeUntil(link[|base|..], '&') == otp
      && TakeUntil(link[|base| + |otp| + |"&uuid="|..], '&') == uuidText
      && link[|link| - |refreshToken|..] == refreshToken
  {
    var head3 := base + otp + "&uuid=" + uuidText + "&refresh_token=";
    var head2 := base + otp + "&uuid=";
    var rest3 := "&refresh_token=" + refreshToken;
    var rest2 := uuidText + rest3;
    var rest1 := "&uuid=" + rest2;
    var rest0 := otp + rest1;
    var link := head3 + refreshToken;
    Regroup(head2 + uuidText, "&refresh_token=", refreshToken);
    Regroup(head2, uuidText, rest3);
    Regroup(base + otp, "&uuid=", rest2);
    Regroup(base, otp, rest1);
    assert link == base + rest0;
    assert link == head2 + rest2;
    SplitAtSeam(base, rest0);
    SplitAtSeam(head2, rest2);
    SplitAtSeam(head3, refreshToken);
    QueryValueReadBack(otp, rest1);
    QueryValueReadBack(uuidText, rest3);
  }

  /** The link starts with the frontend's reset page, and reading its
      `otp` and `uuid` parameters back (each up to the next `&`) gives the
      OTP and the primary key; the token is its tail. */
  lemma ResetLinkCarries(otp: string, uuid: nat, refreshToken: string)
    requires IsDigitString(otp)
    ensures var link := ResetLink(otp, uuid, refreshToken);
      var start := |FRONTEND_URL + RESET_PATH|;
      && link[..start] == FRONTEND_URL + RESET_PATH
      && TakeUntil(link[start..], '&') == otp
      && TakeUntil(link[start + |otp| + |"&uuid="|..], '&') == NatToString(uuid)
      && ParseNat(TakeUntil(link[start + |otp| + |"&uuid="|..], '&')) == uuid
      && link[|link| - |refreshToken|..] == refreshToken
  {
    DigitsHaveNoAmpersand(otp);
    DigitsHaveNoAmpersand(NatToString(uuid));
    QueryValuesReadBack(FRONTEND_URL + RESET_PATH, otp, NatToString(uuid), refreshToken);
    ParseNatToString(uuid);
  }

  const NOT_FOUND: Response := Response(404, map["error" := "No user found with this email address."])
  /** What Django answers when a view raises (here, a database error). */
  const SERVER_ERROR: Response := Response(500, map[])
  const RESET_MESSAGE: string := "Password reset link generated successfully"

  /** `PasswordResetEmailVerifyAPIView.get`. `rand` is the random source of
      the OTP and `mint` gives the access token `RefreshToken.for_user`
      issues for a primary key. An unknown email gets a 404 and nothing is
      written. A known user gets a new default-width OTP, saved; on a
      backend that enforces column lengths that save fails (the OTP is one
      digit wider than its column) and the request ends in a server error
      with nothing written; otherwise the reply is 200 with the link. */
  method PasswordResetEmailVerify(store: Store, email: string, rand: nat -> Digit, mint: nat -> string)
    returns (resp: Response)
    requires store.Valid()
    modifies store
    ensures store.Valid()
    ensures store.profiles == old(store.profiles)
    ensures GetObject(old(store.users), email).None? ==>
      resp == NOT_FOUND && store.users == old(store.users)
    ensures GetObject(old(store.users), email).Some? && store.strictLengths ==>
      resp == SERVER_ERROR && store.users == old(store.users)
    ensures var found := GetObject(old(store.users), email);
      found.Some? && !store.strictLengths ==>
        var pk := found.value;
        var otp := GenerateRandomOtp(DEFAULT_OTP_DIGITS, rand);
        && store.users == old(store.users)[pk - 1 := old(store.users)[pk - 1].(otp := Some(otp))]
        && resp == Response(200, map["message" := RESET_MESSAGE, "reset_link" := ResetLink(otp, pk, mint(pk))])
  {
    var found := GetObject(store.users, email);
    if found.None? {
      return NOT_FOUND;
    }
    var pk := found.value;
    var uuidb64 := pk;
    var refreshToken := mint(pk);
    var user := store.users[pk - 1];
    user := user.(otp := Some(GenerateRandomOtp(DEFAULT_OTP_DIGITS, rand)));
    assert UserSaveDefaults(user) == user by {
      assert UserSaveDefaults(store.users[pk - 1]) == store.users[pk - 1];
    }
    RewriteKeepsKeysFree(store.users, store.profiles, store.strictLengths, pk - 1, user);
    ResaveKeepsProfile(store.users, store.profiles, store.strictLengths, pk);
    DefaultOtpOverflowsColumn(store.users[pk - 1], rand);
    var saved := store.SaveUser(pk, user);
    if saved.Failure? {
      return SERVER_ERROR;
    }
    var link := ResetLink(saved.value.otp.value, uuidb64, refreshToken);
    resp := Response(200, map["message" := RESET_MESSAGE, "reset_link" := link]);
  }
}
