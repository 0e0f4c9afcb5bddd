/** The frontend's authentication store: the decoded user data (or null)
    and a loading flag, two setters, and two read-only getters. */
module FrontendAuth {

  /** The JavaScript values the store can hold (numbers are integers here). */
  datatype JsValue =
    | JsNull
    | JsUndefined
    | JsBool(b: bool)
    | JsNumber(n: int)
    | JsString(s: string)
    | JsObject(props: map<string, JsValue>)

  /** JavaScript truthiness. */
  predicate Truthy(v: JsValue) {
    match v
    case JsNull => false
    case JsUndefined => false
    case JsBool(b) => b
    case JsNumber(n) => n != 0
    case JsString(s) => s != ""
    case JsObject(_) => true
  }

  /** `v?.key`: undefined when `v` is null, undefined or a primitive, or
      an object without that property. */
  function OptionalGet(v: JsValue, key: string): (r: JsValue)
    ensures v.JsObject? && key in v.props ==> r == v.props[key]
    ensures !(v.JsObject? && key in v.props) ==> r == JsUndefined
  {
    if v.JsObject? && key in v.props then v.props[key] else JsUndefined
  }

  /** `x || null`. */
  function OrNull(v: JsValue): (r: JsValue)
    ensures r == JsNull || Truthy(r)
    ensures Truthy(v) ==> r == v
    ensures !Truthy(v) ==> r == JsNull
  {
    if Truthy(v) then v else JsNull
  }

  /** The shape `user()` returns. */
  datatype UserSummary = UserSummary(userId: JsValue, username: JsValue)

  class AuthStore {
    var allUserData: JsValue
    var loading: bool

    /** The store's initial state. */
    constructor ()
      ensures allUserData == JsNull && !loading
      ensures !IsLoggedIn()
    {
      allUserData := JsNull;
      loading := false;
    }

    /** `isLoggedIn()`: strictly `allUserData !== null`, so an undefined
        value counts as logged in. */
    predicate IsLoggedIn()
      reads this
    {
      allUserData != JsNull
    }

    /** `user()`: the `user_id` and `username` of the user data, each null
        when absent or falsy. */
    function User(): (r: UserSummary)
      reads this
      ensures !allUserData.JsObject? ==> r == UserSummary(JsNull, JsNull)
    {
      UserSummary(
        OrNull(OptionalGet(allUserData, "user_id")),
        OrNull(OptionalGet(allUserData, "username")))
    }

    /** `setUser(user)`: replaces the user data; `loading` is unchanged. */
    method SetUser(user: JsValue)
      modifies this
      ensures allUserData == user && loading == old(loading)
      ensures IsLoggedIn() <==> user != JsNull
    {
      allUserData := user;
    }

    /** `setLoading(loading)`: replaces the flag; the user data is unchanged. */
    method SetLoading(b: bool)
      modifies this
      ensures loading == b && allUserData == old(allUserData)
      ensures IsLoggedIn() == old(IsLoggedIn()) && User() == old(User())
    {
      loading := b;
    }
  }

  /** Each field of `user()` is null or a truthy value, never undefined,
      false, 0 or the empty string. */
  lemma UserSummaryNormalised(store: AuthStore)
    ensures var r := store.User();
      (r.userId == JsNull || Truthy(r.userId)) && (r.username == JsNull || Truthy(r.username))
  {
  }

  /** With no user data, `user()` has both fields null. */
  lemma LoggedOutUserIsNull(store: AuthStore)
    requires !store.IsLoggedIn()
    ensures store.User() == UserSummary(JsNull, JsNull)
  {
  }

  /** For user data that is an object (a decoded token, whatever other
      claims it carries), a field comes through `user()` exactly when it is
      present and truthy, and is null otherwise. */
  lemma UserSummaryPassesTruthyFields(store: AuthStore)
    requires store.allUserData.JsObject?
    ensures var props := store.allUserData.props;
      store.User().userId ==
        if "user_id" in props && Truthy(props["user_id"]) then props["user_id"] else JsNull
    ensures var props := store.allUserData.props;
      store.User().username ==
        if "username" in props && Truthy(props["username"]) then props["username"] else JsNull
  {
  }

  /** `isLoggedIn()` compares strictly with null, so undefined user data
      counts as logged in although `user()` then has both fields null. */
  lemma UndefinedDataIsLoggedInAsNobody(store: AuthStore)
    requires store.allUserData == JsUndefined
    ensures store.IsLoggedIn()
    ensures store.User() == UserSummary(JsNull, JsNull)
  {
  }
}
