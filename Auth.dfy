/** The session store (src/lib/auth.ts): the signed-in user and token persisted in
    `localStorage` under two fixed keys.  The operations are methods over a `Storage`
    object; each is specified by a function of the table, and the properties of the
    store are lemmas about those functions. */
module Auth {
  import opened Wrappers
  import opened Text
  import opened Json
  import opened LocalStorage

  const AuthTokenKey := "auth_token"
  const UserInfoKey := "user_info"

  datatype User = User(id: string, username: string, email: Option<string>)

  /** The authentication state.  `user` is whatever `JSON.parse` produced from the
      stored text (its shape is not checked); `JNull` is `null`. */
  datatype AuthState = AuthState(user: Json, token: Option<string>, isAuthenticated: bool)

  const LoggedOut := AuthState(JNull, None, false)

  /** The object `JSON.stringify(user)` sees: `email` is left out when undefined. */
  function UserJson(u: User): (j: Json)
    ensures j.JObject? && Get(j.members, "username") == Some(JString(u.username))
  {
    var m := [Member("id", JString(u.id)), Member("username", JString(u.username))];
    JObject(if u.email.Some? then m + [Member("email", JString(u.email.value))] else m)
  }

  /** JavaScript truthiness of a `getItem` result: present and not the empty string. */
  predicate Truthy(s: Option<string>) {
    s.Some? && s.value != ""
  }

  /** Both keys hold non-empty text, so `getStoredAuth` tries to parse the user. */
  predicate BothPresent(items: map<string, string>) {
    Truthy(Lookup(items, AuthTokenKey)) && Truthy(Lookup(items, UserInfoKey))
  }

  /** What `getStoredAuth` returns for a table. */
  function StoredAuth(items: map<string, string>): AuthState {
    if BothPresent(items) then
      match Parse(items[UserInfoKey])
      case Some(user) => AuthState(user, Some(items[AuthTokenKey]), true)
      case None => LoggedOut
    else LoggedOut
  }

  /** The table `clearAuth` leaves. */
  function Cleared(items: map<string, string>): map<string, string> {
    items - {AuthTokenKey, UserInfoKey}
  }

  /** The table `getStoredAuth` leaves: it clears the store when the user text is corrupt. */
  function AfterLoad(items: map<string, string>): map<string, string> {
    if BothPresent(items) && Parse(items[UserInfoKey]).None? then Cleared(items) else items
  }

  /** The table `setAuth(token, user)` leaves. */
  function WithAuth(items: map<string, string>, token: string, user: User): map<string, string> {
    items[AuthTokenKey := token][UserInfoKey := Stringify(UserJson(user))]
  }

  /** `getStoredAuth()`. */
  method GetStoredAuth(storage: Storage) returns (state: AuthState)
    modifies storage
    ensures state == StoredAuth(old(storage.items))
    ensures storage.items == AfterLoad(old(storage.items))
  {
    var token := storage.GetItem(AuthTokenKey);
    var userJson := storage.GetItem(UserInfoKey);
    if Truthy(token) && Truthy(userJson) {
      var user := Parse(userJson.value);
      if user.Some? {
        return AuthState(user.value, token, true);
      }
      ClearAuth(storage);
    }
    return LoggedOut;
  }

  /** `setAuth(token, user)`. */
  method SetAuth(storage: Storage, token: string, user: User)
    modifies storage
    ensures storage.items == WithAuth(old(storage.items), token, user)
  {
    storage.SetItem(AuthTokenKey, token);
    storage.SetItem(UserInfoKey, Stringify(UserJson(user)));
  }

  /** `clearAuth()`. */
  method ClearAuth(storage: Storage)
    modifies storage
    ensures storage.items == Cleared(old(storage.items))
  {
    storage.RemoveItem(AuthTokenKey);
    storage.RemoveItem(UserInfoKey);
    assert storage.items == old(storage.items) - {AuthTokenKey} - {UserInfoKey};
  }

  // ---------------------------------------------------------------------------
  // Properties of the store
  // ---------------------------------------------------------------------------

  /** Saving a session with a non-empty token and loading it back gives that session,
      and the load leaves the table alone. */
  lemma SaveThenLoad(items: map<string, string>, token: string, user: User)
    requires token != ""
    ensures StoredAuth(WithAuth(items, token, user)) == AuthState(UserJson(user), Some(token), true)
    ensures AfterLoad(WithAuth(items, token, user)) == WithAuth(items, token, user)
  {
    RoundTrip(UserJson(user));
    StringifyHead(UserJson(user));
  }

  /** After `clearAuth`, loading gives the signed-out state and changes nothing. */
  lemma ClearThenLoad(items: map<string, string>)
    ensures StoredAuth(Cleared(items)) == LoggedOut
    ensures AfterLoad(Cleared(items)) == Cleared(items)
  {
  }

  /** `clearAuth` is idempotent and removes exactly the two session keys. */
  lemma ClearOnlyRemovesSessionKeys(items: map<string, string>, key: string)
    ensures Cleared(Cleared(items)) == Cleared(items)
    ensures AuthTokenKey !in Cleared(items) && UserInfoKey !in Cleared(items)
    ensures key != AuthTokenKey && key != UserInfoKey ==>
      Lookup(Cleared(items), key) == Lookup(items, key)
  {
  }

  /** `setAuth` writes exactly the two session keys. */
  lemma SaveOnlyWritesSessionKeys(items: map<string, string>, token: string, user: User, key: string)
    ensures Lookup(WithAuth(items, token, user), AuthTokenKey) == Some(token)
    ensures Lookup(WithAuth(items, token, user), UserInfoKey) == Some(Stringify(UserJson(user)))
    ensures key != AuthTokenKey && key != UserInfoKey ==>
      Lookup(WithAuth(items, token, user), key) == Lookup(items, key)
  {
  }

  /** A missing or empty value on either key means signed out, and the table is kept. */
  lemma MissingMeansLoggedOut(items: map<string, string>)
    requires !Truthy(Lookup(items, AuthTokenKey)) || !Truthy(Lookup(items, UserInfoKey))
    ensures StoredAuth(items) == LoggedOut
    ensures AfterLoad(items) == items
  {
  }

  /** Corrupt user text means signed out, and both keys are removed. */
  lemma CorruptMeansCleared(items: map<string, string>)
    requires BothPresent(items) && Parse(items[UserInfoKey]).None?
    ensures StoredAuth(items) == LoggedOut
    ensures AfterLoad(items) == Cleared(items)
    ensures Lookup(AfterLoad(items), AuthTokenKey).None? && Lookup(AfterLoad(items), UserInfoKey).None?
  {
  }

  /** The loaded state is authenticated exactly when both values are non-empty and the
      user text parses; it then carries the stored token and the parsed user. */
  lemma AuthenticatedExactly(items: map<string, string>)
    ensures StoredAuth(items).isAuthenticated <==> BothPresent(items) && Parse(items[UserInfoKey]).Some?
    ensures StoredAuth(items).isAuthenticated ==>
      StoredAuth(items).token == Some(items[AuthTokenKey]) && Some(StoredAuth(items).user) == Parse(items[UserInfoKey])
    ensures !StoredAuth(items).isAuthenticated ==> StoredAuth(items) == LoggedOut
  {
  }

  lemma ParseNull()
    ensures Parse("null") == Some(JNull)
  {
    assert SkipWs("null") == "null";
    assert StartsWith("null", "null");
    assert "null"[4..] == "";
  }

  /** The parsed shape is not checked: a stored user text `null` loads as an
      authenticated session whose user is `null`. */
  lemma StoredNullUserIsAuthenticated(items: map<string, string>)
    requires Truthy(Lookup(items, AuthTokenKey)) && Lookup(items, UserInfoKey) == Some("null")
    ensures StoredAuth(items) == AuthState(JNull, Some(items[AuthTokenKey]), true)
  {
    ParseNull();
  }
}
