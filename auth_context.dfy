/**
 * The session of src/contexts/AuthContext.tsx (`AuthProvider`): the `user`
 * and `isAuthenticated` state, the restore effect that reads local storage
 * on mount, the hard-coded `login` and `logout`.
 *
 * `user` holds whatever `JSON.parse` produced, with `JNull` for `null`: the
 * restore effect does not check its shape. `Date.now()` is a parameter, and
 * the one-second delay before the credential check is not modelled.
 */
module AuthContext {
  import opened Wrappers
  import opened Json
  import opened Text
  import opened Types
  import Storage

  const USER_KEY := "auth_user"
  const TOKEN_KEY := "auth_token"
  const ADMIN_USERNAME := "Admin"
  const ADMIN_PASSWORD := "5173rongcloud"
  const TOKEN_PREFIX := "mock_jwt_token_"

  /** The user `login` signs in. */
  const ADMIN: User := User("1", ADMIN_USERNAME)

  function UserToJson(u: User): Json {
    JObj(map["id" := JStr(u.id), "username" := JStr(u.username)])
  }

  /** `username === 'Admin' && password === '5173rongcloud'`: exact, case-sensitive comparison. */
  predicate CredentialsValid(username: string, password: string)
    ensures CredentialsValid(username, password) ==> username == ADMIN.username
  {
    username == ADMIN_USERNAME && password == ADMIN_PASSWORD
  }

  /** `'mock_jwt_token_' + Date.now()`. */
  function Token(nowMillis: nat): (r: string)
    ensures StartsWith(r, TOKEN_PREFIX)
    ensures AllDigits(r[|TOKEN_PREFIX|..]) && |r| > |TOKEN_PREFIX|
  {
    TOKEN_PREFIX + NatToString(nowMillis)
  }

  /** The token carries the login time: the digits after the prefix are `Date.now()`. */
  lemma TokenEncodesTime(nowMillis: nat)
    ensures DigitsValue(Token(nowMillis)[|TOKEN_PREFIX|..]) == nowMillis
  {
    assert Token(nowMillis)[|TOKEN_PREFIX|..] == NatToString(nowMillis);
    NatToStringValue(nowMillis);
  }

  /** Different login times give different tokens. */
  lemma TokensDistinct(t1: nat, t2: nat)
    requires t1 != t2
    ensures Token(t1) != Token(t2)
  {
    TokenEncodesTime(t1);
    TokenEncodesTime(t2);
  }

  /** What the restore effect does with the two saved items. */
  datatype Restore =
    | KeepLoggedOut            // one of the items is missing or empty
    | SignIn(user: Json)       // both present and the user parses
    | Discard                  // both present but the user does not parse: both keys are removed

  /** The restore effect's decision, from what `getItem` returned for the two keys. */
  function RestoreDecision(savedUser: Option<string>, savedToken: Option<string>, codec: Codec): (r: Restore)
    ensures r.KeepLoggedOut? <==> savedUser.None? || savedUser.value == "" || savedToken.None? || savedToken.value == ""
    ensures r.SignIn? <==> !r.KeepLoggedOut? && codec.decode(savedUser.value).Some?
    ensures r.SignIn? ==> Some(r.user) == codec.decode(savedUser.value)
  {
    if savedUser.None? || savedUser.value == "" || savedToken.None? || savedToken.value == "" then KeepLoggedOut
    else match codec.decode(savedUser.value)
      case Some(userData) => SignIn(userData)
      case None => Discard
  }

  /** The storage after a successful login. */
  function LoginItems(items: map<string, string>, codec: Codec, nowMillis: nat): (r: map<string, string>)
    ensures Storage.Lookup(r, USER_KEY) == Some(codec.encode(UserToJson(ADMIN)))
    ensures Storage.Lookup(r, TOKEN_KEY) == Some(Token(nowMillis))
    ensures forall k :: k != USER_KEY && k != TOKEN_KEY ==> Storage.Lookup(r, k) == Storage.Lookup(items, k)
  {
    items[USER_KEY := codec.encode(UserToJson(ADMIN))][TOKEN_KEY := Token(nowMillis)]
  }

  /** A session restored from the storage a login left behind signs the admin back in. */
  lemma RestoreAfterLogin(items: map<string, string>, codec: Codec, nowMillis: nat)
    requires codec.Faithful()
    ensures RestoreDecision(Storage.Lookup(LoginItems(items, codec, nowMillis), USER_KEY),
                            Storage.Lookup(LoginItems(items, codec, nowMillis), TOKEN_KEY), codec)
      == SignIn(UserToJson(ADMIN))
  {
    var m := LoginItems(items, codec, nowMillis);
    assert USER_KEY != TOKEN_KEY;
    assert m[USER_KEY] == codec.encode(UserToJson(ADMIN));
    assert codec.decode(codec.encode(UserToJson(ADMIN))) == Some(UserToJson(ADMIN));
    assert codec.encode(UserToJson(ADMIN)) != "";
  }

  /** A session restored after a logout stays logged out. */
  lemma RestoreAfterLogout(items: map<string, string>, codec: Codec)
    ensures RestoreDecision(Storage.Lookup(items - {USER_KEY, TOKEN_KEY}, USER_KEY),
                            Storage.Lookup(items - {USER_KEY, TOKEN_KEY}, TOKEN_KEY), codec)
      == KeepLoggedOut
  {
  }

  class Session {
    var user: Json
    var isAuthenticated: bool
    const storage: Storage.LocalStorage
    const codec: Codec

    /** The initial state: no user, not authenticated; storage is not read yet. */
    constructor(storage: Storage.LocalStorage, codec: Codec)
      ensures this.storage == storage && this.codec == codec
      ensures user == JNull && !isAuthenticated
      ensures storage.items == old(storage.items)
    {
      this.storage := storage;
      this.codec := codec;
      user := JNull;
      isAuthenticated := false;
    }

    /** The mount effect: sign back in from the saved items, or drop them if the user does not parse. */
    method RestoreSession()
      modifies this, storage
      ensures var d := RestoreDecision(Storage.Lookup(old(storage.items), USER_KEY), Storage.Lookup(old(storage.items), TOKEN_KEY), codec);
        match d
        case KeepLoggedOut =>
          user == old(user) && isAuthenticated == old(isAuthenticated) && storage.items == old(storage.items)
        case SignIn(u) =>
          user == u && isAuthenticated && storage.items == old(storage.items)
        case Discard =>
          user == old(user) && isAuthenticated == old(isAuthenticated)
          && storage.items == old(storage.items) - {USER_KEY, TOKEN_KEY}
    {
      var savedUser := storage.GetItem(USER_KEY);
      var savedToken := storage.GetItem(TOKEN_KEY);
      if savedUser.Some? && savedUser.value != "" && savedToken.Some? && savedToken.value != "" {
        var parsed := codec.decode(savedUser.value);
        if parsed.Some? {
          user := parsed.value;
          isAuthenticated := true;
        } else {
          storage.RemoveItem(USER_KEY);
          storage.RemoveItem(TOKEN_KEY);
        }
      }
    }

    /** `login(username, password)`: only the hard-coded pair signs in; a failure changes nothing. */
    method Login(username: string, password: string, nowMillis: nat) returns (ok: bool)
      modifies this, storage
      ensures ok <==> CredentialsValid(username, password)
      ensures ok ==> user == UserToJson(ADMIN) && isAuthenticated
                     && storage.items == LoginItems(old(storage.items), codec, nowMillis)
      ensures !ok ==> user == old(user) && isAuthenticated == old(isAuthenticated)
                      && storage.items == old(storage.items)
    {
      if username == ADMIN_USERNAME && password == ADMIN_PASSWORD {
        var userData := UserToJson(ADMIN);
        var mockToken := Token(nowMillis);
        storage.SetItem(USER_KEY, codec.encode(userData));
        storage.SetItem(TOKEN_KEY, mockToken);
        user := userData;
        isAuthenticated := true;
        return true;
      }
      return false;
    }

    /** `logout()`: drop both items and reset the state; a second logout changes nothing further. */
    method Logout()
      modifies this, storage
      ensures user == JNull && !isAuthenticated
      ensures storage.items == old(storage.items) - {USER_KEY, TOKEN_KEY}
      ensures USER_KEY !in storage.items && TOKEN_KEY !in storage.items
    {
      storage.RemoveItem(USER_KEY);
      storage.RemoveItem(TOKEN_KEY);
      user := JNull;
      isAuthenticated := false;
    }
  }
}
