/** The auth slice of the store: the signed-in user and access token, mirrored into the
    browser's key-value storage so that a reload restores them. */
module AuthSlice {
  import opened Wrappers

  /** A user object as the server sends it; its fields are opaque here. */
  datatype User = User(id: string, name: string, email: string, role: string)

  /** A JSON value as `JSON.parse` returns it. A user object is told apart; the contents of
      any other object or array are not observed here, only that it is one. */
  datatype Value = Null | UserObject(u: User) | Bool(b: bool) | Number(n: real) | Str(s: string)
                 | ArrayValue | OtherObject

  /** JavaScript truthiness of a JSON value. */
  predicate Truthy(v: Value) {
    match v
    case Null => false
    case Bool(b) => b
    case Number(n) => n != 0.0
    case Str(s) => s != ""
    case _ => true
  }

  /** The browser's key-value storage: every value is text. */
  type Storage = map<string, string>

  /** `JSON.parse` is not modelled; it is a parameter, `None` where it throws. */
  type Parser = string -> Option<Value>

  /** The JSON text `JSON.stringify` writes for a user object (string escaping is not modelled). */
  function UserText(u: User): (t: string)
    ensures |t| > 0 && t[0] == '{' && t[|t| - 1] == '}'
  {
    "{\"_id\":\"" + u.id + "\",\"name\":\"" + u.name + "\",\"email\":\"" + u.email +
    "\",\"role\":\"" + u.role + "\"}"
  }

  /** The `accessToken` field of a payload: missing, `null`, or a string. */
  datatype AccessToken = Undefined | NullToken | TokenText(s: string)

  /** `action.payload` when it is truthy. `user` is `None` when the field is falsy. */
  datatype Payload = Payload(user: Option<User>, accessToken: AccessToken)

  /** The slice state `{user, token}` together with the storage it mirrors. */
  datatype Auth = Auth(user: Value, token: Option<string>, storage: Storage)

  /** What `setItem` stores for a token: a string as it is, `null` as the text "null". */
  function StoredToken(t: AccessToken): (r: string)
    requires !t.Undefined?
    ensures t.TokenText? ==> r == t.s
    ensures t.NullToken? ==> r == "null"
  {
    match t
    case TokenText(s) => s
    case NullToken => "null"
  }

  /** Whether the stored `user` text is one `JSON.parse` rejects: only a truthy text is parsed. */
  predicate Corrupt(ls: Storage, parse: Parser) {
    "user" in ls && ls["user"] != "" && parse(ls["user"]).None?
  }

  /** `getUserFromStorage()`: the parsed value and the storage afterwards. A missing key or an
      empty text gives `null` without parsing; any other text gives what it parses to, whatever
      kind of JSON value that is; a text that fails to parse gives `null` and removes the key. */
  function UserFromStorage(ls: Storage, parse: Parser): (r: (Value, Storage))
    ensures ("user" !in ls || ls["user"] == "") ==> r == (Null, ls)
    ensures "user" in ls && ls["user"] != "" && parse(ls["user"]).Some? ==> r == (parse(ls["user"]).value, ls)
    ensures Corrupt(ls, parse) ==> r == (Null, ls - {"user"})
    ensures r.1 != ls <==> Corrupt(ls, parse)
    ensures r.1.Keys <= ls.Keys && forall k :: k in r.1 ==> r.1[k] == ls[k]
  {
    if "user" !in ls || ls["user"] == "" then (Null, ls)
    else match parse(ls["user"])
      case Some(v) => (v, ls)
      case None => (Null, ls - {"user"})
  }

  /** `getTokenFromStorage()`: the stored text, or `null`. */
  function TokenFromStorage(ls: Storage): (r: Option<string>)
    ensures r.Some? <==> "accessToken" in ls
    ensures r.Some? ==> r.value == ls["accessToken"]
  {
    if "accessToken" in ls then Some(ls["accessToken"]) else None
  }

  /** `initialState`, evaluated when the module loads. */
  function InitialState(ls: Storage, parse: Parser): (r: Auth)
    ensures (r.user, r.storage) == UserFromStorage(ls, parse)
    ensures r.token == TokenFromStorage(ls)
  {
    var (u, ls') := UserFromStorage(ls, parse);
    Auth(u, TokenFromStorage(ls), ls')
  }

  /** `setCredentials(payload)` as written. */
  function SetCredentialsStep(st: Auth, payload: Option<Payload>): (r: Auth)
    ensures payload.None? ==> r == st
    ensures payload.Some? && (payload.value.user.None? || payload.value.accessToken.Undefined?) ==>
              r.user == Null && r.token.None? && r.storage == st.storage - {"user", "token"}
    ensures payload.Some? && payload.value.user.Some? && !payload.value.accessToken.Undefined? ==>
              r.user == UserObject(payload.value.user.value) &&
              r.token == (if payload.value.accessToken.TokenText? then Some(payload.value.accessToken.s) else None) &&
              r.storage == st.storage["user" := UserText(payload.value.user.value)]
                                     ["accessToken" := StoredToken(payload.value.accessToken)]
  {
    if payload.None? then st
    else
      var p := payload.value;
      if p.user.None? || p.accessToken.Undefined? then
        Auth(Null, None, st.storage - {"user"} - {"token"})
      else
        var token := if p.accessToken.TokenText? then Some(p.accessToken.s) else None;
        Auth(UserObject(p.user.value), token, st.storage["user" := UserText(p.user.value)]["accessToken" := StoredToken(p.accessToken)])
  }

  /** `logOut()`. */
  function LogOutStep(st: Auth): (r: Auth)
    ensures r.user == Null && r.token.None?
    ensures "user" !in r.storage && "accessToken" !in r.storage
    ensures forall k :: k in st.storage && k != "user" && k != "accessToken" ==> k in r.storage && r.storage[k] == st.storage[k]
    ensures r.storage.Keys <= st.storage.Keys
  {
    Auth(Null, None, st.storage - {"user"} - {"accessToken"})
  }

  /** The corrected reducer: the malformed branch removes the key the token is stored
      under, `accessToken`, as `logOut` does. */
  function SetCredentialsIntended(st: Auth, payload: Option<Payload>): (r: Auth)
    ensures payload.Some? && (payload.value.user.None? || payload.value.accessToken.Undefined?) ==>
              r == LogOutStep(st)
    ensures !(payload.Some? && (payload.value.user.None? || payload.value.accessToken.Undefined?)) ==>
              r == SetCredentialsStep(st, payload)
  {
    if payload.Some? && (payload.value.user.None? || payload.value.accessToken.Undefined?) then
      Auth(Null, None, st.storage - {"user"} - {"accessToken"})
    else SetCredentialsStep(st, payload)
  }

  // ---- Properties ----

  /** Only a missing token is malformed: a `null` token with a user is accepted, the state
      token becomes `null` and the storage holds the text "null". */
  lemma NullTokenAccepted(st: Auth, u: User)
    ensures var r := SetCredentialsStep(st, Some(Payload(Some(u), NullToken)));
            r.user == UserObject(u) && r.token.None? && r.storage["accessToken"] == "null"
  {
  }

  /** Valid credentials survive a reload: when `JSON.parse` reads back what `JSON.stringify`
      wrote, reading the storage gives the same user and, for a string token, the same token. */
  lemma CredentialsSurviveReload(st: Auth, u: User, t: string, parse: Parser)
    requires parse(UserText(u)) == Some(UserObject(u))
    ensures var r := SetCredentialsStep(st, Some(Payload(Some(u), TokenText(t))));
            InitialState(r.storage, parse).user == r.user == UserObject(u) &&
            InitialState(r.storage, parse).token == r.token == Some(t) &&
            InitialState(r.storage, parse).storage == r.storage
  {
  }

  /** A `null` token does not survive a reload: the stored text "null" comes back as a
      truthy string token. */
  lemma NullTokenRevivedOnReload(st: Auth, u: User, parse: Parser)
    ensures var r := SetCredentialsStep(st, Some(Payload(Some(u), NullToken)));
            r.token.None? && InitialState(r.storage, parse).token == Some("null")
  {
  }

  /** Stored JSON that is not a user object is not discarded: the state holds whatever it
      parses to, so a truthy value such as `{}` or `[]` counts as a signed-in user, and the
      storage keeps the text. */
  lemma NonUserJsonKept(ls: Storage, parse: Parser, v: Value)
    requires "user" in ls && ls["user"] != "" && parse(ls["user"]) == Some(v)
    ensures InitialState(ls, parse).user == v
    ensures InitialState(ls, parse).storage == ls
  {
  }

  /** The text "null" parses to `null`: signed out, and the key stays. */
  lemma NullTextKept(ls: Storage, parse: Parser)
    requires "user" in ls && ls["user"] == "null" && parse("null") == Some(Null)
    ensures InitialState(ls, parse).user == Null && InitialState(ls, parse).storage == ls
    ensures !Truthy(InitialState(ls, parse).user)
  {
  }

  /** Text that fails to parse is cleared, and only that key goes. */
  lemma CorruptUserCleared(ls: Storage, parse: Parser)
    requires Corrupt(ls, parse)
    ensures var r := InitialState(ls, parse);
            r.user == Null && "user" !in r.storage &&
            forall k :: k in ls && k != "user" ==> k in r.storage && r.storage[k] == ls[k]
    ensures InitialState(ls, parse).token == TokenFromStorage(ls)
  {
  }

  /** `logOut` twice is `logOut` once. */
  lemma LogOutIdempotent(st: Auth)
    ensures LogOutStep(LogOutStep(st)) == LogOutStep(st)
  {
  }

  /** After `logOut` a reload starts signed out, whatever `JSON.parse` does. */
  lemma LogOutSurvivesReload(st: Auth, parse: Parser)
    ensures InitialState(LogOutStep(st).storage, parse).user == Null
    ensures InitialState(LogOutStep(st).storage, parse).token.None?
  {
  }

  /** As written, a malformed payload keeps the stored token, so after a reload the old
      token is back although the state had cleared it. */
  lemma MalformedKeepsStaleToken(st: Auth, t: string, parse: Parser)
    requires "accessToken" in st.storage && st.storage["accessToken"] == t
    ensures var r := SetCredentialsStep(st, Some(Payload(None, Undefined)));
            r.token.None? && InitialState(r.storage, parse).token == Some(t)
  {
  }

  /** With the intended key, a malformed payload signs out for good. */
  lemma MalformedIntendedSignsOut(st: Auth, p: Payload, parse: Parser)
    requires p.user.None? || p.accessToken.Undefined?
    ensures var r := SetCredentialsIntended(st, Some(p));
            r.token.None? && InitialState(r.storage, parse).token.None? &&
            InitialState(r.storage, parse).user == Null
  {
  }

  /** The slice as the store holds it: the reducers change the state and the storage in place. */
  class AuthStore {
    var user: Value
    var token: Option<string>
    var storage: Storage

    function State(): Auth
      reads this
    {
      Auth(user, token, storage)
    }

    /** The store is created when the module loads, from what the storage holds then. */
    constructor (ls: Storage, parse: Parser)
      ensures State() == InitialState(ls, parse)
    {
      var u := Null;
      var ls' := ls;
      if "user" in ls && ls["user"] != "" {
        match parse(ls["user"]) {
          case Some(v) => u := v;
          case None => ls' := ls - {"user"};
        }
      }
      user := u;
      token := if "accessToken" in ls then Some(ls["accessToken"]) else None;
      storage := ls';
    }

    method SetCredentials(payload: Option<Payload>)
      modifies this
      ensures State() == SetCredentialsStep(old(State()), payload)
    {
      if payload.None? {
        return;
      }
      var p := payload.value;
      if p.user.None? || p.accessToken.Undefined? {
        user := Null;
        token := None;
        storage := storage - {"user"};
        storage := storage - {"token"};
        return;
      }
      user := UserObject(p.user.value);
      token := if p.accessToken.TokenText? then Some(p.accessToken.s) else None;
      storage := storage["user" := UserText(p.user.value)];
      storage := storage["accessToken" := StoredToken(p.accessToken)];
    }

    method LogOut()
      modifies this
      ensures State() == LogOutStep(old(State()))
    {
      user := Null;
      token := None;
      storage := storage - {"user"};
      storage := storage - {"accessToken"};
    }

    /** `selectCurrentUser`. */
    function CurrentUser(): Value
      reads this
    {
      user
    }

    /** `selectCurrentToken`. */
    function CurrentToken(): Option<string>
      reads this
    {
      token
    }
  }
}
