/** The session record: `token`, `username`, request `status` and `error`,
  * mirrored into local storage under `token`, `username` and `tokenExpiry`.
  * Login stores a token valid for one hour; registration never logs in;
  * logout clears the session and its storage keys. */
module AuthSlice {
  import opened JsNumbers
  import opened JsValues
  import opened AsyncThunks
  import opened WebStorage

  /** How long a stored token stays valid: one hour, in milliseconds. */
  const TokenLifetime: int := 3600000

  /** The payload of `login.fulfilled`. */
  datatype LoginPayload = LoginPayload(token: Value, username: string)

  /** `response.data.data?.token || response.data.token`: the nested token
    * when truthy, else the top-level one. `None` is the TypeError thrown when
    * the body is null. */
  function ExtractToken(body: Value): (r: Option<Value>)
    ensures r.None? <==> Nullish(body)
    ensures r.Some? && Truthy(GetOpt(GetOpt(body, "data"), "token")) ==>
      r.value == GetOpt(GetOpt(body, "data"), "token")
    ensures r.Some? && !Truthy(GetOpt(GetOpt(body, "data"), "token")) ==>
      r.value == GetOpt(body, "token")
  {
    match Get(body, "data")
    case None => None
    case Some(data) => Some(Or(GetOpt(data, "token"), GetOpt(body, "token")))
  }

  /** How `login(credentials)` settles: the extracted token with the
    * caller's own username, or a truthy message — the server's `message`
    * when it sent one, else "Login failed". */
  function LoginOutcome(res: HttpResult, username: string): (r: Phase<LoginPayload>)
    ensures !r.Pending?
    ensures r.Fulfilled? <==>
      res.Response? && ExtractToken(res.data).Some? && Truthy(ExtractToken(res.data).value)
    ensures r.Fulfilled? ==> r.result == LoginPayload(ExtractToken(res.data).value, username)
    ensures r.Rejected? && res.Response? ==> r.payload == Str("Login failed")
    ensures r.Rejected? && res.RequestError? ==>
      && (Truthy(GetOpt(res.responseData, "message")) ==> r.payload == GetOpt(res.responseData, "message"))
      && (!Truthy(GetOpt(res.responseData, "message")) ==> r.payload == Str("Login failed"))
  {
    match res
    case Response(data) =>
      (match ExtractToken(data)
       case Some(token) =>
         if Truthy(token) then Fulfilled(LoginPayload(token, username))
         else RejectWithValue(Str("Login failed"))
       case None => RejectWithValue(Str("Login failed")))
    case RequestError(responseData, _) =>
      RejectWithValue(Or(GetOpt(responseData, "message"), Str("Login failed")))
  }

  /** How `register(userData)` settles: the response body, or the server's
    * `message`, else "Registration failed". */
  function RegisterOutcome(res: HttpResult): (r: Phase<Value>)
    ensures !r.Pending?
    ensures r.Fulfilled? <==> res.Response?
    ensures r.Fulfilled? ==> r.result == res.data
    ensures r.Rejected? ==>
      && (Truthy(GetOpt(res.responseData, "message")) ==> r.payload == GetOpt(res.responseData, "message"))
      && (!Truthy(GetOpt(res.responseData, "message")) ==> r.payload == Str("Registration failed"))
  {
    match res
    case Response(data) => Fulfilled(data)
    case RequestError(responseData, _) =>
      RejectWithValue(Or(GetOpt(responseData, "message"), Str("Registration failed")))
  }

  /** `localStorage.getItem(key) || null`: a missing or empty entry is null. */
  function StoredOrNull(st: Storage, key: string): (v: Value)
    ensures v.Null? <==> key !in st || st[key] == ""
    ensures !v.Null? ==> v == Str(st[key])
  {
    Or(GetItem(st, key), Null)
  }

  /** The storage after `login.fulfilled` at time `now`. */
  function LoginStorage(st: Storage, p: LoginPayload, now: int): (r: Storage)
    ensures "token" in r && r["token"] == ToJsString(p.token)
    ensures "username" in r && r["username"] == p.username
    ensures "tokenExpiry" in r && r["tokenExpiry"] == IntToString(now + TokenLifetime)
    ensures r.Keys == st.Keys + {"token", "username", "tokenExpiry"}
    ensures forall k :: k in st && k != "token" && k != "username" && k != "tokenExpiry" ==> r[k] == st[k]
  {
    SetItem(SetItem(SetItem(st, "token", p.token), "username", Str(p.username)),
            "tokenExpiry", Num(now + TokenLifetime))
  }

  /** The storage after `logout`. */
  function LogoutStorage(st: Storage): (r: Storage)
    ensures "token" !in r && "username" !in r && "tokenExpiry" !in r
    ensures r.Keys == st.Keys - {"token", "username", "tokenExpiry"}
    ensures forall k :: k in r ==> r[k] == st[k]
  {
    RemoveItem(RemoveItem(RemoveItem(st, "token"), "tokenExpiry"), "username")
  }

  /** A session built from the storage a login left behind has that login's
    * token and username again. */
  lemma ReloadRestoresLogin(st: Storage, token: string, username: string, now: int)
    requires token != "" && username != ""
    ensures var stored := LoginStorage(st, LoginPayload(Str(token), username), now);
      StoredOrNull(stored, "token") == Str(token) && StoredOrNull(stored, "username") == Str(username)
  {
  }

  /** A session built from the storage a logout left behind is anonymous. */
  lemma ReloadAfterLogout(st: Storage)
    ensures StoredOrNull(LogoutStorage(st), "token") == Null
    ensures StoredOrNull(LogoutStorage(st), "username") == Null
  {
  }

  /** The actions the session reducer receives. */
  datatype AuthAction =
    | Login(login: Phase<LoginPayload>)
    | Register(register: Phase<Value>)
    | Logout

  class Session {
    var token: Value
    var username: Value
    var status: Status
    var error: Value
    /** The browser's local storage, which the reducers write through. */
    var storage: Storage

    /** The initial state, read from storage when the store is created. */
    constructor(st: Storage)
      ensures token == StoredOrNull(st, "token") && username == StoredOrNull(st, "username")
      ensures status == Idle && error == Null && storage == st
    {
      token := StoredOrNull(st, "token");
      username := StoredOrNull(st, "username");
      status := Idle;
      error := Null;
      storage := st;
    }

    /** `logout`: nulls the identity and removes its three storage keys;
      * `status` and `error` stay. */
    method Logout()
      modifies this
      ensures token == Null && username == Null
      ensures storage == LogoutStorage(old(storage))
      ensures status == old(status) && error == old(error)
    {
      token := Null;
      username := Null;
      storage := RemoveItem(storage, "token");
      storage := RemoveItem(storage, "tokenExpiry");
      storage := RemoveItem(storage, "username");
    }

    /** `login.pending` and `register.pending` */
    method Pending()
      modifies this
      ensures status == Loading && error == Null
      ensures token == old(token) && username == old(username) && storage == old(storage)
    {
      status := Loading;
      error := Null;
    }

    /** `login.fulfilled` at time `now`: the token and username go into the
      * state and into storage, with an expiry one hour ahead. */
    method LoginFulfilled(p: LoginPayload, now: int)
      modifies this
      ensures status == Succeeded
      ensures token == p.token && username == Str(p.username)
      ensures storage == LoginStorage(old(storage), p, now)
      ensures error == old(error)
    {
      status := Succeeded;
      token := p.token;
      username := Str(p.username);
      storage := SetItem(storage, "token", p.token);
      storage := SetItem(storage, "username", Str(p.username));
      var expiry := now + TokenLifetime;
      storage := SetItem(storage, "tokenExpiry", Num(expiry));
    }

    /** `register.fulfilled`: only the status moves; no one is logged in. */
    method RegisterFulfilled()
      modifies this
      ensures status == Succeeded
      ensures token == old(token) && username == old(username)
      ensures error == old(error) && storage == old(storage)
    {
      status := Succeeded;
    }

    /** `login.rejected` and `register.rejected`: the payload becomes the
      * error; the identity stays. */
    method Rejected(payload: Value)
      modifies this
      ensures status == Failed && error == payload
      ensures token == old(token) && username == old(username) && storage == old(storage)
    {
      status := Failed;
      error := payload;
    }

    /** The slice reducer, with the clock reading `now` for `login.fulfilled`. */
    method Dispatch(action: AuthAction, now: int)
      modifies this
      ensures match action
        case Logout =>
          && token == Null && username == Null && storage == LogoutStorage(old(storage))
          && status == old(status) && error == old(error)
        case Login(Pending) =>
          && status == Loading && error == Null
          && token == old(token) && username == old(username) && storage == old(storage)
        case Register(Pending) =>
          && status == Loading && error == Null
          && token == old(token) && username == old(username) && storage == old(storage)
        case Login(Fulfilled(p)) =>
          && status == Succeeded && token == p.token && username == Str(p.username)
          && storage == LoginStorage(old(storage), p, now) && error == old(error)
        case Register(Fulfilled(_)) =>
          && status == Succeeded
          && token == old(token) && username == old(username)
          && error == old(error) && storage == old(storage)
        case Login(Rejected(payload, _)) =>
          && status == Failed && error == payload
          && token == old(token) && username == old(username) && storage == old(storage)
        case Register(Rejected(payload, _)) =>
          && status == Failed && error == payload
          && token == old(token) && username == old(username) && storage == old(storage)
    {
      match action
      case Logout => Logout();
      case Login(Pending) => Pending();
      case Register(Pending) => Pending();
      case Login(Fulfilled(p)) => LoginFulfilled(p, now);
      case Register(Fulfilled(_)) => RegisterFulfilled();
      case Login(Rejected(payload, _)) => Rejected(payload);
      case Register(Rejected(payload, _)) => Rejected(payload);
    }
  }
}
