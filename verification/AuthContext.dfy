/** The session of AuthContext.jsx: the bearer token, the user record and the
    `ready` flag, restored from localStorage on mount and written back by login and
    logout. */
module AuthContext {
  import opened Values
  import opened Storage
  import Client

  const InvalidCredentials := "Credenciales inválidas"

  /** How the login request ended. `fetch` can reject (no answer); a rejection
      carries `res.json()`, or None when the body does not parse; an ok answer whose
      body does not parse makes `res.json()` reject; an acceptance carries
      `data.access_token` and `data.user` (Undefined when the server sends no user). */
  datatype LoginResponse =
    | Unreachable(error: Value)
    | Rejected(body: Option<Value>)
    | Unreadable(error: Value)
    | Accepted(accessToken: string, user: Value)

  /** The message a rejected login throws:
      `(body)?.detail || 'Credenciales inválidas'`. */
  function FailureMessage(body: Option<Value>): (m: Value)
    ensures JsTruthy(m)
    ensures body.Some? && JsTruthy(Prop(body.value, "detail")) ==> m == Prop(body.value, "detail")
    ensures !(body.Some? && JsTruthy(Prop(body.value, "detail"))) ==> m == Str(InvalidCredentials)
  {
    var detail := match body case Some(v) => Prop(v, "detail") case None => Undefined;
    JsOr(detail, Str(InvalidCredentials))
  }

  /** The Error a rejected login throws: `new Error(msg)` for the message above,
      whose `message` is `String(msg)`. JavaScript's `String` of a value that is not
      a string (FastAPI's list of validation errors, say) is the parameter
      `jsString`. */
  function FailureError(body: Option<Value>, jsString: Value -> string): (e: Value)
    ensures FailureMessage(body).Str? ==> Prop(e, "message") == FailureMessage(body)
    ensures !FailureMessage(body).Str? ==> Prop(e, "message") == Str(jsString(FailureMessage(body)))
    ensures body.Some? && Prop(body.value, "detail").Str? && Prop(body.value, "detail").s != "" ==>
      Prop(e, "message") == Prop(body.value, "detail")
    ensures !(body.Some? && JsTruthy(Prop(body.value, "detail"))) ==>
      Prop(e, "message") == Str(InvalidCredentials)
  {
    var m := FailureMessage(body);
    Client.ErrorValue(if m.Str? then m.s else jsString(m))
  }

  /** The token a restore reads: the text of a non-empty `sr_token`, else the
      current token. */
  function RestoredToken(saved: Option<Stored>, current: Option<string>, stringify: Value -> string): (t: Option<string>)
    ensures saved.None? ==> t == current
    ensures saved.Some? && saved.value.Text? ==> t == if saved.value.s != "" then Some(saved.value.s) else current
  {
    match saved
    case Some(e) => if ReadText(e, stringify) != "" then Some(ReadText(e, stringify)) else current
    case None => current
  }

  /** The user a restore reads: what `JSON.parse` makes of a non-empty `sr_user`,
      else the current user; when `JSON.parse` throws, the catch keeps the current
      user. */
  function RestoredUser(saved: Option<Stored>, current: Value, parse: string -> Result<Value, Value>): (u: Value)
    ensures saved.Some? && saved.value.Json? ==> u == saved.value.v
    ensures saved.None? || saved == Some(Text("")) ==> u == current
  {
    match saved
    case Some(e) =>
      if StoredTruthy(e) then (match Parsed(e, parse) case Ok(v) => v case Err(_) => current)
      else current
    case None => current
  }

  /** The `AuthProvider` component's state. */
  class AuthProvider {
    var token: Option<string>
    var user: Value
    var ready: bool
    const storage: LocalStorage

    /** The first render: no token, no user, not ready. */
    constructor (storage: LocalStorage)
      ensures this.storage == storage
      ensures token == None && user == Null && !ready
    {
      this.storage := storage;
      token := None;
      user := Null;
      ready := false;
    }

    /** `isAuthenticated: Boolean(token)` */
    function IsAuthenticated(): (b: bool)
      reads this
      ensures b <==> token.Some? && token.value != ""
    {
      match token
      case None => false
      case Some(t) => t != ""
    }

    /** `authHeader: token ? \`Bearer ${token}\` : null` */
    function AuthHeader(): (h: Option<string>)
      reads this
      ensures h.Some? <==> IsAuthenticated()
      ensures h.Some? ==> h.value == "Bearer " + token.value
    {
      if IsAuthenticated() then Some("Bearer " + token.value) else None
    }

    /** The mount effect: take the token and the user from storage where present,
        then mark the session ready. The token is set before the user is parsed, so
        a `sr_user` that is not JSON leaves the restored token in place and only the
        user unchanged. Storage is only read. */
    method Restore(parse: string -> Result<Value, Value>, stringify: Value -> string)
      modifies this
      ensures ready
      ensures token == RestoredToken(storage.GetItem(TokenKey), old(token), stringify)
      ensures user == RestoredUser(storage.GetItem(UserKey), old(user), parse)
    {
      var saved := storage.GetItem(TokenKey);
      var savedUser := storage.GetItem(UserKey);
      if saved.Some? && ReadText(saved.value, stringify) != "" {
        token := Some(ReadText(saved.value, stringify));
      }
      if savedUser.Some? && StoredTruthy(savedUser.value) {
        var parsed := Parsed(savedUser.value, parse);
        if parsed.Ok? {
          user := parsed.value;
        }
      }
      ready := true;
    }

    /** `login(email, password)` once the request has ended. A failed request, a
        rejection and an unreadable answer throw `thrown` and change nothing (a
        rejection throws an Error made from the server's `detail`); an
        acceptance stores the token, and stores the user only when there is one (an
        older `sr_user` is then left in place). */
    method Login(response: LoginResponse, jsString: Value -> string) returns (thrown: Option<Value>)
      modifies this, storage
      ensures ready == old(ready)
      ensures (response.Unreachable? || response.Unreadable?) ==>
        && thrown == Some(response.error)
        && token == old(token) && user == old(user)
        && storage.entries == old(storage.entries)
      ensures response.Rejected? ==>
        && thrown == Some(FailureError(response.body, jsString))
        && token == old(token) && user == old(user)
        && storage.entries == old(storage.entries)
      ensures response.Accepted? ==>
        && thrown == None
        && token == Some(response.accessToken)
        && user == (if JsTruthy(response.user) then response.user else Null)
        && storage.entries == if JsTruthy(response.user)
           then old(storage.entries)[TokenKey := Text(response.accessToken)][UserKey := Json(response.user)]
           else old(storage.entries)[TokenKey := Text(response.accessToken)]
    {
      match response
      case Unreachable(error) =>
        thrown := Some(error);
      case Rejected(body) =>
        thrown := Some(FailureError(body, jsString));
      case Unreadable(error) =>
        thrown := Some(error);
      case Accepted(rawToken, data) =>
        thrown := None;
        token := Some(rawToken);
        storage.SetItem(TokenKey, Text(rawToken));
        var u := if JsTruthy(data) then data else Null;
        user := u;
        if JsTruthy(u) {
          storage.SetItem(UserKey, Json(u));
        }
    }

    /** `logout()`: forget the token and the user, in memory and in storage; no
        other key changes. */
    method Logout()
      modifies this, storage
      ensures token == None && user == Null && ready == old(ready)
      ensures storage.entries == old(storage.entries) - {TokenKey, UserKey}
    {
      token := None;
      user := Null;
      storage.RemoveItem(TokenKey);
      storage.RemoveItem(UserKey);
    }
  }

  /** A login survives a reload: after an accepted login, a new session over the
      same storage restores the token the login saved (unless it is empty) and the
      user it saved; with no user to save, the older `sr_user` entry is what the new
      session reads. */
  method LoginThenReload(storage: LocalStorage, accessToken: string, u: Value,
                         parse: string -> Result<Value, Value>, stringify: Value -> string)
    returns (reloaded: AuthProvider)
    modifies storage
    ensures reloaded.storage == storage && reloaded.ready
    ensures reloaded.token == if accessToken != "" then Some(accessToken) else None
    ensures JsTruthy(u) ==> reloaded.user == u
    ensures !JsTruthy(u) ==> reloaded.user == RestoredUser(old(storage.GetItem(UserKey)), Null, parse)
    ensures reloaded.IsAuthenticated() <==> accessToken != ""
  {
    var session := new AuthProvider(storage);
    // An accepted login throws nothing, so no `String` conversion is needed.
    var thrown := session.Login(Accepted(accessToken, u), v => "");
    reloaded := new AuthProvider(storage);
    reloaded.Restore(parse, stringify);
  }
}
