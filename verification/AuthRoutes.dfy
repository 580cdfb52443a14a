/** The API server's authentication helpers (backend/app/routers/auth.py): reading
    the bearer token of a request, the claims of an access token, and login. JWT
    signing and checking and password hashing are parameters: `decode` gives the
    claims of a token that verifies, `verify` says whether a password matches a
    stored hash. An issued token is modelled by the claims it carries. */
module AuthRoutes {
  import opened Values
  import opened Text
  import opened Database
  import Client

  const BearerPrefix := "Bearer "
  const MissingBearer := "Falta token Bearer"
  const InvalidToken := "Token inválido"
  const BadCredentials := "Credenciales inválidas"
  const DefaultExpiresIn := 3600

  /** Python's `s.split(" ", 1)`: the text before the first space and the text after
      it, or the whole text when it holds no space. */
  function SplitOnce(s: string): (parts: seq<string>)
    ensures 1 <= |parts| <= 2
    ensures |parts| == 1 <==> forall k :: 0 <= k < |s| ==> s[k] != ' '
    ensures |parts| == 1 ==> parts[0] == s
    ensures |parts| == 2 ==> parts[0] + " " + parts[1] == s
    ensures |parts| == 2 ==> forall k :: 0 <= k < |parts[0]| ==> parts[0][k] != ' '
  {
    var i := FirstIndexOf(s, ' ');
    if i == |s| then [s]
    else
      assert s[..i] + " " + s[i + 1..] == s;
      [s[..i], s[i + 1..]]
  }

  /** A header that starts with "Bearer " splits after that space, so the token is
      everything that follows the prefix, spaces included. */
  lemma BearerSplit(h: string)
    requires StartsWith(h, BearerPrefix)
    ensures |SplitOnce(h)| == 2 && SplitOnce(h)[1] == h[7..]
  {
    assert h[..7] == BearerPrefix;
    assert h[6] == ' ';
    assert forall k :: 0 <= k < 6 ==> h[k] == BearerPrefix[k];
    assert FirstIndexOf(h, ' ') == 6;
  }

  /** `get_current_user_id(authorization)`: the `sub` claim of the bearer token. A
      missing header or one that does not start with "Bearer " gives 401 "Falta
      token Bearer"; a token that does not decode, or whose `sub` is missing or
      empty, gives 401 "Token inválido". */
  function GetCurrentUserId(authorization: Option<string>, decode: string -> Option<Dict>): (r: Result<Value, HttpError>)
    ensures (authorization.None? || !StartsWith(authorization.value, BearerPrefix)) ==>
      r == Err(HttpError(401, Msg(MissingBearer)))
    ensures authorization.Some? && StartsWith(authorization.value, BearerPrefix) ==>
      var token := authorization.value[7..];
      && (decode(token).None? ==> r == Err(HttpError(401, Msg(InvalidToken))))
      && (decode(token).Some? && !PyTruthy(PyGet(decode(token).value, "sub", Null)) ==>
            r == Err(HttpError(401, Msg(InvalidToken))))
      && (decode(token).Some? && PyTruthy(PyGet(decode(token).value, "sub", Null)) ==>
            r == Ok(decode(token).value["sub"]))
  {
    match authorization
    case None => Err(HttpError(401, Msg(MissingBearer)))
    case Some(h) =>
      if h == "" || !StartsWith(h, BearerPrefix) then Err(HttpError(401, Msg(MissingBearer)))
      else
        BearerSplit(h);
        var token := SplitOnce(h)[1];
        match decode(token)
        case None => Err(HttpError(401, Msg(InvalidToken)))
        case Some(data) =>
          var userId := PyGet(data, "sub", Null);
          if !PyTruthy(userId) then Err(HttpError(401, Msg(InvalidToken))) else Ok(userId)
  }

  /** `create_access_token(payload, expires_in)` at clock reading `now` (whole
      seconds): a copy of the payload with `exp = now + expires_in`, which replaces
      any `exp` the payload had; the caller's payload is not changed. */
  function AccessClaims(payload: Dict, now: int, expiresIn: int): (claims: Dict)
    ensures claims.Keys == payload.Keys + {"exp"}
    ensures claims["exp"] == Num((now + expiresIn) as real)
    ensures forall k :: k in payload && k != "exp" ==> claims[k] == payload[k]
  {
    payload["exp" := Num((now + expiresIn) as real)]
  }

  /** The answer of a successful login: the token (as its claims) and its type. */
  datatype LoginOk = LoginOk(accessToken: Dict, tokenType: string)

  /** What `find_one({"email": email})` may return: a customer whose email field
      matches, or None only when no customer matches. */
  predicate FoundBy(clientes: map<string, Dict>, email: string, found: Option<(string, Dict)>)
  {
    match found
    case Some((id, user)) => id in clientes && clientes[id] == user && FieldMatches(user, "email", Str(email))
    case None => forall id :: id in clientes ==> !FieldMatches(clientes[id], "email", Str(email))
  }

  /** `POST /api/auth/login`: an unknown email and a wrong password both give 401
      "Credenciales inválidas"; otherwise a token whose claims are `sub` = the
      customer's id, `email` = the stored email, and `exp` an hour from `now`. */
  function Login(clientes: map<string, Dict>, email: string, password: string,
                 found: Option<(string, Dict)>, verify: (string, Value) -> bool, now: int): (r: Result<LoginOk, HttpError>)
    requires FoundBy(clientes, email, found)
    ensures r.Err? <==> found.None? || !verify(password, PyGet(found.value.1, "password_hash", Str("")))
    ensures r.Err? ==> r.error == HttpError(401, Msg(BadCredentials))
    ensures r.Ok? ==>
      && r.value.tokenType == "bearer"
      && r.value.accessToken.Keys == {"sub", "email", "exp"}
      && r.value.accessToken["sub"] == Str(found.value.0)
      && r.value.accessToken["email"] == found.value.1["email"]
      && r.value.accessToken["exp"] == Num((now + DefaultExpiresIn) as real)
  {
    match found
    case None => Err(HttpError(401, Msg(BadCredentials)))
    case Some((id, user)) =>
      if !verify(password, PyGet(user, "password_hash", Str(""))) then Err(HttpError(401, Msg(BadCredentials)))
      else
        var claims := AccessClaims(map["sub" := Str(id), "email" := user["email"]], now, DefaultExpiresIn);
        Ok(LoginOk(claims, "bearer"))
  }

  /** The two ways a login can fail cannot be told apart by the answer: an email no
      customer has, and a known email with the wrong password. */
  lemma LoginFailuresAlike(unknown: map<string, Dict>, known: map<string, Dict>, email: string,
                           password: string, id: string, user: Dict, verify: (string, Value) -> bool, now: int)
    requires FoundBy(unknown, email, None) && FoundBy(known, email, Some((id, user)))
    requires !verify(password, PyGet(user, "password_hash", Str("")))
    ensures Login(unknown, email, password, None, verify, now) ==
            Login(known, email, password, Some((id, user)), verify, now)
  {
  }

  /** A token issued by login, sent back as "Bearer <token>", identifies the customer
      it was issued to, as long as it still decodes to its claims. */
  lemma LoginThenIdentify(clientes: map<string, Dict>, email: string, password: string,
                          found: Option<(string, Dict)>, verify: (string, Value) -> bool, now: int,
                          token: string, decode: string -> Option<Dict>)
    requires FoundBy(clientes, email, found)
    requires Login(clientes, email, password, found, verify, now).Ok?
    requires decode(token) == Some(Login(clientes, email, password, found, verify, now).value.accessToken)
    requires found.value.0 != ""
    ensures GetCurrentUserId(Some(BearerPrefix + token), decode) == Ok(Str(found.value.0))
  {
    var h := BearerPrefix + token;
    assert h[..7] == BearerPrefix && h[7..] == token;
  }

  /** The header the storefront sends for a token is read back as that token. */
  lemma StorefrontHeaderRead(token: string)
    requires token != ""
    ensures var h := Client.AuthHeader(Some(token))[0].1;
      StartsWith(h, BearerPrefix) && h[7..] == token
  {
    var h := Client.AuthHeader(Some(token))[0].1;
    assert h[..7] == BearerPrefix && h[7..] == token;
  }
}
