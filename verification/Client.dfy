/** The storefront's fetch wrapper (frontend/src/api/client.js): the bearer header,
    the request headers `api` sends, and what a response turns into. The network
    itself is a parameter: what `fetch` answered. */
module Client {
  import opened Values
  import opened Text

  /** A header list as an object literal lists it: names and values in order. */
  type HeaderList = seq<(string, string)>

  const AuthorizationName := "Authorization"
  const ContentTypeName := "content-type"
  const JsonType := "application/json"

  /** `authHeader(token)`: a truthy token gives `{Authorization: "Bearer <token>"}`,
      a missing or empty one gives `{}`. */
  function AuthHeader(token: Option<string>): (h: HeaderList)
    ensures h == [] <==> token.None? || token.value == ""
    ensures h != [] ==> |h| == 1 && h[0].0 == AuthorizationName && h[0].1 == "Bearer " + token.value
  {
    match token
    case Some(t) => if t != "" then [(AuthorizationName, "Bearer " + t)] else []
    case None => []
  }

  // ---------------------------------------------------------------- Headers

  /** `headers.append(name, value)`: names are kept lower-cased, and a name that is
      already there gets the new value joined to the old one with ", ". */
  function Appended(entries: map<string, string>, name: string, value: string): (r: map<string, string>)
    ensures r.Keys == entries.Keys + {Lower(name)}
    ensures Lower(name) !in entries ==> r[Lower(name)] == value
    ensures Lower(name) in entries ==> r[Lower(name)] == entries[Lower(name)] + ", " + value
    ensures forall n :: n in entries && n != Lower(name) ==> r[n] == entries[n]
  {
    var n := Lower(name);
    if n in entries then entries[n := entries[n] + ", " + value] else entries[n := value]
  }

  /** The entries of `new Headers(init)`: each listed header appended in order. */
  function HeadersOf(init: HeaderList): (m: map<string, string>)
  {
    if init == [] then map[] else Appended(HeadersOf(init[..|init| - 1]), init[|init| - 1].0, init[|init| - 1].1)
  }

  /** The lower-cased names of a header list. */
  function Names(init: HeaderList): set<string>
  {
    if init == [] then {} else Names(init[..|init| - 1]) + {Lower(init[|init| - 1].0)}
  }

  /** The names a `Headers` object holds are exactly the lower-cased listed names. */
  lemma {:induction false} HeadersOfKeys(init: HeaderList)
    ensures HeadersOf(init).Keys == Names(init)
  {
    if init != [] {
      HeadersOfKeys(init[..|init| - 1]);
    }
  }

  /** A listed name is among the names. */
  lemma {:induction false} ListedName(init: HeaderList, k: nat)
    requires k < |init|
    ensures Lower(init[k].0) in Names(init)
  {
    var last := |init| - 1;
    if k < last {
      ListedName(init[..last], k);
      assert init[..last][k] == init[k];
    }
  }

  /** Every name comes from some listed header. */
  lemma {:induction false} NameListed(init: HeaderList, n: string)
    requires n in Names(init)
    ensures exists k :: 0 <= k < |init| && Lower(init[k].0) == n
  {
    var last := |init| - 1;
    if n != Lower(init[last].0) {
      NameListed(init[..last], n);
      var k :| 0 <= k < last && Lower(init[..last][k].0) == n;
      assert init[..last][k] == init[k];
    }
  }

  /** Names no two of which differ only in letter case. */
  predicate DistinctNames(init: HeaderList)
  {
    forall i, j :: 0 <= i < j < |init| ==> Lower(init[i].0) != Lower(init[j].0)
  }

  /** When no name repeats, each listed header is held with its own value. */
  lemma {:induction false} HeadersOfDistinct(init: HeaderList)
    requires DistinctNames(init)
    ensures forall k :: 0 <= k < |init| ==> Lower(init[k].0) in HeadersOf(init) && HeadersOf(init)[Lower(init[k].0)] == init[k].1
  {
    if init != [] {
      var last := |init| - 1;
      var prefix := init[..last];
      assert DistinctNames(prefix) by {
        forall i, j | 0 <= i < j < |prefix|
          ensures Lower(prefix[i].0) != Lower(prefix[j].0)
        {
          assert prefix[i] == init[i] && prefix[j] == init[j];
        }
      }
      HeadersOfDistinct(prefix);
      HeadersOfKeys(prefix);
      forall k | 0 <= k < last
        ensures Lower(prefix[k].0) != Lower(init[last].0)
      {
        assert prefix[k] == init[k];
      }
      if Lower(init[last].0) in Names(prefix) {
        NameListed(prefix, Lower(init[last].0));
      }
      forall k | 0 <= k < last
        ensures Lower(init[k].0) in HeadersOf(init) && HeadersOf(init)[Lower(init[k].0)] == init[k].1
      {
        assert prefix[k] == init[k];
      }
    }
  }

  /** A `Headers` object: its entries by lower-cased name. */
  class Headers {
    var entries: map<string, string>

    /** `new Headers(init)` */
    constructor (init: HeaderList)
      ensures entries == HeadersOf(init)
    {
      var m: map<string, string> := map[];
      var i := 0;
      while i < |init|
        invariant 0 <= i <= |init|
        invariant m == HeadersOf(init[..i])
      {
        assert init[..i + 1][..i] == init[..i];
        m := Appended(m, init[i].0, init[i].1);
        i := i + 1;
      }
      assert init[..i] == init;
      entries := m;
    }

    /** `headers.has(name)`, whatever the letter case of `name`. */
    function Has(name: string): (b: bool)
      reads this
      ensures b <==> Lower(name) in entries
    {
      Lower(name) in entries
    }

    /** `headers.set(name, value)`: replaces any value held under that name. */
    method Set(name: string, value: string)
      modifies this
      ensures entries == old(entries)[Lower(name) := value]
    {
      entries := entries[Lower(name) := value];
    }
  }

  // ---------------------------------------------------------------- requests

  /** `opts.body`: none, a JSON text, or a FormData object. */
  datatype Body = NoBody | JsonText(text: string) | FormData

  /** A body that is truthy and is not FormData: `api` then sends JSON. */
  predicate SendsJson(body: Body)
  {
    body.JsonText? && body.text != ""
  }

  /** The headers `api` sends: the caller's, plus `Content-Type: application/json`
      when it sends JSON and the caller supplied no Content-Type. */
  function RequestHeaders(init: HeaderList, body: Body): (m: map<string, string>)
    ensures ContentTypeName in m <==> ContentTypeName in HeadersOf(init) || SendsJson(body)
    ensures ContentTypeName in HeadersOf(init) ==> m[ContentTypeName] == HeadersOf(init)[ContentTypeName]
    ensures ContentTypeName !in HeadersOf(init) && SendsJson(body) ==> m[ContentTypeName] == JsonType
    ensures forall n :: n != ContentTypeName ==> (n in m <==> n in HeadersOf(init))
    ensures forall n :: n in m && n != ContentTypeName ==> m[n] == HeadersOf(init)[n]
  {
    var h := HeadersOf(init);
    if SendsJson(body) && ContentTypeName !in h then h[ContentTypeName := JsonType] else h
  }

  /** A Content-Type the caller lists, in any letter case, is the one sent. */
  lemma CallerContentTypeKept(init: HeaderList, body: Body, k: nat)
    requires k < |init| && Lower(init[k].0) == ContentTypeName
    ensures RequestHeaders(init, body) == HeadersOf(init)
  {
    HeadersOfKeys(init);
    ListedName(init, k);
  }

  /** The name `api` tests and sets is already in lower case. */
  lemma ContentTypeIsLower()
    ensures Lower(ContentTypeName) == ContentTypeName
  {
    LowerUnchanged(ContentTypeName);
  }

  /** The headers step of `api`: build `Headers` from the caller's list and add the
      JSON Content-Type when the body calls for it. */
  method PrepareHeaders(init: HeaderList, body: Body) returns (h: Headers)
    ensures fresh(h)
    ensures h.entries == RequestHeaders(init, body)
  {
    ghost var caller := HeadersOf(init);
    h := new Headers(init);
    ContentTypeIsLower();
    if body.JsonText? && body.text != "" {
      if !h.Has(ContentTypeName) {
        h.Set(ContentTypeName, JsonType);
        assert h.entries == caller[ContentTypeName := JsonType];
      }
    }
  }

  // ---------------------------------------------------------------- responses

  /** What the server answered: the status, the body as text (None when reading it
      fails) and the body as JSON (the parser's message when it is not JSON). */
  datatype Response = Response(status: nat, text: Option<string>, json: Result<Value, string>)

  /** What `fetch` did: answered, or rejected with some error value. */
  datatype Fetched = Answered(res: Response) | NetworkError(error: Value)

  /** How an async call ends: with a value, or by throwing one. */
  datatype Outcome = Returned(value: Value) | Thrown(error: Value)

  /** `new Error(message)`: an object whose own `message` is the text. */
  function ErrorValue(message: string): Value
  {
    Obj(map["message" := Str(message)])
  }

  /** `res.ok` */
  predicate IsOk(res: Response)
  {
    200 <= res.status <= 299
  }

  /** The message of a failed request: the body text, or `"<status> Error"` when the
      text is empty or cannot be read. It is never empty. */
  function FailureText(res: Response): (m: string)
    ensures m != []
    ensures res.text.Some? && res.text.value != "" ==> m == res.text.value
    ensures !(res.text.Some? && res.text.value != "") ==> m == DecimalString(res.status) + " Error"
  {
    var txt := match res.text case Some(t) => t case None => "";
    if txt != "" then txt else DecimalString(res.status) + " Error"
  }

  /** What `api` ends with once `fetch` has answered. */
  function ApiOutcome(fetched: Fetched): (o: Outcome)
    ensures fetched.NetworkError? ==> o == Thrown(fetched.error)
    ensures fetched.Answered? && !IsOk(fetched.res) ==> o == Thrown(ErrorValue(FailureText(fetched.res)))
    ensures fetched.Answered? && IsOk(fetched.res) && fetched.res.status == 204 ==> o == Returned(Null)
    ensures fetched.Answered? && IsOk(fetched.res) && fetched.res.status != 204 ==>
      o == (match fetched.res.json case Ok(v) => Returned(v) case Err(m) => Thrown(ErrorValue(m)))
    ensures o.Returned? <==> fetched.Answered? && IsOk(fetched.res) && (fetched.res.status == 204 || fetched.res.json.Ok?)
  {
    match fetched
    case NetworkError(e) => Thrown(e)
    case Answered(res) =>
      if !IsOk(res) then Thrown(ErrorValue(FailureText(res)))
      else if res.status == 204 then Returned(Null)
      else match res.json
        case Ok(v) => Returned(v)
        case Err(m) => Thrown(ErrorValue(m))
  }

  /** `api(path, opts)`: the headers it sends and how it ends. */
  method Api(init: HeaderList, body: Body, fetched: Fetched) returns (sent: map<string, string>, o: Outcome)
    ensures sent == RequestHeaders(init, body)
    ensures o == ApiOutcome(fetched)
  {
    var headers := PrepareHeaders(init, body);
    sent := headers.entries;
    match fetched
    case NetworkError(e) =>
      o := Thrown(e);
    case Answered(res) =>
      if !(200 <= res.status <= 299) {
        var txt := "";
        if res.text.Some? {
          txt := res.text.value;
        }
        if txt == "" {
          txt := DecimalString(res.status) + " Error";
        }
        o := Thrown(ErrorValue(txt));
      } else if res.status == 204 {
        o := Returned(Null);
      } else {
        o := match res.json case Ok(v) => Returned(v) case Err(m) => Thrown(ErrorValue(m));
      }
  }
}
