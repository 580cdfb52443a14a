/** The storefront's API helpers (frontend/src/api/api.js): `mapProduct`, the
    `handle` wrapper every call goes through, the change-password body and the
    product listing with its category query. */
module Api {
  import opened Values
  import opened Text
  import opened Client

  // ---------------------------------------------------------------- Number()

  /** `Number(s)` for a string: blank text is 0, a decimal numeral (surrounded by
      whitespace) is the number it denotes, anything else NaN. */
  function NumberOfText(s: string): (r: Value)
    ensures r.Num? || r.NaN?
    ensures r.Num? <==> Trim(Js, s) == "" || IsNumeral(Trim(Js, s))
  {
    var t := Trim(Js, s);
    if t == "" then Num(0.0)
    else if IsNumeral(t) then Num(NumeralValue(t))
    else NaN
  }

  /** `Number(v)`: always a number or NaN; numbers are kept, null is 0, booleans 1
      and 0, undefined and plain objects NaN, an array through its text: the empty
      array is 0, an array of two or more elements joins them around a comma (NaN),
      and a single element is read from its own text, so a nested array is read as
      that array. */
  function ToNumber(v: Value): (r: Value)
    ensures r.Num? || r.NaN?
    ensures v.Num? ==> r == v
    ensures v.Null? ==> r == Num(0.0)
    ensures v.Undefined? || v.NaN? || v.Obj? ==> r == NaN
    ensures v == Arr([]) ==> r == Num(0.0)
    ensures v.Arr? && |v.elems| > 1 ==> r == NaN
  {
    match v
    case Undefined => NaN
    case Null => Num(0.0)
    case Bool(b) => Num(if b then 1.0 else 0.0)
    case Num(_) => v
    case NaN => NaN
    case Str(s) => NumberOfText(s)
    case ObjectId(_) => NaN
    case Arr(a) =>
      if a == [] then Num(0.0)
      else if |a| > 1 then NaN
      else (match a[0]
        case Num(_) => a[0]
        case Null => Num(0.0)
        case Undefined => Num(0.0)
        case Str(s) => NumberOfText(s)
        case Arr(_) => ToNumber(a[0])
        case _ => NaN)
    case Obj(_) => NaN
  }

  /** An array's single element is read from its text: a nested array as that
      array, but `true` as the text "true", which is not a numeral. */
  lemma SingletonArrayNumber()
    ensures ToNumber(Arr([Arr([Num(5.0)])])) == Num(5.0)
    ensures ToNumber(Arr([Arr([])])) == Num(0.0)
    ensures ToNumber(Arr([Arr([Num(1.0), Num(2.0)])])) == NaN
    ensures ToNumber(Arr([Bool(true)])) == NaN && ToNumber(Bool(true)) == Num(1.0)
    ensures ToNumber(Arr([Undefined])) == Num(0.0) && ToNumber(Undefined) == NaN
  {
  }

  /** The decimal text of a whole number reads back as that number. */
  lemma NumberOfDecimalText(n: nat)
    ensures ToNumber(Str(DecimalString(n))) == Num(n as real)
  {
    var t := DecimalString(n);
    TrimUnchanged(Js, t);
    DecimalStringNumeral(n);
  }

  /** A price written with two decimals, signed or not, reads back as that many
      cents. */
  lemma NumberOfCentsText(cents: int)
    ensures ToNumber(Str(CentsText(cents))) == Num(cents as real / 100.0)
  {
    CentsTextTrimmed(Js, cents);
    CentsTextNumeral(cents);
  }

  // ---------------------------------------------------------------- mapProduct

  const ProductKeys: set<string> := {"_id", "nombre", "precio", "categoria", "imagenUrl", "slug"}

  /** The fields `mapProduct` computes before it spreads the document over them. */
  function Fallbacks(doc: Dict): (d: Dict)
    ensures d.Keys == ProductKeys
  {
    map["_id" := JsOr(Get(doc, "id"), Get(doc, "_id")),
        "nombre" := Coalesce(Get(doc, "title"), Coalesce(Get(doc, "nombre"), Str("Producto"))),
        "precio" := ToNumber(Coalesce(Get(doc, "price"), Coalesce(Get(doc, "precio"), Num(0.0)))),
        "categoria" := Coalesce(Get(doc, "category"), Coalesce(Get(doc, "categoria"), Null)),
        "imagenUrl" := Coalesce(Get(doc, "image"), Coalesce(Get(doc, "imagenUrl"), Null)),
        "slug" := Coalesce(Get(doc, "slug"), Null)]
  }

  /** `mapProduct(doc)`: the six storefront fields always exist, and every field the
      document has is kept as it is, because `...doc` comes last. */
  function MapProduct(doc: Dict): (r: Dict)
    ensures r.Keys == doc.Keys + ProductKeys
    ensures forall k :: k in doc ==> r[k] == doc[k]
    ensures forall k :: k in ProductKeys && k !in doc ==> r[k] == Fallbacks(doc)[k]
  {
    Fallbacks(doc) + doc
  }

  /** A document that lacks a field gets its fallback: the first of the alternative
      names that is set, else "Producto", 0 or null; a price read from `price` is
      converted to a number, while a `precio` the document has is kept unconverted. */
  lemma MapProductFallbacks(doc: Dict)
    ensures "nombre" !in doc && "title" !in doc ==> MapProduct(doc)["nombre"] == Str("Producto")
    ensures "precio" !in doc ==> MapProduct(doc)["precio"].Num? || MapProduct(doc)["precio"].NaN?
    ensures "precio" !in doc && "price" !in doc ==> MapProduct(doc)["precio"] == Num(0.0)
    ensures "precio" in doc ==> MapProduct(doc)["precio"] == doc["precio"]
    ensures "slug" !in doc ==> MapProduct(doc)["slug"] == Null
    ensures "_id" !in doc ==> MapProduct(doc)["_id"] == JsOr(Get(doc, "id"), Undefined)
  {
    var f := Fallbacks(doc);
    assert f["nombre"] == Coalesce(Get(doc, "title"), Coalesce(Get(doc, "nombre"), Str("Producto")));
    assert f["precio"] == ToNumber(Coalesce(Get(doc, "price"), Coalesce(Get(doc, "precio"), Num(0.0))));
    assert f["slug"] == Coalesce(Get(doc, "slug"), Null);
    assert f["_id"] == JsOr(Get(doc, "id"), Get(doc, "_id"));
  }

  /** Mapping a mapped product again changes nothing: it has all six fields, and
      the spread keeps them. */
  lemma MapProductIdempotent(doc: Dict)
    ensures MapProduct(MapProduct(doc)) == MapProduct(doc)
  {
    var r := MapProduct(doc);
    assert MapProduct(r).Keys == r.Keys;
  }

  // ---------------------------------------------------------------- handle

  const NetworkErrorText := "Error de red"

  /** The message `handle` rethrows with: the error's own message when that is a
      non-empty string, else "Error de red". */
  function HandledMessage(e: Value): (m: string)
    ensures m != ""
    ensures Prop(e, "message").Str? && Prop(e, "message").s != "" ==> m == Prop(e, "message").s
    ensures !(Prop(e, "message").Str? && Prop(e, "message").s != "") ==> m == NetworkErrorText
  {
    match Prop(e, "message")
    case Str(s) => if s != "" then s else NetworkErrorText
    case _ => NetworkErrorText
  }

  /** `handle(fn)`: a value passes through; whatever is thrown is rethrown as
      `new Error(msg)`. */
  function Handle(o: Outcome): (r: Outcome)
    ensures o.Returned? ==> r == o
    ensures o.Thrown? ==> r == Thrown(ErrorValue(HandledMessage(o.error)))
  {
    match o
    case Returned(_) => o
    case Thrown(e) => Thrown(ErrorValue(HandledMessage(e)))
  }

  /** What `handle` throws already has a non-empty message, so handling twice is
      handling once. */
  lemma HandleIdempotent(o: Outcome)
    ensures Handle(Handle(o)) == Handle(o)
  {
    if o.Thrown? {
      var m := HandledMessage(o.error);
      assert Prop(ErrorValue(m), "message") == Str(m);
    }
  }

  /** A call the server refuses fails with the server's text (or "<status> Error"),
      never with "Error de red". */
  lemma HttpFailureMessage(res: Response)
    requires !IsOk(res)
    ensures Handle(ApiOutcome(Answered(res))) == Thrown(ErrorValue(FailureText(res)))
  {
    assert Prop(ErrorValue(FailureText(res)), "message") == Str(FailureText(res));
  }

  // ---------------------------------------------------------------- changePassword

  /** `typeof a === "object" && a !== null` */
  predicate IsObjectValue(a: Value)
  {
    a.Obj? || a.Arr?
  }

  /** The change-password body object: `{current_password, new_password}` taken
      from an options object, or from the two arguments. `JSON.stringify` then drops
      a member whose value is undefined (`Values.DropUndefined`). */
  function ChangePasswordBody(a: Value, b: Value): (r: Dict)
    ensures r.Keys == {"current_password", "new_password"}
    ensures IsObjectValue(a) ==>
      r["current_password"] == Prop(a, "oldPassword") && r["new_password"] == Prop(a, "newPassword")
    ensures !IsObjectValue(a) ==> r["current_password"] == a && r["new_password"] == b
  {
    if IsObjectValue(a)
    then map["current_password" := Prop(a, "oldPassword"), "new_password" := Prop(a, "newPassword")]
    else map["current_password" := a, "new_password" := b]
  }

  /** Both ways of calling send the same body: the options object
      `{oldPassword, newPassword}` and the two passwords as arguments. */
  lemma ChangePasswordFormsAgree(current: Value, next: Value, ignored: Value)
    requires !IsObjectValue(current)
    ensures ChangePasswordBody(Obj(map["oldPassword" := current, "newPassword" := next]), ignored) ==
      ChangePasswordBody(current, next)
  {
    var opts := Obj(map["oldPassword" := current, "newPassword" := next]);
    assert Prop(opts, "oldPassword") == current;
    assert Prop(opts, "newPassword") == next;
  }

  // ---------------------------------------------------------------- encodeURIComponent

  /** The characters `encodeURIComponent` leaves as they are. */
  predicate IsUnreserved(c: char)
  {
    || ('A' <= c <= 'Z') || ('a' <= c <= 'z') || ('0' <= c <= '9')
    || c == '-' || c == '_' || c == '.' || c == '!' || c == '~' || c == '*' || c == '\'' || c == '(' || c == ')'
  }

  predicate IsUpperHex(c: char)
  {
    ('0' <= c <= '9') || ('A' <= c <= 'F')
  }

  /** A character that can appear in encoded text. */
  predicate IsEncodedChar(c: char)
  {
    IsUnreserved(c) || c == '%' || IsUpperHex(c)
  }

  function HexDigitUpper(n: nat): (c: char)
    requires n < 16
    ensures IsUpperHex(c)
  {
    if n < 10 then ('0' as int + n) as char else ('A' as int + n - 10) as char
  }

  /** The value of a hexadecimal digit, in either case. */
  function HexValue(c: char): nat
  {
    if '0' <= c <= '9' then c as int - '0' as int
    else if 'A' <= c <= 'F' then c as int - 'A' as int + 10
    else if 'a' <= c <= 'f' then c as int - 'a' as int + 10
    else 0
  }

  predicate IsByte(b: int)
  {
    0 <= b < 256
  }

  /** The UTF-8 encoding of one character. */
  function Utf8(c: char): (bs: seq<int>)
    ensures 1 <= |bs| <= 4
    ensures forall k :: 0 <= k < |bs| ==> IsByte(bs[k])
    ensures c as int < 0x80 ==> bs == [c as int]
  {
    var n := c as int;
    if n < 0x80 then [n]
    else if n < 0x800 then [0xC0 + n / 64, 0x80 + n % 64]
    else if n < 0x10000 then [0xE0 + n / 4096, 0x80 + (n / 64) % 64, 0x80 + n % 64]
    else [0xF0 + n / 262144, 0x80 + (n / 4096) % 64, 0x80 + (n / 64) % 64, 0x80 + n % 64]
  }

  /** The UTF-8 encoding of a text. */
  function Utf8Text(s: string): seq<int>
  {
    if s == [] then [] else Utf8(s[0]) + Utf8Text(s[1..])
  }

  /** `%XY`, with upper-case hexadecimal digits. */
  function PercentByte(b: int): (t: string)
    requires IsByte(b)
    ensures |t| == 3 && t[0] == '%' && IsUpperHex(t[1]) && IsUpperHex(t[2])
  {
    ['%', HexDigitUpper(b / 16), HexDigitUpper(b % 16)]
  }

  function PercentBytes(bs: seq<int>): (t: string)
    requires forall k :: 0 <= k < |bs| ==> IsByte(bs[k])
    ensures forall k :: 0 <= k < |t| ==> t[k] == '%' || IsUpperHex(t[k])
  {
    if bs == [] then "" else PercentByte(bs[0]) + PercentBytes(bs[1..])
  }

  function EncodeChar(c: char): (t: string)
    ensures forall k :: 0 <= k < |t| ==> IsEncodedChar(t[k])
  {
    if IsUnreserved(c) then [c] else PercentBytes(Utf8(c))
  }

  /** `encodeURIComponent(s)`: unreserved characters are kept, every other character
      becomes the `%XY` escapes of its UTF-8 bytes. The result holds no `&`, `=`, `#`,
      `+` or space, so it cannot end the query parameter it is put in. */
  function EncodeURIComponent(s: string): (r: string)
    ensures forall k :: 0 <= k < |r| ==> IsEncodedChar(r[k])
  {
    if s == [] then "" else EncodeChar(s[0]) + EncodeURIComponent(s[1..])
  }

  /** Text made only of unreserved characters is sent as it is. */
  lemma {:induction false} EncodeUnreservedUnchanged(s: string)
    requires forall k :: 0 <= k < |s| ==> IsUnreserved(s[k])
    ensures EncodeURIComponent(s) == s
  {
    if s != [] {
      EncodeUnreservedUnchanged(s[1..]);
    }
  }

  /** What a server's percent-decoding gives, as bytes: a `%` followed by two
      hexadecimal digits is that byte, any other character its UTF-8 bytes. */
  function PercentDecode(t: string): seq<int>
  {
    if t == [] then []
    else if t[0] == '%' && |t| >= 3 && IsHexDigit(t[1]) && IsHexDigit(t[2])
    then [16 * HexValue(t[1]) + HexValue(t[2])] + PercentDecode(t[3..])
    else Utf8(t[0]) + PercentDecode(t[1..])
  }

  lemma PercentByteDecodes(b: int, rest: string)
    requires IsByte(b)
    ensures PercentDecode(PercentByte(b) + rest) == [b] + PercentDecode(rest)
  {
    var t := PercentByte(b) + rest;
    assert t[3..] == rest;
    assert HexValue(HexDigitUpper(b / 16)) == b / 16;
    assert HexValue(HexDigitUpper(b % 16)) == b % 16;
  }

  lemma {:induction false} PercentBytesDecode(bs: seq<int>, rest: string)
    requires forall k :: 0 <= k < |bs| ==> IsByte(bs[k])
    ensures PercentDecode(PercentBytes(bs) + rest) == bs + PercentDecode(rest)
  {
    if bs == [] {
      assert PercentBytes(bs) + rest == rest;
    } else {
      var tail := PercentBytes(bs[1..]);
      assert PercentBytes(bs) + rest == PercentByte(bs[0]) + (tail + rest);
      PercentByteDecodes(bs[0], tail + rest);
      PercentBytesDecode(bs[1..], rest);
      assert bs + PercentDecode(rest) == [bs[0]] + (bs[1..] + PercentDecode(rest));
    }
  }

  lemma EncodeCharDecodes(c: char, rest: string)
    ensures PercentDecode(EncodeChar(c) + rest) == Utf8(c) + PercentDecode(rest)
  {
    if IsUnreserved(c) {
      assert ([c] + rest)[1..] == rest;
    } else {
      PercentBytesDecode(Utf8(c), rest);
    }
  }

  /** Percent-decoding the encoded text gives back the UTF-8 bytes of the text. */
  lemma {:induction false} EncodeDecodeRoundTrip(s: string)
    ensures PercentDecode(EncodeURIComponent(s)) == Utf8Text(s)
  {
    if s != [] {
      EncodeCharDecodes(s[0], EncodeURIComponent(s[1..]));
      EncodeDecodeRoundTrip(s[1..]);
    }
  }

  // ---------------------------------------------------------------- getProductos

  /** The query `getProductos(categoria)` puts after `/api/productos`. */
  function CategoryQuery(categoria: string): (q: string)
    ensures categoria == "" ==> q == ""
    ensures categoria != "" ==> q == "?categoria=" + EncodeURIComponent(categoria)
  {
    if categoria != "" then "?categoria=" + EncodeURIComponent(categoria) else ""
  }

  /** The server reads back the category the client asked for. */
  lemma CategoryQueryRoundTrip(categoria: string)
    requires categoria != ""
    ensures var q := CategoryQuery(categoria);
      q[..11] == "?categoria=" && PercentDecode(q[11..]) == Utf8Text(categoria)
  {
    var q := CategoryQuery(categoria);
    assert q[11..] == EncodeURIComponent(categoria);
    EncodeDecodeRoundTrip(categoria);
  }

  /** What reading `doc.id` on null throws. */
  const NullDocError := ErrorValue("Cannot read properties of null (reading 'id')")

  /** `mapProduct` on one element of the listing: an object is mapped, undefined
      takes the default `{}`, null throws. */
  function ProductOf(v: Value): (r: Result<Dict, Value>)
    ensures r.Err? <==> v.Null?
    ensures v.Obj? ==> r == Ok(MapProduct(v.fields))
  {
    match v
    case Null => Err(NullDocError)
    case Obj(fields) => Ok(MapProduct(fields))
    case _ => Ok(MapProduct(map[]))
  }

  /** `data.map(mapProduct)`: the products in order, or the first element's error. */
  function ProductsOf(elems: seq<Value>): (r: Result<seq<Dict>, Value>)
    ensures r.Ok? <==> forall k :: 0 <= k < |elems| ==> !elems[k].Null?
    ensures r.Ok? ==> |r.value| == |elems|
    ensures r.Ok? ==> forall k :: 0 <= k < |elems| ==> Ok(r.value[k]) == ProductOf(elems[k])
  {
    if elems == [] then Ok([])
    else match (ProductOf(elems[0]), ProductsOf(elems[1..]))
      case (Err(e), _) => Err(e)
      case (Ok(p), Ok(rest)) => Ok([p] + rest)
      case (Ok(_), Err(e)) =>
        assert forall k :: 0 <= k < |elems| - 1 ==> elems[1..][k] == elems[k + 1];
        Err(e)
  }

  /** The body of `getProductos` before `handle`: an array is mapped, any other
      value gives `[]`, a failure of `api` is passed on. */
  function Listed(o: Outcome): (r: Result<seq<Dict>, Value>)
  {
    match o
    case Thrown(e) => Err(e)
    case Returned(v) => if v.Arr? then ProductsOf(v.elems) else Ok([])
  }

  /** `getProductos(categoria)` once `fetch` has answered: the mapped products, or
      the error `handle` throws. */
  function GetProductos(fetched: Fetched): (r: Result<seq<Dict>, Value>)
    ensures r.Err? ==> Prop(r.error, "message").Str? && Prop(r.error, "message").s != ""
  {
    match Listed(ApiOutcome(fetched))
    case Ok(ps) => Ok(ps)
    case Err(e) =>
      assert Prop(ErrorValue(HandledMessage(e)), "message") == Str(HandledMessage(e));
      Err(ErrorValue(HandledMessage(e)))
  }

  /** An answer that is not an array gives an empty listing; an array of objects
      gives their mapped products in order. */
  lemma GetProductosAnswers(res: Response)
    requires IsOk(res) && res.status != 204 && res.json.Ok?
    ensures !res.json.value.Arr? ==> GetProductos(Answered(res)) == Ok([])
    ensures res.json.value.Arr? && (forall k :: 0 <= k < |res.json.value.elems| ==> res.json.value.elems[k].Obj?) ==>
      var elems := res.json.value.elems;
      GetProductos(Answered(res)).Ok? && |GetProductos(Answered(res)).value| == |elems| &&
      forall k :: 0 <= k < |elems| ==> GetProductos(Answered(res)).value[k] == MapProduct(elems[k].fields)
  {
  }

  /** A 204 answer, which `api` turns into null, lists nothing. */
  lemma NoContentListsNothing(res: Response)
    requires res.status == 204
    ensures GetProductos(Answered(res)) == Ok([])
  {
  }
}
