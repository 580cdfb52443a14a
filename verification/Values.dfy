/** Values shared by the storefront client (JavaScript) and its API server (Python):
    the dynamic values both sides pass around as JSON objects, JavaScript and Python
    truthiness, the server's HTTP errors and Python's `round(x, 2)`. */
module Values {
  import Text

  datatype Option<+T> = None | Some(value: T)

  datatype Result<+T, +E> = Ok(value: T) | Err(error: E)

  /** A dynamic value. `Undefined` and `NaN` occur on the JavaScript side only,
      `ObjectId` (a bson id, kept as its lower-case hex text) on the Python side only.
      Numbers are finite and exact. */
  datatype Value =
    | Undefined
    | Null
    | Bool(b: bool)
    | Num(n: real)
    | NaN
    | Str(s: string)
    | ObjectId(hex: string)
    | Arr(elems: seq<Value>)
    | Obj(fields: map<string, Value>)

  /** A JavaScript object's own properties, or a Python dict. */
  type Dict = map<string, Value>

  /** `o.k` on a JavaScript object: an absent property reads as undefined. */
  function Get(o: Dict, k: string): Value
  {
    if k in o then o[k] else Undefined
  }

  /** `v.k` for any JavaScript value, for a property name that is neither an array
      index nor "length": only a plain object has such an own property. */
  function Prop(v: Value, k: string): Value
  {
    if v.Obj? then Get(v.fields, k) else Undefined
  }

  /** Python's `d.get(k, default)`. */
  function PyGet(d: Dict, k: string, default: Value): Value
  {
    if k in d then d[k] else default
  }

  /** JavaScript's `Boolean(v)`. */
  predicate JsTruthy(v: Value)
  {
    match v
    case Undefined => false
    case Null => false
    case NaN => false
    case Bool(b) => b
    case Num(n) => n != 0.0
    case Str(s) => s != ""
    case _ => true
  }

  /** Python's `bool(v)`; `Undefined` never reaches Python and reads as None. */
  predicate PyTruthy(v: Value)
  {
    match v
    case Undefined => false
    case Null => false
    case Bool(b) => b
    case Num(n) => n != 0.0
    case NaN => true
    case Str(s) => s != ""
    case ObjectId(_) => true
    case Arr(a) => a != []
    case Obj(m) => m != map[]
  }

  /** `a ?? b` */
  function Coalesce(a: Value, b: Value): Value
  {
    if a.Undefined? || a.Null? then b else a
  }

  /** `a || b` */
  function JsOr(a: Value, b: Value): Value
  {
    if JsTruthy(a) then a else b
  }

  /** JSON.stringify leaves out the properties whose value is undefined. */
  function DropUndefined(o: Dict): (r: Dict)
    ensures forall k :: k in r <==> k in o && o[k] != Undefined
    ensures forall k :: k in r ==> r[k] == o[k]
  {
    map k | k in o && o[k] != Undefined :: o[k]
  }

  /** The detail of an HTTP error: a fixed text, or an f-string around one value
      (`f"{prefix}{subject}{suffix}"`; Python's `str()` of the subject is left abstract),
      or the fields a request failed validation on. */
  datatype Detail =
    | Msg(text: string)
    | About(prefix: string, subject: Value, suffix: string)
    | Invalid(fields: set<string>)   // a request body that fails validation: the fields at fault

  /** FastAPI's `HTTPException(status, detail)`. */
  datatype HttpError = HttpError(status: nat, detail: Detail)

  /** The number a stored number or bool is to Python's `<` against an int; None
      where the comparison raises TypeError. */
  function PyNumber(v: Value): (r: Option<real>)
    ensures v.Num? ==> r == Some(v.n)
    ensures r.Some? <==> v.Num? || v.Bool?
  {
    match v
    case Num(n) => Some(n)
    case Bool(b) => Some(if b then 1.0 else 0.0)
    case _ => None
  }

  /** Python's `float(v)`: a number or bool as Python compares it, a text through
      the decimal numeral it holds once stripped of whitespace; None where `float`
      raises. */
  function PyFloat(v: Value): (r: Option<real>)
    ensures !v.Str? ==> r == PyNumber(v)
  {
    match v
    case Str(s) => PyFloatText(s)
    case _ => PyNumber(v)
  }

  /** `float(s)` on text: whitespace is dropped from either end, one character at
      a time, and what is left must be a decimal numeral. */
  function PyFloatText(s: string): Option<real>
    decreases |s|
  {
    if s != [] && Text.IsSpace(Text.Py, s[0]) then PyFloatText(s[1..])
    else if s != [] && Text.IsSpace(Text.Py, s[|s| - 1]) then PyFloatText(s[..|s| - 1])
    else if Text.IsNumeral(s) then Some(Text.NumeralValue(s))
    else None
  }

  /** Reading text as `float` does reads the text `strip()` leaves. */
  lemma {:induction false} PyFloatTextStrips(s: string)
    ensures var t := Text.Trim(Text.Py, s);
      PyFloatText(s) == if Text.IsNumeral(t) then Some(Text.NumeralValue(t)) else None
    decreases |s|
  {
    if s != [] && Text.IsSpace(Text.Py, s[0]) {
      PyFloatTextStrips(s[1..]);
      Text.TrimDropFirst(Text.Py, s);
    } else if s != [] && Text.IsSpace(Text.Py, s[|s| - 1]) {
      PyFloatTextStrips(s[..|s| - 1]);
      Text.TrimDropLast(Text.Py, s);
    } else {
      Text.TrimUnchanged(Text.Py, s);
    }
  }

  /** A decimal numeral with nothing to strip converts to the number it denotes. */
  lemma PyFloatOfNumeral(t: string)
    requires t != [] && !Text.IsSpace(Text.Py, t[0]) && !Text.IsSpace(Text.Py, t[|t| - 1])
    requires Text.IsNumeral(t)
    ensures PyFloat(Str(t)) == Some(Text.NumeralValue(t))
  {
  }

  /** A price stored as text with two decimals converts to that many cents. */
  lemma PyFloatOfCentsText(cents: int)
    ensures PyFloat(Str(Text.CentsText(cents))) == Some(cents as real / 100.0)
  {
    Text.CentsTextReadable(Text.Py, cents);
    PyFloatOfNumeral(Text.CentsText(cents));
  }

  /** A whole number stored as text converts to that number. */
  lemma PyFloatOfDecimalText(n: nat)
    ensures PyFloat(Str(Text.DecimalString(n))) == Some(n as real)
  {
    var t := Text.DecimalString(n);
    Text.SignOrDigitNotSpace(Text.Py, t[0]);
    Text.SignOrDigitNotSpace(Text.Py, t[|t| - 1]);
    Text.DecimalStringNumeral(n);
    PyFloatOfNumeral(t);
  }

  /** Python's `round(y)` on an exact number: the nearest whole number, ties to
      the even one. */
  function RoundHalfEven(y: real): (n: int)
    ensures -0.5 <= n as real - y <= 0.5
    ensures n as real - y == 0.5 || n as real - y == -0.5 ==> n % 2 == 0
    ensures y.Floor as real == y ==> n == y.Floor
  {
    var f := y.Floor;
    var frac := y - f as real;
    if frac < 0.5 then f
    else if frac > 0.5 then f + 1
    else if f % 2 == 0 then f else f + 1
  }

  predicate IsWholeReal(x: real)
  {
    x.Floor as real == x
  }

  /** `x` in units of the `d`-th decimal place. */
  function Scaled(x: real, d: nat): real
  {
    x * Text.Pow10(d)
  }

  /** One decimal place more is a factor of ten. */
  lemma ScaledStep(y: real, x: real, d: nat)
    requires d > 0
    ensures Scaled(y / 10.0, d) == Scaled(y, d - 1)
    ensures Scaled(y / 10.0 - x, d) == Scaled(y - x * 10.0, d - 1)
  {
    assert Text.Pow10(d) == 10.0 * Text.Pow10(d - 1);
  }

  /** Python's `round(x, d)` on an exact number: scale by ten `d` times, round to
      the nearest whole number with ties to even, and scale back. The result is a
      whole number of units of the `d`-th decimal place, within half a unit of `x`,
      and an even number of units when `x` lies exactly half way. */
  function PyRound(x: real, d: nat): (r: real)
    ensures IsWholeReal(Scaled(r, d))
    ensures -0.5 <= Scaled(r - x, d) <= 0.5
    ensures Scaled(r - x, d) == 0.5 || Scaled(r - x, d) == -0.5 ==> Scaled(r, d).Floor % 2 == 0
    decreases d
  {
    if d == 0 then RoundHalfEven(x) as real
    else
      ScaledStep(PyRound(x * 10.0, d - 1), x, d);
      PyRound(x * 10.0, d - 1) / 10.0
  }

  /** `round(x, 2)`: a whole number of cents, at most half a cent away from `x`,
      and an even number of cents when `x` lies exactly half way. */
  function PyRound2(x: real): (r: real)
    ensures -0.005 <= r - x <= 0.005
    ensures IsWholeReal(r * 100.0)
    ensures r - x == 0.005 || r - x == -0.005 ==> (r * 100.0).Floor % 2 == 0
  {
    assert Text.Pow10(2) == 100.0;
    PyRound(x, 2)
  }

  /** A value that is already a whole number of `d`-th decimal units is left as it
      is, so rounding twice is rounding once. */
  lemma {:induction false} PyRoundIdempotent(x: real, d: nat)
    ensures PyRound(PyRound(x, d), d) == PyRound(x, d)
    decreases d
  {
    if d > 0 {
      var r' := PyRound(x * 10.0, d - 1);
      var r := r' / 10.0;
      assert PyRound(x, d) == r;
      assert r * 10.0 == r';
      PyRoundIdempotent(x * 10.0, d - 1);
      assert PyRound(r, d) == PyRound(r', d - 1) / 10.0;
    }
  }

  lemma PyRound2Idempotent(x: real)
    ensures PyRound2(PyRound2(x)) == PyRound2(x)
  {
    PyRoundIdempotent(x, 2);
  }
}
