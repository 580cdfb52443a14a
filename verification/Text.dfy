/** Text rules the client and the server apply to form fields: what counts as
    whitespace in each runtime, trimming, the delivery phone pattern
    `^[\d+\-\s]{6,20}$`, and small helpers for decimal and hexadecimal text. */
module Text {

  /** The runtime whose library a rule comes from. */
  datatype Lang = Js | Py

  /** JavaScript: the WhiteSpace and LineTerminator characters, which `trim()` removes
      and `\s` matches. Python: `str.isspace()`, which `strip()` removes and `\s`
      matches in a str pattern. They differ in U+FEFF (JavaScript only) and in
      U+001C..U+001F and U+0085 (Python only). */
  predicate IsSpace(lang: Lang, c: char)
  {
    || c == ' ' || c == '\t' || c == '\n' || c == '\r' || c == '\U{000B}' || c == '\U{000C}'
    || c == '\U{00A0}' || c == '\U{1680}' || ('\U{2000}' <= c <= '\U{200A}')
    || c == '\U{2028}' || c == '\U{2029}' || c == '\U{202F}' || c == '\U{205F}' || c == '\U{3000}'
    || (match lang
        case Js => c == '\U{FEFF}'
        case Py => ('\U{001C}' <= c <= '\U{001F}') || c == '\U{0085}')
  }

  predicate AllSpace(lang: Lang, s: string)
  {
    forall k :: 0 <= k < |s| ==> IsSpace(lang, s[k])
  }

  /** The first index at or after `i` that does not hold whitespace. */
  function SpanFrom(lang: Lang, s: string, i: nat): (j: nat)
    requires i <= |s|
    ensures i <= j <= |s|
    ensures forall k :: i <= k < j ==> IsSpace(lang, s[k])
    ensures j < |s| ==> !IsSpace(lang, s[j])
    decreases |s| - i
  {
    if i < |s| && IsSpace(lang, s[i]) then SpanFrom(lang, s, i + 1) else i
  }

  /** The smallest index `i <= j` such that `s[i..j]` is all whitespace. */
  function SpanBack(lang: Lang, s: string, j: nat): (i: nat)
    requires j <= |s|
    ensures i <= j
    ensures forall k :: i <= k < j ==> IsSpace(lang, s[k])
    ensures 0 < i ==> !IsSpace(lang, s[i - 1])
    decreases j
  {
    if 0 < j && IsSpace(lang, s[j - 1]) then SpanBack(lang, s, j - 1) else j
  }

  /** Where the text of `s` begins and ends once the whitespace around it is dropped. */
  function TrimBounds(lang: Lang, s: string): (b: (nat, nat))
    ensures b.0 <= b.1 <= |s|
    ensures forall k :: 0 <= k < b.0 ==> IsSpace(lang, s[k])
    ensures forall k :: b.1 <= k < |s| ==> IsSpace(lang, s[k])
    ensures b.0 < b.1 ==> !IsSpace(lang, s[b.0]) && !IsSpace(lang, s[b.1 - 1])
  {
    var i := SpanFrom(lang, s, 0);
    var j := SpanBack(lang, s, |s|);
    if j <= i then (i, i) else (i, j)
  }

  /** JavaScript's `s.trim()` and Python's `s.strip()`: the slice of `s` left once
      the whitespace at both ends is dropped. */
  function Trim(lang: Lang, s: string): (r: string)
    ensures |r| <= |s|
    ensures r == [] <==> AllSpace(lang, s)
    ensures r != [] ==> !IsSpace(lang, r[0]) && !IsSpace(lang, r[|r| - 1])
  {
    var b := TrimBounds(lang, s);
    assert b.0 < b.1 ==> s[b.0..b.1][0] == s[b.0];
    s[b.0..b.1]
  }

  /** Trimming keeps the text between a run of whitespace at the start and one at
      the end, and drops those runs. */
  lemma TrimIsSlice(lang: Lang, s: string)
    ensures exists i, j ::
      0 <= i <= j <= |s| && Trim(lang, s) == s[i..j] && AllSpace(lang, s[..i]) && AllSpace(lang, s[j..])
  {
    var b := TrimBounds(lang, s);
    assert AllSpace(lang, s[..b.0]) && AllSpace(lang, s[b.1..]);
  }

  lemma {:induction false} SpanFromShift(lang: Lang, s: string, i: nat)
    requires 1 <= i <= |s|
    ensures SpanFrom(lang, s[1..], i - 1) == SpanFrom(lang, s, i) - 1
    decreases |s| - i
  {
    if i < |s| && IsSpace(lang, s[i]) {
      SpanFromShift(lang, s, i + 1);
    }
  }

  lemma {:induction false} SpanBackShift(lang: Lang, s: string, j: nat)
    requires 1 <= j <= |s|
    ensures SpanBack(lang, s[1..], j - 1) + 1 == if SpanBack(lang, s, j) == 0 then 1 else SpanBack(lang, s, j)
    decreases j
  {
    if 1 < j && IsSpace(lang, s[j - 1]) {
      SpanBackShift(lang, s, j - 1);
    }
  }

  lemma {:induction false} SpanFromPrefix(lang: Lang, s: string, n: nat, i: nat)
    requires i <= n <= |s|
    ensures SpanFrom(lang, s[..n], i) == if SpanFrom(lang, s, i) < n then SpanFrom(lang, s, i) else n
    decreases n - i
  {
    if i < n && IsSpace(lang, s[i]) {
      SpanFromPrefix(lang, s, n, i + 1);
    }
  }

  lemma {:induction false} SpanBackPrefix(lang: Lang, s: string, n: nat, j: nat)
    requires j <= n <= |s|
    ensures SpanBack(lang, s[..n], j) == SpanBack(lang, s, j)
    decreases j
  {
    if 0 < j && IsSpace(lang, s[j - 1]) {
      SpanBackPrefix(lang, s, n, j - 1);
    }
  }

  lemma TrimBoundsDropFirst(lang: Lang, s: string)
    requires s != [] && IsSpace(lang, s[0])
    ensures var b, c := TrimBounds(lang, s), TrimBounds(lang, s[1..]);
      (b.0 < b.1 ==> c == (b.0 - 1, b.1 - 1)) && (b.0 == b.1 ==> c.0 == c.1)
  {
    var i, j := SpanFrom(lang, s, 0), SpanBack(lang, s, |s|);
    assert i == SpanFrom(lang, s, 1);
    SpanFromShift(lang, s, 1);
    SpanBackShift(lang, s, |s|);
  }

  /** Whitespace at the start is trimmed away. */
  lemma TrimDropFirst(lang: Lang, s: string)
    requires s != [] && IsSpace(lang, s[0])
    ensures Trim(lang, s[1..]) == Trim(lang, s)
  {
    var b, c := TrimBounds(lang, s), TrimBounds(lang, s[1..]);
    TrimBoundsDropFirst(lang, s);
    if b.0 < b.1 {
      assert s[1..][c.0..c.1] == s[b.0..b.1];
    }
  }

  lemma TrimBoundsDropLast(lang: Lang, s: string)
    requires s != [] && IsSpace(lang, s[|s| - 1])
    ensures var b, c := TrimBounds(lang, s), TrimBounds(lang, s[..|s| - 1]);
      (b.0 < b.1 ==> c == b) && (b.0 == b.1 ==> c.0 == c.1)
  {
    var n := |s| - 1;
    var j := SpanBack(lang, s, |s|);
    assert j == SpanBack(lang, s, n);
    SpanFromPrefix(lang, s, n, 0);
    SpanBackPrefix(lang, s, n, n);
  }

  /** Whitespace at the end is trimmed away. */
  lemma TrimDropLast(lang: Lang, s: string)
    requires s != [] && IsSpace(lang, s[|s| - 1])
    ensures Trim(lang, s[..|s| - 1]) == Trim(lang, s)
  {
    var b, c := TrimBounds(lang, s), TrimBounds(lang, s[..|s| - 1]);
    TrimBoundsDropLast(lang, s);
    if b.0 < b.1 {
      assert s[..|s| - 1][c.0..c.1] == s[b.0..b.1];
    }
  }

  /** Text with nothing to trim at either end is left as it is. */
  lemma {:induction false} TrimUnchanged(lang: Lang, s: string)
    requires s != [] ==> !IsSpace(lang, s[0]) && !IsSpace(lang, s[|s| - 1])
    ensures Trim(lang, s) == s
  {
    if s != [] {
      assert SpanFrom(lang, s, 0) == 0;
      assert SpanBack(lang, s, |s|) == |s|;
    }
  }

  /** Trimming twice is trimming once. */
  lemma TrimIdempotent(lang: Lang, s: string)
    ensures Trim(lang, Trim(lang, s)) == Trim(lang, s)
  {
    TrimUnchanged(lang, Trim(lang, s));
  }

  /** JavaScript's `s.length`: UTF-16 code units, two for a character outside the
      Basic Multilingual Plane. */
  function JsLength(s: string): (n: nat)
    ensures n >= |s|
    ensures n == |s| <==> forall k :: 0 <= k < |s| ==> s[k] as int <= 0xFFFF
  {
    if s == [] then 0
    else (if s[0] as int > 0xFFFF then 2 else 1) + JsLength(s[1..])
  }

  /** One character of the class `[\d+\-\s]`, with `\d` taken as the ASCII digits. */
  predicate IsPhoneChar(lang: Lang, c: char)
  {
    ('0' <= c <= '9') || c == '+' || c == '-' || IsSpace(lang, c)
  }

  /** `^[\d+\-\s]{6,20}$` matches the whole of `s`. Every character of the class lies
      in the Basic Multilingual Plane, so JavaScript's count of code units and
      Python's count of characters agree on a match. */
  predicate PhoneOk(lang: Lang, s: string)
  {
    6 <= |s| <= 20 && forall k :: 0 <= k < |s| ==> IsPhoneChar(lang, s[k])
  }

  /** `s.startswith(p)` */
  predicate StartsWith(s: string, p: string)
  {
    |p| <= |s| && s[..|p|] == p
  }

  predicate IsDigit(c: char)
  {
    '0' <= c <= '9'
  }

  /** The decimal text of a natural number, as Python's `str(n)` and JavaScript's
      `String(n)` write it. */
  function DecimalString(n: nat): (r: string)
    ensures r != []
    ensures forall k :: 0 <= k < |r| ==> IsDigit(r[k])
  {
    if n < 10 then [('0' as int + n) as char]
    else DecimalString(n / 10) + [('0' as int + n % 10) as char]
  }

  predicate AllDigits(s: string)
  {
    forall k :: 0 <= k < |s| ==> IsDigit(s[k])
  }

  /** The number that a string of decimal digits denotes. */
  function DigitsValue(s: string): nat
    requires forall k :: 0 <= k < |s| ==> IsDigit(s[k])
  {
    if s == [] then 0
    else
      assert IsDigit(s[|s| - 1]);
      10 * DigitsValue(s[..|s| - 1]) + (s[|s| - 1] as int - '0' as int)
  }

  /** Reading back the decimal text of `n` gives `n`. */
  lemma {:induction false} DecimalStringRoundTrip(n: nat)
    ensures DigitsValue(DecimalString(n)) == n
  {
    if n >= 10 {
      var r := DecimalString(n);
      DecimalStringRoundTrip(n / 10);
      assert r[..|r| - 1] == DecimalString(n / 10);
    }
  }

  function Pow10(d: nat): (p: real)
    ensures p >= 1.0
  {
    if d == 0 then 1.0 else 10.0 * Pow10(d - 1)
  }

  /** The index of the first `c` in `s`, or `|s|` when there is none. */
  function FirstIndexOf(s: string, c: char): (i: nat)
    ensures i <= |s|
    ensures forall k :: 0 <= k < i ==> s[k] != c
    ensures i < |s| ==> s[i] == c
  {
    if s == [] || s[0] == c then 0 else 1 + FirstIndexOf(s[1..], c)
  }

  /** An unsigned decimal numeral `d+(.d*)?` or `.d+`: digits around at most one
      point, with a digit on at least one side of it. */
  predicate IsUnsignedNumeral(u: string)
  {
    var d := FirstIndexOf(u, '.');
    && AllDigits(u[..d])
    && (d < |u| ==> AllDigits(u[d + 1..]))
    && (0 < d || d + 1 < |u|)
  }

  /** The digits after the point of an unsigned numeral (none without a point). */
  function Fraction(u: string): string
  {
    var d := FirstIndexOf(u, '.');
    if d < |u| then u[d + 1..] else ""
  }

  function UnsignedValue(u: string): (x: real)
    requires IsUnsignedNumeral(u)
    ensures x >= 0.0
  {
    var frac := Fraction(u);
    assert AllDigits(frac);
    DigitsValue(u[..FirstIndexOf(u, '.')]) as real + DigitsValue(frac) as real / Pow10(|frac|)
  }

  predicate HasSign(t: string)
  {
    t != [] && (t[0] == '+' || t[0] == '-')
  }

  /** A decimal numeral `[+-]?(d+(.d*)?|.d+)`, the form that both JavaScript's
      `Number(s)` and Python's `float(s)` read after trimming. */
  predicate IsNumeral(t: string)
  {
    if HasSign(t) then IsUnsignedNumeral(t[1..]) else IsUnsignedNumeral(t)
  }

  /** The number a decimal numeral denotes. */
  function NumeralValue(t: string): real
    requires IsNumeral(t)
  {
    if !HasSign(t) then UnsignedValue(t)
    else if t[0] == '-' then -UnsignedValue(t[1..])
    else UnsignedValue(t[1..])
  }

  /** The two digits of a number of cents below 100, with a leading zero. */
  function TwoDigits(c: nat): (r: string)
    requires c < 100
    ensures |r| == 2 && AllDigits(r)
  {
    [('0' as int + c / 10) as char, ('0' as int + c % 10) as char]
  }

  /** A signed amount of cents written with two decimals, as in "-12.05". */
  function CentsText(cents: int): (t: string)
  {
    if cents < 0 then "-" + CentsDigits(-cents) else CentsDigits(cents)
  }

  /** Where the first point of digits, a point and more text lies. */
  lemma PointAfterDigits(w: string, rest: string)
    requires AllDigits(w) && rest != [] && rest[0] == '.'
    ensures FirstIndexOf(w + rest, '.') == |w|
  {
    var u := w + rest;
    var d := FirstIndexOf(u, '.');
    assert u[|w|] == '.';
    assert forall k :: 0 <= k < |w| ==> u[k] == w[k];
  }

  /** A run of digits is a numeral without a point. */
  lemma {:induction false} NoPointInDigits(w: string)
    requires AllDigits(w)
    ensures FirstIndexOf(w, '.') == |w|
  {
    if w != [] {
      NoPointInDigits(w[1..]);
    }
  }

  /** The decimal text of a whole number reads as that number. */
  lemma DecimalStringNumeral(n: nat)
    ensures IsNumeral(DecimalString(n)) && NumeralValue(DecimalString(n)) == n as real
  {
    var w := DecimalString(n);
    NoPointInDigits(w);
    assert w[..|w|] == w;
    DecimalStringRoundTrip(n);
    assert DigitsValue(Fraction(w)) == 0;
  }

  /** Two digits read back as the number below 100 they write. */
  lemma TwoDigitsValue(c: nat)
    requires c < 100
    ensures DigitsValue(TwoDigits(c)) == c
  {
    var two := TwoDigits(c);
    assert two[..1] == [two[0]] && [two[0]][..0] == [];
    assert DigitsValue([two[0]]) == c / 10;
  }

  /** The unsigned part of a price written with two decimals. */
  function CentsDigits(m: nat): string
  {
    DecimalString(m / 100) + "." + TwoDigits(m % 100)
  }

  lemma {:induction false} CentsDigitsNumeral(m: nat)
    ensures IsUnsignedNumeral(CentsDigits(m)) && UnsignedValue(CentsDigits(m)) == m as real / 100.0
  {
    var w := DecimalString(m / 100);
    var two := TwoDigits(m % 100);
    var u := CentsDigits(m);
    PointAfterDigits(w, "." + two);
    assert w + ("." + two) == u;
    assert u[..|w|] == w && u[|w| + 1..] == two;
    DecimalStringRoundTrip(m / 100);
    TwoDigitsValue(m % 100);
    assert Pow10(2) == 100.0;
    assert m == 100 * (m / 100) + m % 100;
  }

  /** A price written with two decimals reads back as that many cents. */
  lemma CentsTextNumeral(cents: int)
    ensures IsNumeral(CentsText(cents)) && NumeralValue(CentsText(cents)) == cents as real / 100.0
  {
    var m := if cents < 0 then -cents else cents;
    var u := CentsDigits(m);
    CentsDigitsNumeral(m);
    if cents < 0 {
      assert CentsText(cents) == "-" + u && ("-" + u)[1..] == u;
    } else {
      assert CentsText(cents) == u;
      assert u[0] == DecimalString(m / 100)[0];
    }
  }

  /** A price written with two decimals starts with a minus sign or a digit and
      ends with a digit. */
  lemma CentsTextEnds(cents: int)
    ensures var t := CentsText(cents);
      t != [] && (t[0] == '-' || IsDigit(t[0])) && IsDigit(t[|t| - 1])
  {
    var m := if cents < 0 then -cents else cents;
    var t := CentsText(cents);
    assert t[|t| - 1] == TwoDigits(m % 100)[1];
    assert t[0] == '-' || t[0] == DecimalString(m / 100)[0];
  }

  /** A price written with two decimals is a numeral with nothing to trim. */
  lemma CentsTextReadable(lang: Lang, cents: int)
    ensures var t := CentsText(cents);
      && t != [] && !IsSpace(lang, t[0]) && !IsSpace(lang, t[|t| - 1])
      && IsNumeral(t) && NumeralValue(t) == cents as real / 100.0
  {
    var t := CentsText(cents);
    CentsTextEnds(cents);
    SignOrDigitNotSpace(lang, t[0]);
    SignOrDigitNotSpace(lang, t[|t| - 1]);
    CentsTextNumeral(cents);
  }

  lemma SignOrDigitNotSpace(lang: Lang, c: char)
    requires c == '-' || IsDigit(c)
    ensures !IsSpace(lang, c)
  {
  }

  /** Text written with two decimals has no whitespace to trim. */
  lemma CentsTextTrimmed(lang: Lang, cents: int)
    ensures Trim(lang, CentsText(cents)) == CentsText(cents)
  {
    CentsTextReadable(lang, cents);
    TrimUnchanged(lang, CentsText(cents));
  }

  predicate IsHexDigit(c: char)
  {
    ('0' <= c <= '9') || ('a' <= c <= 'f') || ('A' <= c <= 'F')
  }

  function LowerChar(c: char): char
  {
    if 'A' <= c <= 'Z' then (c as int + 32) as char else c
  }

  /** ASCII lower-casing, as HTTP header names and bson's hex ids use it. */
  function Lower(s: string): (r: string)
    ensures |r| == |s|
    ensures forall k :: 0 <= k < |s| ==> r[k] == LowerChar(s[k])
  {
    seq(|s|, k requires 0 <= k < |s| => LowerChar(s[k]))
  }

  /** Text without capital letters is its own lower-case form. */
  lemma LowerUnchanged(s: string)
    requires forall k :: 0 <= k < |s| ==> !('A' <= s[k] <= 'Z')
    ensures Lower(s) == s
  {
  }
}
