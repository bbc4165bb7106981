/** The parts of JavaScript's value semantics that the vendor app's screens
    rely on: truthiness (`||`, `filter(Boolean)`, `!x`), `String(x)` and
    template literals, `Number(x)`, and the string helpers `startsWith`,
    `includes`, `trim`, `toLowerCase`, `join` and `replace(/[^0-9]/g, '')`. */
module Js {

  datatype Option<+T> = None | Some(value: T) {
    function GetOr(default: T): T {
      match this
      case Some(v) => v
      case None => default
    }
  }

  /** A scalar JavaScript value as it arrives in a backend record. Numbers
      are integers here: the records carry codes, ids and counts. */
  datatype JsValue = Undefined | Null | Bool(b: bool) | Num(n: int) | NaN | Str(s: string)

  /** The result of `Number(x)`. */
  datatype JsNumber = Finite(r: real) | NotANumber

  /** `Boolean(v)`. */
  predicate Truthy(v: JsValue) {
    match v
    case Undefined => false
    case Null => false
    case Bool(b) => b
    case Num(n) => n != 0
    case NaN => false
    case Str(s) => s != ""
  }

  /** `a || b` */
  function Or(a: JsValue, b: JsValue): JsValue {
    if Truthy(a) then a else b
  }

  /** `a ?? b` */
  function Coalesce(a: JsValue, b: JsValue): JsValue {
    if a.Undefined? || a.Null? then b else a
  }

  /* ---------------- decimal digits ---------------- */

  predicate IsDigit(c: char) {
    '0' <= c <= '9'
  }

  predicate AllDigits(s: string) {
    forall i :: 0 <= i < |s| ==> IsDigit(s[i])
  }

  function DigitChar(d: nat): (c: char)
    requires d < 10
    ensures IsDigit(c)
  {
    ('0' as int + d) as char
  }

  function DigitValue(c: char): (d: nat)
    requires IsDigit(c)
    ensures d < 10 && DigitChar(d) == c
  {
    c as int - '0' as int
  }

  /** The decimal rendering of a natural number, most significant digit first. */
  function NatToDecimal(n: nat): (r: string)
    ensures |r| >= 1 && AllDigits(r)
    ensures |r| == 1 <==> n < 10
  {
    if n < 10 then [DigitChar(n)] else NatToDecimal(n / 10) + [DigitChar(n % 10)]
  }

  /** The value of a string of decimal digits, read most significant first. */
  function DigitsValue(s: string): nat
    requires AllDigits(s)
  {
    if s == [] then 0 else DigitsValue(s[..|s| - 1]) * 10 + DigitValue(s[|s| - 1])
  }

  lemma {:induction false} DecimalRoundTrip(n: nat)
    ensures DigitsValue(NatToDecimal(n)) == n
  {
    if n >= 10 {
      var s := NatToDecimal(n / 10);
      var r := s + [DigitChar(n % 10)];
      assert r[..|r| - 1] == s;
      DecimalRoundTrip(n / 10);
    }
  }

  /** `String(n)` for an integer. */
  function IntToDecimal(n: int): (r: string)
    ensures r != ""
  {
    if n < 0 then "-" + NatToDecimal(-n) else NatToDecimal(n)
  }

  /** A number renders as a single digit exactly when it is that digit. */
  lemma SingleDigitRendering(n: int, d: nat)
    requires d < 10
    ensures IntToDecimal(n) == [DigitChar(d)] <==> n == d
  {
    if n < 0 {
      assert |IntToDecimal(n)| >= 2;
    } else if n >= 10 {
      assert |NatToDecimal(n)| != 1;
    } else {
      assert IntToDecimal(n) == [DigitChar(n)];
      if n != d {
        assert DigitValue(DigitChar(n)) == n;
        assert DigitValue(DigitChar(d)) == d;
      }
    }
  }

  /** `String(v)`, also what a template literal `${v}` and `join` produce. */
  function ToJsString(v: JsValue): string {
    match v
    case Undefined => "undefined"
    case Null => "null"
    case Bool(b) => if b then "true" else "false"
    case Num(n) => IntToDecimal(n)
    case NaN => "NaN"
    case Str(s) => s
  }

  /** `String(v) === "d"` holds for exactly the number d and the one-character string "d". */
  lemma ToJsStringIsDigit(v: JsValue, d: nat)
    requires d < 10
    ensures ToJsString(v) == [DigitChar(d)] <==> v == Num(d) || v == Str([DigitChar(d)])
  {
    match v
    case Num(n) => SingleDigitRendering(n, d);
    case Bool(b) => assert |ToJsString(v)| >= 4;
    case Undefined => assert |ToJsString(v)| > 1;
    case Null => assert |ToJsString(v)| > 1;
    case NaN => assert |ToJsString(v)| > 1;
    case Str(s) =>
  }

  /** A truthy value never renders as the empty string. */
  lemma TruthyRendersNonEmpty(v: JsValue)
    requires Truthy(v)
    ensures ToJsString(v) != ""
  {
  }

  /* ---------------- Number() ---------------- */

  /** `Number(s)` for a string: surrounding whitespace is ignored, the empty
      string is 0, otherwise an optional sign and a decimal literal with at most
      one point and at least one digit; anything else is NaN. */
  function ParseNumber(s: string): JsNumber {
    var t := Trim(s);
    if t == "" then Finite(0.0)
    else if t[0] == '-' then Negate(ParseUnsigned(t[1..]))
    else if t[0] == '+' then ParseUnsigned(t[1..])
    else ParseUnsigned(t)
  }

  function Negate(x: JsNumber): JsNumber {
    match x
    case Finite(r) => Finite(-r)
    case NotANumber => NotANumber
  }

  /** The number of leading decimal digits of `u`. */
  function LeadingDigits(u: string): (k: nat)
    ensures k <= |u| && AllDigits(u[..k])
    ensures k < |u| ==> !IsDigit(u[k])
  {
    if u == [] || !IsDigit(u[0]) then 0
    else
      var k := 1 + LeadingDigits(u[1..]);
      assert u[..k] == [u[0]] + u[1..][..k - 1];
      k
  }

  /** The positive integers, so that a power of ten can divide. */
  type Positive = n: nat | n >= 1 witness 1

  function Pow10(k: nat): Positive {
    if k == 0 then 1 else 10 * Pow10(k - 1)
  }

  function ParseUnsigned(u: string): JsNumber {
    var k := LeadingDigits(u);
    if k == |u| then
      (if k == 0 then NotANumber else Finite(DigitsValue(u) as real))
    else if u[k] == '.' && AllDigits(u[k + 1..]) && (k > 0 || k + 1 < |u|) then
      var f := u[k + 1..];
      Finite(DigitsValue(u[..k]) as real + DigitsValue(f) as real / Pow10(|f|) as real)
    else NotANumber
  }

  /** `Number(v)`. */
  function ToNumber(v: JsValue): JsNumber {
    match v
    case Undefined => NotANumber
    case Null => Finite(0.0)
    case Bool(b) => Finite(if b then 1.0 else 0.0)
    case Num(n) => Finite(n as real)
    case NaN => NotANumber
    case Str(s) => ParseNumber(s)
  }

  /** `x <= 0` after conversion to a number: false for NaN. */
  predicate AtMostZero(x: JsNumber) {
    x.Finite? && x.r <= 0.0
  }

  /** `x > y` on numbers: false when either side is NaN. */
  predicate Greater(x: JsNumber, y: JsNumber) {
    x.Finite? && y.Finite? && x.r > y.r
  }

  /** Without surrounding white space or a sign, `Number` reads the
      string as an unsigned literal. */
  lemma UnsignedParse(s: string)
    requires s != [] && !IsJsWhitespace(s[0]) && !IsJsWhitespace(s[|s| - 1])
    requires s[0] != '-' && s[0] != '+'
    ensures ParseNumber(s) == ParseUnsigned(s)
  {
    NoWhitespaceTrim(s);
  }

  /** A literal whose leading digits are followed by anything but a point
      and digits is not a number. */
  lemma StrayCharacterIsNaN(u: string, k: nat)
    requires k == LeadingDigits(u) && k < |u|
    requires u[k] != '.' || (k + 1 < |u| && !IsDigit(u[k + 1]))
    ensures ParseUnsigned(u) == NotANumber
  {
    if u[k] == '.' {
      assert u[k + 1..][0] == u[k + 1];
    }
  }

  /** Trimming keeps a first character that is not white space. */
  lemma TrimKeepsFirst(s: string)
    requires s != [] && !IsJsWhitespace(s[0])
    ensures Trim(s) != [] && Trim(s)[0] == s[0]
  {
    assert TrimStart(s) == s;
  }

  /** A string that opens with a letter is not a number. */
  lemma LetterIsNaN(s: string)
    requires s != [] && ('a' <= s[0] <= 'z' || 'A' <= s[0] <= 'Z')
    ensures ParseNumber(s) == NotANumber
  {
    TrimKeepsFirst(s);
    var t := Trim(s);
    assert !IsDigit(t[0]) && t[0] != '-' && t[0] != '+' && t[0] != '.';
    StrayCharacterIsNaN(t, 0);
  }

  /** Every falsy value but `undefined` and NaN converts to 0, and so does
      text made of white space alone. */
  lemma FalsyToNumber(v: JsValue)
    ensures !Truthy(v) && !v.Undefined? && !v.NaN? ==> ToNumber(v) == Finite(0.0)
    ensures v.Str? && AllWhitespace(v.s) ==> ToNumber(v) == Finite(0.0)
  {
    if v.Str? && AllWhitespace(v.s) {
      WhitespaceTrimsToEmpty(v.s);
    }
  }

  /** Reading a rendered natural number as an unsigned literal gives it back. */
  lemma NatParse(m: nat)
    ensures ParseUnsigned(NatToDecimal(m)) == Finite(m as real)
  {
    var d := NatToDecimal(m);
    LeadingDigitsOfDigits(d);
    DecimalRoundTrip(m);
  }

  /** Parsing what `String(n)` printed gives back n. */
  lemma ParseNumberRoundTrip(n: int)
    ensures ParseNumber(IntToDecimal(n)) == Finite(n as real)
  {
    var t := IntToDecimal(n);
    var m: nat := if n < 0 then -n else n;
    var d := NatToDecimal(m);
    NoWhitespaceTrim(t);
    NatParse(m);
    if n < 0 {
      assert t[1..] == d;
    } else {
      assert t == d && IsDigit(t[0]);
    }
  }

  lemma {:induction false} LeadingDigitsOfDigits(u: string)
    requires AllDigits(u)
    ensures LeadingDigits(u) == |u|
  {
    if u != [] {
      LeadingDigitsOfDigits(u[1..]);
    }
  }

  /* ---------------- whitespace and trim ---------------- */

  /** The characters `String.prototype.trim` removes: white space and line terminators. */
  predicate IsJsWhitespace(c: char) {
    || c == ' ' || c == '\t' || c == '\n' || c == '\r' || c == '\U{B}' || c == '\U{C}'
    || c == '\U{A0}' || c == '\U{1680}' || ('\U{2000}' <= c <= '\U{200A}')
    || c == '\U{2028}' || c == '\U{2029}' || c == '\U{202F}' || c == '\U{205F}'
    || c == '\U{3000}' || c == '\U{FEFF}'
  }

  predicate AllWhitespace(s: string) {
    forall i :: 0 <= i < |s| ==> IsJsWhitespace(s[i])
  }

  /** `s` with its leading white space removed. */
  function TrimStart(s: string): (r: string)
    ensures |r| <= |s| && r == s[|s| - |r|..]
    ensures forall i :: 0 <= i < |s| - |r| ==> IsJsWhitespace(s[i])
    ensures r == [] || !IsJsWhitespace(r[0])
  {
    if s != [] && IsJsWhitespace(s[0]) then
      var r := TrimStart(s[1..]);
      assert forall i :: 1 <= i < |s| - |r| ==> s[i] == s[1..][i - 1];
      r
    else s
  }

  /** `s` with its trailing white space removed. */
  function TrimEnd(s: string): (r: string)
    ensures |r| <= |s| && r == s[..|r|]
    ensures forall i :: |r| <= i < |s| ==> IsJsWhitespace(s[i])
    ensures r == [] || !IsJsWhitespace(r[|r| - 1])
  {
    if s != [] && IsJsWhitespace(s[|s| - 1]) then
      var r := TrimEnd(s[..|s| - 1]);
      assert forall i :: |r| <= i < |s| - 1 ==> s[i] == s[..|s| - 1][i];
      r
    else s
  }

  /** `s.trim()`: the part of `s` between its leading and trailing white space. */
  function Trim(s: string): (r: string)
    ensures |r| <= |s|
    ensures r == [] || (!IsJsWhitespace(r[0]) && !IsJsWhitespace(r[|r| - 1]))
  {
    TrimEnd(TrimStart(s))
  }

  /** `r` sits in `s` at `i` with only white space before and after it. */
  predicate PaddedAt(s: string, r: string, i: int) {
    0 <= i <= |s| - |r| && s[i..i + |r|] == r && AllWhitespace(s[..i]) && AllWhitespace(s[i + |r|..])
  }

  /** The white space `TrimStart` drops from `s` is its prefix. */
  lemma TrimStartPadding(s: string)
    ensures AllWhitespace(s[..|s| - |TrimStart(s)|])
  {
    var before := s[..|s| - |TrimStart(s)|];
    forall j | 0 <= j < |before| ensures IsJsWhitespace(before[j]) {
      assert before[j] == s[j];
    }
  }

  /** The white space `TrimEnd` drops from `a` is its suffix. */
  lemma TrimEndPadding(a: string)
    ensures AllWhitespace(a[|TrimEnd(a)|..])
  {
    var after := a[|TrimEnd(a)|..];
    forall j | 0 <= j < |after| ensures IsJsWhitespace(after[j]) {
      assert after[j] == a[|TrimEnd(a)| + j];
    }
  }

  /** What `trim()` removes is white space at the two ends: the result is the
      part of `s` between them. */
  lemma TrimIsInfix(s: string)
    ensures exists i :: PaddedAt(s, Trim(s), i)
  {
    var a := TrimStart(s);
    var r := TrimEnd(a);
    var i := |s| - |a|;
    TrimStartPadding(s);
    TrimEndPadding(a);
    assert a == s[i..];
    assert s[i..i + |r|] == a[..|r|] == r;
    assert s[i + |r|..] == a[|r|..];
    assert r == Trim(s) && PaddedAt(s, r, i);
  }

  /** A string that neither starts nor ends with white space is its own trim. */
  lemma NoWhitespaceTrim(s: string)
    requires s == [] || (!IsJsWhitespace(s[0]) && !IsJsWhitespace(s[|s| - 1]))
    ensures Trim(s) == s
  {
  }

  /** Trimming twice is trimming once. */
  lemma TrimIdempotent(s: string)
    ensures Trim(Trim(s)) == Trim(s)
  {
    NoWhitespaceTrim(Trim(s));
  }

  /** A string made of white space alone trims to the empty string. */
  lemma {:induction false} WhitespaceTrimsToEmpty(s: string)
    requires AllWhitespace(s)
    ensures Trim(s) == ""
  {
    if s != [] {
      WhitespaceTrimsToEmpty(s[1..]);
      assert TrimStart(s) == TrimStart(s[1..]);
    }
  }

  /* ---------------- other string helpers ---------------- */

  /** `s.startsWith(p)` */
  predicate StartsWith(s: string, p: string) {
    |p| <= |s| && s[..|p|] == p
  }

  /** `s.includes(q)` */
  predicate Contains(s: string, q: string) {
    exists i :: 0 <= i <= |s| - |q| && OccursAt(s, q, i)
  }

  predicate OccursAt(s: string, q: string, i: int) {
    0 <= i <= |s| - |q| && s[i..i + |q|] == q
  }

  /** When character k of `q` is missing from `s` after position k, `s`
      cannot contain `q`. */
  lemma MissingCharacterNotContained(s: string, q: string, k: nat)
    requires k < |q| <= |s| && q[k] !in s[k..]
    ensures !Contains(s, q)
  {
    forall i | 0 <= i <= |s| - |q| ensures !OccursAt(s, q, i) {
      assert s[i..i + |q|][k] == s[k..][i];
    }
  }

  /** `toLowerCase` on one character (letters A to Z). */
  function LowerChar(c: char): char {
    if 'A' <= c <= 'Z' then (c as int - 'A' as int + 'a' as int) as char else c
  }

  /** Lower-casing neither makes nor removes white space. */
  lemma LowerCharWhitespace(c: char)
    ensures IsJsWhitespace(LowerChar(c)) <==> IsJsWhitespace(c)
  {
  }

  /** `s.toLowerCase()`, for the letters A to Z. */
  function ToLower(s: string): (r: string)
    ensures |r| == |s| && forall i :: 0 <= i < |s| ==> r[i] == LowerChar(s[i])
  {
    if s == [] then [] else [LowerChar(s[0])] + ToLower(s[1..])
  }

  lemma ToLowerIdempotent(s: string)
    ensures ToLower(ToLower(s)) == ToLower(s)
  {
  }

  /** `s.replace(/[^0-9]/g, '')`: the decimal digits of `s`, in order. */
  function DigitsOnly(s: string): (r: string)
    ensures AllDigits(r) && |r| <= |s|
  {
    if s == [] then []
    else (if IsDigit(s[0]) then [s[0]] else []) + DigitsOnly(s[1..])
  }

  /** The filter keeps each digit as often as it occurs, and no other character. */
  lemma {:induction false} DigitsOnlyCount(s: string, c: char)
    ensures multiset(DigitsOnly(s))[c] == if IsDigit(c) then multiset(s)[c] else 0
  {
    if s != [] {
      DigitsOnlyCount(s[1..], c);
      assert s == [s[0]] + s[1..];
    }
  }

  /** The digit filter distributes over concatenation, so it keeps the digits' order. */
  lemma {:induction false} DigitsOnlyAppend(a: string, b: string)
    ensures DigitsOnly(a + b) == DigitsOnly(a) + DigitsOnly(b)
  {
    if a == [] {
      assert a + b == b;
    } else {
      var ab := a + b;
      assert ab[0] == a[0] && ab[1..] == a[1..] + b;
      DigitsOnlyAppend(a[1..], b);
      var head := if IsDigit(a[0]) then [a[0]] else [];
      calc {
        DigitsOnly(ab);
        head + DigitsOnly(ab[1..]);
        head + (DigitsOnly(a[1..]) + DigitsOnly(b));
        (head + DigitsOnly(a[1..])) + DigitsOnly(b);
        DigitsOnly(a) + DigitsOnly(b);
      }
    }
  }

  /** A string of digits passes through the filter unchanged. */
  lemma {:induction false} DigitsOnlyKeepsDigits(s: string)
    requires AllDigits(s)
    ensures DigitsOnly(s) == s
  {
    if s != [] {
      DigitsOnlyKeepsDigits(s[1..]);
    }
  }

  /** `parts.join(sep)` */
  function Join(parts: seq<string>, sep: string): string {
    if |parts| == 0 then ""
    else if |parts| == 1 then parts[0]
    else parts[0] + sep + Join(parts[1..], sep)
  }

  /** Joining non-empty parts gives the empty string only when there are no
      parts; the result starts with the first part and ends with the last. */
  lemma {:induction false} JoinNonEmptyParts(parts: seq<string>, sep: string)
    requires forall i :: 0 <= i < |parts| ==> parts[i] != ""
    ensures Join(parts, sep) == "" <==> |parts| == 0
    ensures |parts| > 0 ==> StartsWith(Join(parts, sep), parts[0])
    ensures |parts| > 0 ==> EndsWith(Join(parts, sep), parts[|parts| - 1])
  {
    if |parts| >= 2 {
      JoinNonEmptyParts(parts[1..], sep);
      var rest := Join(parts[1..], sep);
      var r := parts[0] + sep + rest;
      assert r[..|parts[0]|] == parts[0];
      assert r[|r| - |rest|..] == rest;
      var last := parts[|parts| - 1];
      assert rest[|rest| - |last|..] == last;
      assert r[|r| - |last|..] == rest[|rest| - |last|..];
    }
  }

  predicate EndsWith(s: string, p: string) {
    |p| <= |s| && s[|s| - |p|..] == p
  }

  /** A suffix of `b` is a suffix of `a + b`. */
  lemma EndsWithAppend(a: string, b: string, p: string)
    requires EndsWith(b, p)
    ensures EndsWith(a + b, p)
  {
    assert (a + b)[|a + b| - |p|..] == b[|b| - |p|..];
  }

  /** `values.filter(Boolean)` */
  function TruthyValues(vs: seq<JsValue>): (r: seq<JsValue>)
    ensures forall i :: 0 <= i < |r| ==> Truthy(r[i])
    ensures forall v :: v in r ==> v in vs
    ensures forall i :: 0 <= i < |vs| && Truthy(vs[i]) ==> vs[i] in r
  {
    if vs == [] then []
    else
      (if Truthy(vs[0]) then [vs[0]] else []) + TruthyValues(vs[1..])
  }

  /** `values.map(String)` */
  function Rendered(vs: seq<JsValue>): (r: seq<string>)
    ensures |r| == |vs| && forall i :: 0 <= i < |vs| ==> r[i] == ToJsString(vs[i])
  {
    if vs == [] then [] else [ToJsString(vs[0])] + Rendered(vs[1..])
  }
}
