/** The parts of JavaScript's value semantics the catalog code depends on:
    optional properties, truthiness of strings and numbers,
    String.prototype.trim, parseInt, integer-to-string conversion,
    Array.prototype.join and String.prototype.substring. */
module Js {

  /** A property of a JavaScript object or of a stored document: missing (it
      reads as `undefined`), explicitly `null`, or holding a value. */
  datatype Field<+T> = Absent | Null | Val(value: T)

  /** A JavaScript number, restricted to what this code can produce and
      store: integers and NaN. */
  datatype Number = NaN | Int(i: int)

  /** A string property is truthy when it holds a non-empty string. */
  predicate Truthy(f: Field<string>) {
    f.Val? && f.value != ""
  }

  /** `f || null` on an optional string property. */
  function OrNull(f: Field<string>): Field<string> {
    if Truthy(f) then f else Null
  }

  /** A number is truthy unless it is 0 or NaN. */
  predicate TruthyNumber(n: Number) {
    n.Int? && n.i != 0
  }

  /** `n || 0` on a number. */
  function OrZero(n: Number): (r: int)
    ensures TruthyNumber(n) <==> r != 0
    ensures TruthyNumber(n) ==> Int(r) == n
  {
    if TruthyNumber(n) then n.i else 0
  }

  /** `f || 0` on an optional number property. */
  function FieldOrZero(f: Field<Number>): (r: int)
    ensures r != 0 <==> f.Val? && TruthyNumber(f.value)
  {
    if f.Val? then OrZero(f.value) else 0
  }

  // ---------------------------------------------------------------------------
  // Whitespace and trim

  /** ECMAScript WhiteSpace and LineTerminator code points (what `trim` and
      `parseInt` skip). */
  predicate IsWhiteSpace(c: char) {
    c == '\t' || c == '\n' || c == '\U{000B}' || c == '\U{000C}' || c == '\r' || c == ' '
    || c == '\U{00A0}' || c == '\U{1680}' || ('\U{2000}' <= c <= '\U{200A}')
    || c == '\U{2028}' || c == '\U{2029}' || c == '\U{202F}' || c == '\U{205F}'
    || c == '\U{3000}' || c == '\U{FEFF}'
  }

  predicate AllWhiteSpace(s: string) {
    forall i :: 0 <= i < |s| ==> IsWhiteSpace(s[i])
  }

  /** Drops leading whitespace: the result is the suffix of `s` that starts
      at its first non-whitespace character. */
  function TrimStart(s: string): (r: string)
    ensures |r| <= |s| && r == s[|s| - |r|..]
    ensures AllWhiteSpace(s[..|s| - |r|])
    ensures r == [] || !IsWhiteSpace(r[0])
  {
    if s != [] && IsWhiteSpace(s[0]) then
      var r := TrimStart(s[1..]);
      TrimStartStep(s, r);
      r
    else
      s
  }

  /** Drops trailing whitespace: the result is the prefix of `s` that ends at
      its last non-whitespace character. */
  function TrimEnd(s: string): (r: string)
    ensures |r| <= |s| && r == s[..|r|]
    ensures AllWhiteSpace(s[|r|..])
    ensures r == [] || !IsWhiteSpace(r[|r| - 1])
  {
    if s != [] && IsWhiteSpace(s[|s| - 1]) then
      var r := TrimEnd(s[..|s| - 1]);
      TrimEndStep(s, r);
      r
    else
      s
  }

  /** Dropping one more leading white-space character keeps `TrimStart`'s
      postcondition. */
  lemma TrimStartStep(s: string, r: string)
    requires s != [] && IsWhiteSpace(s[0])
    requires |r| <= |s| - 1 && r == s[1..][|s| - 1 - |r|..] && AllWhiteSpace(s[1..][..|s| - 1 - |r|])
    ensures r == s[|s| - |r|..] && AllWhiteSpace(s[..|s| - |r|])
  {
    var w := s[..|s| - |r|];
    forall i | 0 <= i < |w| ensures IsWhiteSpace(w[i]) {
      if i > 0 { assert w[i] == s[1..][..|s| - 1 - |r|][i - 1]; }
    }
  }

  /** Dropping one more trailing white-space character keeps `TrimEnd`'s
      postcondition. */
  lemma TrimEndStep(s: string, r: string)
    requires s != [] && IsWhiteSpace(s[|s| - 1])
    requires |r| <= |s| - 1 && r == s[..|s| - 1][..|r|] && AllWhiteSpace(s[..|s| - 1][|r|..])
    ensures r == s[..|r|] && AllWhiteSpace(s[|r|..])
  {
    var w := s[|r|..];
    forall i | 0 <= i < |w| ensures IsWhiteSpace(w[i]) {
      if i < |w| - 1 { assert w[i] == s[..|s| - 1][|r|..][i]; }
    }
  }

  /** `r` is the part of `s` that starts at offset `k`, with only white space
      before and after it. */
  predicate TrimmedAt(s: string, r: string, k: int) {
    0 <= k <= |s| - |r| && r == s[k..k + |r|] && AllWhiteSpace(s[..k]) && AllWhiteSpace(s[k + |r|..])
  }

  /** `s.trim()`: `s` with leading and trailing whitespace removed. */
  function Trim(s: string): (r: string)
    ensures exists k :: TrimmedAt(s, r, k)
    ensures r == [] || (!IsWhiteSpace(r[0]) && !IsWhiteSpace(r[|r| - 1]))
  {
    var t := TrimStart(s);
    var r := TrimEnd(t);
    TrimParts(s, t, r);
    r
  }

  /** The middle part left by trimming both ends sits at the offset where
      the leading white space ends. */
  lemma TrimParts(s: string, t: string, r: string)
    requires |t| <= |s| && t == s[|s| - |t|..] && AllWhiteSpace(s[..|s| - |t|])
    requires t == [] || !IsWhiteSpace(t[0])
    requires |r| <= |t| && r == t[..|r|] && AllWhiteSpace(t[|r|..])
    requires r == [] || !IsWhiteSpace(r[|r| - 1])
    ensures TrimmedAt(s, r, |s| - |t|)
    ensures r == [] || (!IsWhiteSpace(r[0]) && !IsWhiteSpace(r[|r| - 1]))
  {
    var k := |s| - |t|;
    assert s[k + |r|..] == t[|r|..];
    assert r == s[k..k + |r|];
    if r != [] { assert r[0] == t[0]; }
  }

  /** `s.trim()` is empty exactly when `s` is all whitespace: this is the
      test behind every "please enter ..." check on a text field. */
  lemma {:induction false} TrimEmptyIff(s: string)
    ensures Trim(s) == [] <==> AllWhiteSpace(s)
  {
    var t := TrimStart(s);
    var r := TrimEnd(t);
    var k := |s| - |t|;
    assert Trim(s) == r;
    if r == [] {
      assert t[|r|..] == t;
      assert t == [];
      forall i | 0 <= i < |s| ensures IsWhiteSpace(s[i]) {
        assert s[..k][i] == s[i];
      }
    } else {
      assert r[0] == t[0] && t[0] == s[k];
    }
  }

  /** Trimming twice is the same as trimming once. */
  lemma {:induction false} TrimIdempotent(s: string)
    ensures Trim(Trim(s)) == Trim(s)
  {
    var r := Trim(s);
    assert TrimStart(r) == r;
    assert TrimEnd(r) == r;
  }

  // ---------------------------------------------------------------------------
  // Numbers and their decimal text

  /** A digit in the given radix (10 or 16). */
  predicate IsDigit(c: char, radix: nat) {
    ('0' <= c <= '9' && (c as int) - ('0' as int) < radix)
    || (radix == 16 && (('a' <= c <= 'f') || ('A' <= c <= 'F')))
  }

  function DigitValue(c: char): (v: nat)
    requires IsDigit(c, 16)
    ensures v < 16
    ensures IsDigit(c, 10) ==> v < 10
  {
    if '0' <= c <= '9' then (c as int) - ('0' as int)
    else if 'a' <= c <= 'f' then (c as int) - ('a' as int) + 10
    else (c as int) - ('A' as int) + 10
  }

  predicate AllDigits(s: string, radix: nat) {
    forall i :: 0 <= i < |s| ==> IsDigit(s[i], radix)
  }

  /** The longest prefix of `s` made of digits. */
  function DigitPrefix(s: string, radix: nat): (z: string)
    ensures |z| <= |s| && z == s[..|z|]
    ensures AllDigits(z, radix)
    ensures |z| == |s| || !IsDigit(s[|z|], radix)
  {
    if s != [] && IsDigit(s[0], radix) then [s[0]] + DigitPrefix(s[1..], radix) else []
  }

  /** The value of a digit string, most significant digit first. */
  function DigitsValue(z: string, radix: nat): nat
    requires radix == 10 || radix == 16
    requires AllDigits(z, radix)
  {
    if z == [] then 0 else DigitsValue(z[..|z| - 1], radix) * radix + DigitValue(z[|z| - 1])
  }

  function DigitChar(d: nat): (c: char)
    requires d < 10
    ensures IsDigit(c, 10) && DigitValue(c) == d
  {
    (('0' as int) + d) as char
  }

  /** The decimal text of a natural number, with no leading zeros. */
  function NatToString(n: nat): (r: string)
    ensures r != [] && AllDigits(r, 10)
    ensures DigitsValue(r, 10) == n
  {
    if n < 10 then
      [DigitChar(n)]
    else
      var p := NatToString(n / 10);
      var r := p + [DigitChar(n % 10)];
      assert r[..|r| - 1] == p;
      r
  }

  /** `${n}` for an integer-valued number: its decimal text, with a leading
      minus sign when it is negative. */
  function IntToString(n: int): (r: string)
    ensures r != [] && (r[0] == '-' || IsDigit(r[0], 10))
    ensures forall i :: 0 <= i < |r| ==> r[i] != '_' && !IsWhiteSpace(r[i])
  {
    if n < 0 then "-" + NatToString(-n) else NatToString(n)
  }

  /** `parseInt(s)` with no radix argument: skip leading whitespace, read an
      optional sign, a `0x`/`0X` prefix selects radix 16, then take the
      longest run of digits; no digits gives NaN. */
  function ParseInt(s: string): Number {
    ParseSigned(TrimStart(s))
  }

  function ParseSigned(t: string): Number {
    if t != [] && t[0] == '-' then Negate(ParseUnsigned(t[1..]))
    else if t != [] && t[0] == '+' then ParseUnsigned(t[1..])
    else ParseUnsigned(t)
  }

  function ParseUnsigned(u: string): Number {
    if |u| >= 2 && u[0] == '0' && (u[1] == 'x' || u[1] == 'X') then LeadingDigits(u[2..], 16)
    else LeadingDigits(u, 10)
  }

  function LeadingDigits(u: string, radix: nat): Number
    requires radix == 10 || radix == 16
  {
    var z := DigitPrefix(u, radix);
    if z == [] then NaN else Int(DigitsValue(z, radix))
  }

  function Negate(n: Number): Number {
    if n.NaN? then NaN else Int(0 - n.i)
  }

  lemma DigitPrefixOfDigits(s: string)
    requires AllDigits(s, 10)
    ensures DigitPrefix(s, 10) == s
  {
  }

  lemma TrimStartOfNonSpace(s: string)
    requires s != [] && !IsWhiteSpace(s[0])
    ensures TrimStart(s) == s
  {
  }

  lemma DigitNotSpace(c: char)
    requires IsDigit(c, 10)
    ensures !IsWhiteSpace(c) && c != '-' && c != '+' && c != 'x' && c != 'X'
  {
  }

  lemma ParseUnsignedOfDigits(d: string)
    requires d != [] && AllDigits(d, 10)
    ensures ParseUnsigned(d) == Int(DigitsValue(d, 10))
  {
    if |d| >= 2 { DigitNotSpace(d[1]); }
    DigitPrefixOfDigits(d);
  }

  /** `parseInt` of text that starts with neither white space nor a sign
      reads it unsigned. */
  lemma ParseIntOfUnsigned(t: string, v: Number)
    requires t != [] && !IsWhiteSpace(t[0]) && t[0] != '-' && t[0] != '+'
    requires ParseUnsigned(t) == v
    ensures ParseInt(t) == v
  {
    TrimStartOfNonSpace(t);
  }

  /** `parseInt` of a minus sign followed by `t` negates what it reads in `t`. */
  lemma ParseIntOfMinus(t: string, v: int)
    requires ParseUnsigned(t) == Int(v)
    ensures ParseInt("-" + t) == Int(0 - v)
  {
    var s := "-" + t;
    assert s[0] == '-' && s[1..] == t;
    TrimStartOfNonSpace(s);
  }

  /** Reading back the text of an integer gives the integer: `parseInt`
      inverts `${n}`. */
  lemma {:induction false} ParseIntOfIntToString(n: int)
    ensures ParseInt(IntToString(n)) == Int(n)
  {
    if n < 0 {
      var d := NatToString(-n);
      ParseUnsignedOfDigits(d);
      ParseIntOfMinus(d, -n);
    } else {
      var d := NatToString(n);
      ParseUnsignedOfDigits(d);
      DigitNotSpace(d[0]);
      ParseIntOfUnsigned(d, Int(n));
    }
  }

  /** Text in which `parseInt` finds no number: empty, or starting with a
      character that is neither white space, a sign nor a digit. */
  predicate StartsWithoutNumber(s: string) {
    s == [] || (!IsWhiteSpace(s[0]) && !IsDigit(s[0], 10) && s[0] != '-' && s[0] != '+')
  }

  lemma ParseIntOfEmpty()
    ensures ParseInt("") == NaN
  {
  }

  lemma ParseIntOfNonDigitStart(s: string)
    requires s != [] && !IsWhiteSpace(s[0]) && !IsDigit(s[0], 10) && s[0] != '-' && s[0] != '+'
    ensures ParseInt(s) == NaN
  {
    assert TrimStart(s) == s;
  }

  /** `parseInt` of text that does not start with a number is NaN. */
  lemma ParseIntOfNonNumber(s: string)
    requires StartsWithoutNumber(s)
    ensures ParseInt(s) == NaN
  {
    if s == [] { ParseIntOfEmpty(); } else { ParseIntOfNonDigitStart(s); }
  }

  /** Two integers with the same text are equal. */
  lemma IntToStringInjective(a: int, b: int)
    requires IntToString(a) == IntToString(b)
    ensures a == b
  {
    ParseIntOfIntToString(a);
    ParseIntOfIntToString(b);
  }

  // ---------------------------------------------------------------------------
  // Strings and arrays

  /** `xs.join(sep)`. */
  function Join(xs: seq<string>, sep: string): (r: string)
    ensures (forall i :: 0 <= i < |xs| ==> xs[i] != "") ==> (r == "" <==> xs == [])
  {
    if xs == [] then ""
    else if |xs| == 1 then xs[0]
    else xs[0] + sep + Join(xs[1..], sep)
  }

  function Clamp(x: int, len: nat): (r: nat)
    ensures r <= len
  {
    if x < 0 then 0 else if x > len then len else x
  }

  /** `s.substring(start, end)`: both bounds are clamped to the string and
      swapped when out of order. */
  function Substring(s: string, start: int, end: int): string {
    var a := Clamp(start, |s|);
    var b := Clamp(end, |s|);
    if a <= b then s[a..b] else s[b..a]
  }
}
