/**
 * The few JavaScript string and number primitives the application relies on:
 * `parseInt` without a radix, `toLowerCase`, `includes`, `slice` and the
 * rendering of an integral number as text, and the truthiness of an
 * optional string. Strings are Dafny strings, sequences of Unicode scalar
 * values; JavaScript counts UTF-16 code units instead, which differs only
 * for characters outside the Basic Multilingual Plane.
 */
module JsString {
  import opened Wrappers

  // ---------------------------------------------------------------------------
  // Whitespace, as `parseInt` strips it (ECMAScript WhiteSpace and LineTerminator)
  // ---------------------------------------------------------------------------

  predicate IsWhiteSpace(c: char) {
    || c == '\t' || c == '\U{B}' || c == '\U{C}' || c == ' ' || c == '\U{A0}' || c == '\U{FEFF}'
    || c == '\U{1680}' || ('\U{2000}' <= c <= '\U{200A}') || c == '\U{202F}' || c == '\U{205F}'
    || c == '\U{3000}' || c == '\n' || c == '\r' || c == '\U{2028}' || c == '\U{2029}'
  }

  /** The string without its leading whitespace. */
  function TrimStart(s: string): (r: string)
    ensures |r| <= |s|
    ensures r == [] || !IsWhiteSpace(r[0])
  {
    if s != [] && IsWhiteSpace(s[0]) then TrimStart(s[1..]) else s
  }

  lemma {:induction false} TrimStartSkipsWhiteSpace(w: string, s: string)
    requires forall i :: 0 <= i < |w| ==> IsWhiteSpace(w[i])
    ensures TrimStart(w + s) == TrimStart(s)
  {
    if w != [] {
      assert (w + s)[0] == w[0] && (w + s)[1..] == w[1..] + s;
      TrimStartSkipsWhiteSpace(w[1..], s);
    } else {
      assert w + s == s;
    }
  }

  // ---------------------------------------------------------------------------
  // Digits
  // ---------------------------------------------------------------------------

  /** The value of an ASCII letter or digit as a digit in radix 36; 36 for any other character. */
  function DigitValue(c: char): (d: nat)
    ensures d <= 36
  {
    if '0' <= c <= '9' then c as int - '0' as int
    else if 'a' <= c <= 'z' then c as int - 'a' as int + 10
    else if 'A' <= c <= 'Z' then c as int - 'A' as int + 10
    else 36
  }

  predicate IsDigit(c: char, radix: nat) {
    DigitValue(c) < radix
  }

  /** The longest prefix of `s` made of digits of the given radix. */
  function DigitRun(s: string, radix: nat): (r: string)
    ensures |r| <= |s| && r == s[..|r|]
    ensures forall i :: 0 <= i < |r| ==> IsDigit(r[i], radix)
    ensures |r| < |s| ==> !IsDigit(s[|r|], radix)
  {
    if s != [] && IsDigit(s[0], radix) then [s[0]] + DigitRun(s[1..], radix) else []
  }

  /** The number a string of digits denotes in the given radix (most significant digit first). */
  function DigitsValue(ds: string, radix: nat): nat
  {
    if ds == [] then 0
    else DigitsValue(ds[..|ds| - 1], radix) * radix + DigitValue(ds[|ds| - 1])
  }

  function DigitChar(d: nat): (c: char)
    requires d < 10
    ensures IsDigit(c, 10) && DigitValue(c) == d
  {
    ('0' as int + d) as char
  }

  /** The decimal numeral of a natural number, without leading zeros. */
  function DecimalString(n: nat): (r: string)
    ensures |r| >= 1
    ensures forall i :: 0 <= i < |r| ==> IsDigit(r[i], 10)
    ensures n > 0 ==> r[0] != '0'
  {
    if n < 10 then [DigitChar(n)] else DecimalString(n / 10) + [DigitChar(n % 10)]
  }

  /** How JavaScript renders an integral number as a string (no exponent form below 1e21). */
  function IntToString(n: int): string {
    if n < 0 then "-" + DecimalString(-n) else DecimalString(n)
  }

  lemma {:induction false} DecimalStringValue(n: nat)
    ensures DigitsValue(DecimalString(n), 10) == n
  {
    var r := DecimalString(n);
    if n >= 10 {
      DecimalStringValue(n / 10);
      assert r[..|r| - 1] == DecimalString(n / 10);
    }
  }

  lemma {:induction false} DigitRunOfDigits(ds: string, rest: string, radix: nat)
    requires forall i :: 0 <= i < |ds| ==> IsDigit(ds[i], radix)
    requires rest == [] || !IsDigit(rest[0], radix)
    ensures DigitRun(ds + rest, radix) == ds
  {
    if ds != [] {
      assert (ds + rest)[1..] == ds[1..] + rest;
      DigitRunOfDigits(ds[1..], rest, radix);
    }
  }

  // ---------------------------------------------------------------------------
  // parseInt(s) with no radix argument
  // ---------------------------------------------------------------------------

  /**
   * The unsigned part of `parseInt`: a `0x`/`0X` prefix selects radix 16
   * (radix 10 otherwise) and the longest run of digits that follows is read;
   * no digits at all gives NaN (`None`).
   */
  function ParseUnsigned(u: string): (r: Option<nat>)
  {
    var hex := |u| >= 2 && u[0] == '0' && (u[1] == 'x' || u[1] == 'X');
    var radix := if hex then 16 else 10;
    var digits := DigitRun(if hex then u[2..] else u, radix);
    if digits == [] then None else Some(DigitsValue(digits, radix))
  }

  /** The signed part of `parseInt`: at most one sign, then an unsigned numeral. */
  function ParseSigned(t: string): (r: Option<int>)
  {
    if t != [] && t[0] == '-' then
      match ParseUnsigned(t[1..]) { case None => None case Some(v) => Some(0 - v) }
    else if t != [] && t[0] == '+' then
      match ParseUnsigned(t[1..]) { case None => None case Some(v) => Some(v) }
    else
      match ParseUnsigned(t) { case None => None case Some(v) => Some(v) }
  }

  /** `parseInt(s)` with no radix: leading whitespace is skipped and one sign is accepted. */
  function ParseInt(s: string): (r: Option<int>)
  {
    ParseSigned(TrimStart(s))
  }

  lemma ParseUnsignedReadsNumeral(m: nat, rest: string)
    requires rest == [] || !IsDigit(rest[0], 10)
    requires m == 0 && rest != [] ==> rest[0] != 'x' && rest[0] != 'X'
    ensures ParseUnsigned(DecimalString(m) + rest) == Some(m)
  {
    var ds := DecimalString(m);
    DigitRunOfDigits(ds, rest, 10);
    DecimalStringValue(m);
    var u := ds + rest;
    assert u[0] == ds[0];
    if |ds| == 1 {
      assert m < 10;
      assert |u| >= 2 ==> u[1] == rest[0];
    } else {
      assert u[1] == ds[1];
    }
  }

  lemma ParseSignedNegative(u: string, v: nat)
    requires ParseUnsigned(u) == Some(v)
    ensures ParseSigned("-" + u) == Some(0 - v)
  {
    assert ("-" + u)[1..] == u;
  }

  lemma ParseSignedUnsigned(u: string, v: nat)
    requires u != [] && IsDigit(u[0], 10)
    requires ParseUnsigned(u) == Some(v)
    ensures ParseSigned(u) == Some(v)
  {
  }

  lemma ParseSignedReadsNumeral(n: int, rest: string)
    requires rest == [] || !IsDigit(rest[0], 10)
    requires n == 0 && rest != [] ==> rest[0] != 'x' && rest[0] != 'X'
    ensures ParseSigned(IntToString(n) + rest) == Some(n)
  {
    var m: nat := if n < 0 then -n else n;
    var u := DecimalString(m) + rest;
    ParseUnsignedReadsNumeral(m, rest);
    if n < 0 {
      ParseSignedNegative(u, m);
      assert IntToString(n) + rest == "-" + u;
    } else {
      assert u[0] == DecimalString(m)[0];
      ParseSignedUnsigned(u, m);
      assert IntToString(n) + rest == u;
    }
  }

  /**
   * Reading stops at the first character that is not a digit: the numeral of
   * `n` followed by anything that does not continue it parses back to `n`.
   * The one exception is a zero followed by `x`, which starts a hex numeral.
   */
  lemma ParseIntReadsNumeral(n: int, rest: string)
    requires rest == [] || !IsDigit(rest[0], 10)
    requires n == 0 && rest != [] ==> rest[0] != 'x' && rest[0] != 'X'
    ensures ParseInt(IntToString(n) + rest) == Some(n)
  {
    var s := IntToString(n) + rest;
    assert s[0] == IntToString(n)[0];
    assert s[0] == '-' || IsDigit(s[0], 10);
    assert TrimStart(s) == s;
    ParseSignedReadsNumeral(n, rest);
  }

  lemma ParseIntOfIntToString(n: int)
    ensures ParseInt(IntToString(n)) == Some(n)
  {
    assert IntToString(n) + [] == IntToString(n);
    ParseIntReadsNumeral(n, []);
  }

  lemma ParseIntSkipsWhiteSpace(w: string, s: string)
    requires forall i :: 0 <= i < |w| ==> IsWhiteSpace(w[i])
    ensures ParseInt(w + s) == ParseInt(s)
  {
    TrimStartSkipsWhiteSpace(w, s);
  }

  /** A string whose first non-blank character is neither a sign nor a digit is NaN. */
  lemma ParseIntWithoutDigits(s: string)
    requires var t := TrimStart(s); t == [] || (t[0] != '-' && t[0] != '+' && !IsDigit(t[0], 10))
    ensures ParseInt(s) == None
  {
  }

  /**
   * The idiom `parseInt(s) || 1`: NaN and zero (both falsy) become 1,
   * every other parsed value is kept, so the result is never zero.
   */
  function ParseIntOrOne(s: string): (r: int)
    ensures r != 0
    ensures ParseInt(s).None? ==> r == 1
    ensures ParseInt(s).Some? && ParseInt(s).value != 0 ==> r == ParseInt(s).value
    ensures ParseInt(s) == Some(0) ==> r == 1
  {
    match ParseInt(s)
    case None => 1
    case Some(n) => if n == 0 then 1 else n
  }

  // ---------------------------------------------------------------------------
  // Case mapping (ASCII letters)
  // ---------------------------------------------------------------------------

  function LowerChar(c: char): char {
    if 'A' <= c <= 'Z' then (c as int - 'A' as int + 'a' as int) as char else c
  }

  function UpperChar(c: char): char {
    if 'a' <= c <= 'z' then (c as int - 'a' as int + 'A' as int) as char else c
  }

  /** `s.toLowerCase()`. */
  function ToLower(s: string): (r: string)
    ensures |r| == |s|
    ensures forall i :: 0 <= i < |s| ==> r[i] == LowerChar(s[i])
  {
    seq(|s|, i requires 0 <= i < |s| => LowerChar(s[i]))
  }

  /** `s.toUpperCase()`. */
  function ToUpper(s: string): (r: string)
    ensures |r| == |s|
    ensures forall i :: 0 <= i < |s| ==> r[i] == UpperChar(s[i])
  {
    seq(|s|, i requires 0 <= i < |s| => UpperChar(s[i]))
  }

  /** Lower-casing forgets the case a string was written in. */
  lemma ToLowerIgnoresCase(s: string)
    ensures ToLower(ToUpper(s)) == ToLower(s)
    ensures ToLower(ToLower(s)) == ToLower(s)
  {
  }

  /** Lower-casing works character by character, so it distributes over concatenation. */
  lemma ToLowerAppend(a: string, b: string)
    ensures ToLower(a + b) == ToLower(a) + ToLower(b)
  {
    assert forall i :: 0 <= i < |a + b| ==> ToLower(a + b)[i] == (ToLower(a) + ToLower(b))[i];
  }

  // ---------------------------------------------------------------------------
  // includes
  // ---------------------------------------------------------------------------

  /** `t` occurs in `s` starting at position `i`. */
  predicate OccursAt(s: string, t: string, i: int) {
    0 <= i <= |s| - |t| && s[i..i + |t|] == t
  }

  /** `s.includes(t)`: `t` occurs in `s` at some position. */
  predicate Includes(s: string, t: string) {
    exists i | 0 <= i <= |s| - |t| :: OccursAt(s, t, i)
  }

  lemma IncludesWithin(a: string, t: string, b: string)
    ensures Includes(a + t + b, t)
  {
    assert OccursAt(a + t + b, t, |a|);
  }

  /** `a` is never immediately followed by `b` in `s`. */
  predicate PairAbsent(s: string, a: char, b: char) {
    forall i :: 0 <= i < |s| - 1 ==> !(s[i] == a && s[i + 1] == b)
  }

  /**
   * If two consecutive characters of `t` never appear next to each other in
   * `s`, then `t` does not occur in `s`.
   */
  lemma NotIncludesByPair(s: string, t: string, k: nat)
    requires k + 1 < |t|
    requires PairAbsent(s, t[k], t[k + 1])
    ensures !Includes(s, t)
  {
    forall i | 0 <= i <= |s| - |t| ensures !OccursAt(s, t, i) {
      assert s[i..i + |t|][k] == s[i + k] && s[i..i + |t|][k + 1] == s[i + k + 1];
    }
  }

  // ---------------------------------------------------------------------------
  // slice
  // ---------------------------------------------------------------------------

  /** A relative index as `slice` reads it: negative values count from the end, then clamped to [0, len]. */
  function RelativeIndex(k: int, len: nat): (r: nat)
    ensures r <= len
    ensures 0 <= k <= len ==> r == k
    ensures -(len as int) <= k < 0 ==> r == len as int + k
  {
    if k < 0 then (if len + k < 0 then 0 else len + k) else if k > len then len else k
  }

  /** `s.slice(start, end)`; an absent `end` means the length of `s`. */
  function Slice(s: string, start: int, end: Option<int>): (r: string)
    ensures |r| <= |s|
  {
    var from := RelativeIndex(start, |s|);
    var to := match end { case None => |s| case Some(e) => RelativeIndex(e, |s|) };
    if from < to then s[from..to] else ""
  }

  // ---------------------------------------------------------------------------
  // truthiness
  // ---------------------------------------------------------------------------

  /** JavaScript truthiness of an optional string: present and not the empty string. */
  predicate Truthy(s: Option<string>) {
    s.Some? && s.value != ""
  }
}
