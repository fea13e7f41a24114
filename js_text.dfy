/**
 * ECMAScript strings as the gateway client handles them: sequences of
 * UTF-16 code units, compared code unit by code unit (the comparison that
 * `Array.prototype.sort` uses when it is given no comparator), and the
 * ASCII part of `String.prototype.toUpperCase`.
 */
module JsText {

  /** One UTF-16 code unit. Lone surrogates are ordinary code units here, as in JavaScript. */
  newtype CodeUnit = x: int | 0 <= x < 0x1_0000

  type JsString = seq<CodeUnit>

  /** The code units of a literal whose characters all lie in the Basic Multilingual Plane. */
  function Lit(s: string): JsString
    requires forall i | 0 <= i < |s| :: s[i] as int < 0x1_0000
  {
    seq(|s|, i requires 0 <= i < |s| => s[i] as int as CodeUnit)
  }

  // ---------------------------------------------------------------------------
  // Code-unit lexicographic order
  // ---------------------------------------------------------------------------

  /**
   * `a` sorts no later than `b`: `a` is a prefix of `b`, or at the first code
   * unit where they differ `a` has the smaller one.
   */
  predicate LessOrEqual(a: JsString, b: JsString)
  {
    if |a| == 0 then true
    else if |b| == 0 then false
    else if a[0] != b[0] then a[0] < b[0]
    else LessOrEqual(a[1..], b[1..])
  }

  lemma {:induction false} LessOrEqualTotal(a: JsString, b: JsString)
    ensures LessOrEqual(a, b) || LessOrEqual(b, a)
  {
    if |a| > 0 && |b| > 0 && a[0] == b[0] {
      LessOrEqualTotal(a[1..], b[1..]);
    }
  }

  lemma {:induction false} LessOrEqualAntisymmetric(a: JsString, b: JsString)
    requires LessOrEqual(a, b) && LessOrEqual(b, a)
    ensures a == b
  {
    if |a| > 0 && |b| > 0 {
      LessOrEqualAntisymmetric(a[1..], b[1..]);
      assert a == [a[0]] + a[1..];
      assert b == [b[0]] + b[1..];
    }
  }

  lemma {:induction false} LessOrEqualTransitive(a: JsString, b: JsString, c: JsString)
    requires LessOrEqual(a, b) && LessOrEqual(b, c)
    ensures LessOrEqual(a, c)
  {
    if |a| > 0 && |b| > 0 && |c| > 0 && a[0] == b[0] && b[0] == c[0] {
      LessOrEqualTransitive(a[1..], b[1..], c[1..]);
    }
  }

  // ---------------------------------------------------------------------------
  // Hexadecimal digits and upper-casing
  // ---------------------------------------------------------------------------

  predicate IsLowerHexDigit(c: CodeUnit) { '0' as CodeUnit <= c <= '9' as CodeUnit || 'a' as CodeUnit <= c <= 'f' as CodeUnit }

  predicate IsUpperHexDigit(c: CodeUnit) { '0' as CodeUnit <= c <= '9' as CodeUnit || 'A' as CodeUnit <= c <= 'F' as CodeUnit }

  predicate IsLowerAsciiLetter(c: CodeUnit) { 'a' as CodeUnit <= c <= 'z' as CodeUnit }

  /** The number 0..15 a hexadecimal digit of either case stands for (-1 for any other code unit). */
  function HexDigitValue(c: CodeUnit): int
  {
    if '0' as CodeUnit <= c <= '9' as CodeUnit then (c - '0' as CodeUnit) as int
    else if 'a' as CodeUnit <= c <= 'f' as CodeUnit then (c - 'a' as CodeUnit) as int + 10
    else if 'A' as CodeUnit <= c <= 'F' as CodeUnit then (c - 'A' as CodeUnit) as int + 10
    else -1
  }

  const ZERO_DIGEST: JsString := seq(32, _ => '0' as CodeUnit)

  /** What `digest('hex')` of an MD5 hash yields: 32 lowercase hexadecimal digits. */
  type Md5Hex = s: JsString | |s| == 32 && forall i | 0 <= i < |s| :: IsLowerHexDigit(s[i])
    witness ZERO_DIGEST

  function UpperUnit(c: CodeUnit): CodeUnit
  {
    if IsLowerAsciiLetter(c) then c - 32 else c
  }

  /** `String.prototype.toUpperCase`, on the ASCII range. */
  function ToUpper(s: JsString): JsString
  {
    seq(|s|, i requires 0 <= i < |s| => UpperUnit(s[i]))
  }

  function LowerUnit(c: CodeUnit): CodeUnit
  {
    if 'A' as CodeUnit <= c <= 'Z' as CodeUnit then c + 32 else c
  }

  /** `String.prototype.toLowerCase`, on the ASCII range. */
  function ToLower(s: JsString): JsString
  {
    seq(|s|, i requires 0 <= i < |s| => LowerUnit(s[i]))
  }

  /**
   * Upper-casing a lowercase hex digest keeps its length, leaves no lowercase
   * letter, keeps the value of every digit, and is undone by lower-casing.
   */
  lemma ToUpperOfDigest(h: Md5Hex)
    ensures |ToUpper(h)| == |h| == 32
    ensures forall i | 0 <= i < 32 :: IsUpperHexDigit(ToUpper(h)[i]) && !IsLowerAsciiLetter(ToUpper(h)[i])
    ensures forall i | 0 <= i < 32 :: HexDigitValue(ToUpper(h)[i]) == HexDigitValue(h[i])
    ensures ToLower(ToUpper(h)) == h
  {
    var u := ToUpper(h);
    forall i | 0 <= i < 32
      ensures IsUpperHexDigit(u[i]) && !IsLowerAsciiLetter(u[i])
      ensures HexDigitValue(u[i]) == HexDigitValue(h[i])
      ensures ToLower(u)[i] == h[i]
    {
      assert IsLowerHexDigit(h[i]);
    }
  }
}
