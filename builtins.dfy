/**
 * The JavaScript and Node built-ins the source relies on, written out: numbers (integers,
 * fractions, the infinities and NaN), ToLength and the array length limit,
 * `toString` and `padStart` on integers, `toLowerCase`, `trim`, splitting at a character, `path.join` on relative
 * segments and substring search. Each definition covers the inputs the model gives it.
 */
module Builtins {
  import opened Wrappers

  // ---------------------------------------------------------------------------------------------
  // Numbers

  /** The digits after the point of a number that is not an integer: at least one, the last not 0. */
  type FractionDigits = s: string | 0 < |s| && AllDigits(s) && s[|s| - 1] != '0' witness "5"

  /**
   * A JavaScript number: an integer, a number with a fractional part (its sign, its whole part
   * and the digits after the point), an infinity, or NaN.
   */
  datatype Num = Int(value: int) | Frac(negative: bool, whole: nat, fraction: FractionDigits) | Infinity(negative: bool) | NaN

  /** `n <= 0 || Number.isNaN(n)`, the test both argument handlers apply to a count. */
  predicate NotPositive(n: Num) {
    match n
    case Int(v) => v <= 0
    case Frac(negative, _, _) => negative
    case Infinity(negative) => negative
    case NaN => true
  }

  /** `Number.MAX_SAFE_INTEGER`, 2^53 - 1. */
  const MAX_SAFE_INTEGER: nat := 0x1F_FFFF_FFFF_FFFF
  /** The largest length an array can have, 2^32 - 1. */
  const MAX_ARRAY_LENGTH: nat := 0xFFFF_FFFF
  /** The message of the RangeError the Array constructor throws for a length it cannot have. */
  const InvalidArrayLength := "Invalid array length"

  /** ToLength: NaN, zero and negative values give 0, a fraction is truncated, and nothing exceeds 2^53 - 1. */
  function ToLength(n: Num): (len: nat)
    ensures len <= MAX_SAFE_INTEGER
    ensures NotPositive(n) ==> len == 0
  {
    var t := match n
      case Int(v) => if v < 0 then 0 else v
      case Frac(negative, whole, _) => if negative then 0 else whole
      case Infinity(negative) => if negative then 0 else MAX_SAFE_INTEGER
      case NaN => 0;
    if t > MAX_SAFE_INTEGER then MAX_SAFE_INTEGER else t
  }

  /**
   * The number of entries `Array.from({length: n})` creates: ToLength(n), or None when that is
   * beyond 2^32 - 1 and the Array constructor throws a RangeError.
   */
  function ArrayLength(n: Num): (len: Option<nat>)
    ensures NotPositive(n) ==> len == Some(0)
    ensures n.Int? && 0 <= n.value <= MAX_ARRAY_LENGTH ==> len == Some(n.value)
    ensures n.Int? && n.value > MAX_ARRAY_LENGTH ==> len.None?
    ensures n.Frac? && !n.negative ==> len == (if n.whole <= MAX_ARRAY_LENGTH then Some(n.whole) else None)
    ensures n == Infinity(false) ==> len.None?
  {
    var l := ToLength(n);
    if l <= MAX_ARRAY_LENGTH then Some(l) else None
  }

  // ---------------------------------------------------------------------------------------------
  // Decimal digits

  predicate IsDigit(c: char) {
    '0' <= c <= '9'
  }

  predicate AllDigits(s: string) {
    forall i :: 0 <= i < |s| ==> IsDigit(s[i])
  }

  function Digit(d: nat): (c: char)
    requires d < 10
    ensures IsDigit(c) && c as int - '0' as int == d
  {
    ('0' as int + d) as char
  }

  /** `n.toString()` for a non-negative integer: decimal digits without leading zeros. */
  function NatToString(n: nat): (s: string)
    ensures 1 <= |s| && AllDigits(s)
    ensures |s| == 1 <==> n < 10
    ensures |s| <= 2 <==> n < 100
    ensures s[0] == '0' ==> n == 0
    decreases n
  {
    if n < 10 then [Digit(n)] else NatToString(n / 10) + [Digit(n % 10)]
  }

  /** A four-digit number prints as four characters. */
  lemma FourDigitLength(n: nat)
    requires 1000 <= n <= 9999
    ensures |NatToString(n)| == 4
  {
    var q := n / 10;
    var r := q / 10;
    assert 100 <= q <= 999 && 10 <= r <= 99;
    assert |NatToString(q)| == |NatToString(r)| + 1;
  }

  /** The value of a string of decimal digits, read from the left; the inverse of NatToString. */
  function DigitsValue(s: string): nat
    requires AllDigits(s)
    decreases |s|
  {
    if s == [] then 0 else DigitsValue(s[..|s| - 1]) * 10 + (s[|s| - 1] as int - '0' as int)
  }

  lemma {:induction false} DigitsValueOfNatToString(n: nat)
    ensures DigitsValue(NatToString(n)) == n
    decreases n
  {
    if n >= 10 {
      DigitsValueOfNatToString(n / 10);
      var s := NatToString(n);
      assert s[..|s| - 1] == NatToString(n / 10);
    }
  }

  /** Distinct numbers print differently. */
  lemma NatToStringInjective(a: nat, b: nat)
    ensures NatToString(a) == NatToString(b) ==> a == b
  {
    DigitsValueOfNatToString(a);
    DigitsValueOfNatToString(b);
  }

  /** A leading zero does not change the value of a digit string. */
  lemma {:induction false} DigitsValueLeadingZero(s: string)
    requires AllDigits(s)
    ensures AllDigits("0" + s) && DigitsValue("0" + s) == DigitsValue(s)
    decreases |s|
  {
    if s != [] {
      var t := "0" + s;
      assert t[..|t| - 1] == "0" + s[..|s| - 1];
      DigitsValueLeadingZero(s[..|s| - 1]);
    }
  }

  /** `i.toString()` for any integer: a minus sign before the digits of a negative value. */
  function IntToString(i: int): (s: string)
    ensures i >= 0 ==> s == NatToString(i)
    ensures i < 0 ==> 2 <= |s| && s[0] == '-' && s[1..] == NatToString(-i)
  {
    if i < 0 then "-" + NatToString(-i) else NatToString(i)
  }

  /**
   * A number rendered by a template string: an integer as its digits, a fraction as its whole
   * part, a point and its digits, and the infinities and NaN by name.
   */
  function NumToString(n: Num): string {
    match n
    case Int(v) => IntToString(v)
    case Frac(negative, whole, fraction) => (if negative then "-" else "") + NatToString(whole) + "." + fraction
    case Infinity(negative) => if negative then "-Infinity" else "Infinity"
    case NaN => "NaN"
  }

  /** A boolean rendered by a template string. */
  function BoolToString(b: bool): string {
    if b then "true" else "false"
  }

  // ---------------------------------------------------------------------------------------------
  // padStart

  /** `s.padStart(width, fill)`: fill characters in front until the length reaches `width`; never truncates. */
  function PadStart(s: string, width: nat, fill: char): (r: string)
    ensures |r| == if |s| < width then width else |s|
    ensures r[|r| - |s|..] == s
    ensures forall i :: 0 <= i < |r| - |s| ==> r[i] == fill
  {
    if |s| < width then seq(width - |s|, _ => fill) + s else s
  }

  /**
   * `n.toString().padStart(2, "0")`, the `pad` helper of the timestamp and duration formatters:
   * one leading zero below 10, the digits unchanged from 10 on (`PadIsPadStart`). Values from
   * 100 on keep all their digits, and the digits still read back as `n`.
   */
  function Pad(n: nat): (r: string)
    ensures AllDigits(r)
    ensures n < 100 ==> |r| == 2
    ensures n >= 100 ==> |r| >= 3 && r == NatToString(n)
    ensures n < 10 ==> r == "0" + NatToString(n)
    ensures DigitsValue(r) == n
  {
    DigitsValueOfNatToString(n);
    if n < 10 then
      DigitsValueLeadingZero(NatToString(n));
      "0" + NatToString(n)
    else
      NatToString(n)
  }

  /** `Pad` is `padStart(2, "0")` applied to the decimal digits. */
  lemma PadIsPadStart(n: nat)
    ensures Pad(n) == PadStart(NatToString(n), 2, '0')
  {
    var s := NatToString(n);
    if |s| < 2 {
      assert PadStart(s, 2, '0') == "0" + s;
    }
  }

  // ---------------------------------------------------------------------------------------------
  // Case and whitespace

  /** Lower-casing of one character; only the ASCII letters A-Z are mapped. */
  function LowerChar(c: char): char {
    if 'A' <= c <= 'Z' then (c as int + 32) as char else c
  }

  /** `s.toLowerCase()` restricted to ASCII case mapping. */
  function ToLower(s: string): (r: string)
    ensures |r| == |s| && forall i :: 0 <= i < |s| ==> r[i] == LowerChar(s[i])
  {
    seq(|s|, i requires 0 <= i < |s| => LowerChar(s[i]))
  }

  /** The characters ECMAScript's `trim` removes: WhiteSpace and LineTerminator. */
  predicate IsWhitespace(c: char) {
    var k := c as int;
    k == 0x09 || k == 0x0A || k == 0x0B || k == 0x0C || k == 0x0D || k == 0x20 || k == 0xA0
    || k == 0x1680 || (0x2000 <= k <= 0x200A) || k == 0x2028 || k == 0x2029 || k == 0x202F
    || k == 0x205F || k == 0x3000 || k == 0xFEFF
  }

  /** A string with no character `trim` would keep. */
  predicate Blank(s: string) {
    forall i :: 0 <= i < |s| ==> IsWhitespace(s[i])
  }

  function TrimStart(s: string): string
    decreases |s|
  {
    if s != [] && IsWhitespace(s[0]) then TrimStart(s[1..]) else s
  }

  function TrimEnd(s: string): string
    decreases |s|
  {
    if s != [] && IsWhitespace(s[|s| - 1]) then TrimEnd(s[..|s| - 1]) else s
  }

  /** `s.trim()`. */
  function Trim(s: string): string {
    TrimEnd(TrimStart(s))
  }

  lemma {:induction false} TrimStartEmptyIffBlank(s: string)
    ensures TrimStart(s) == [] <==> Blank(s)
    ensures TrimStart(s) != [] ==> !IsWhitespace(TrimStart(s)[0])
    decreases |s|
  {
    if s != [] && IsWhitespace(s[0]) {
      TrimStartEmptyIffBlank(s[1..]);
      assert Blank(s) <==> Blank(s[1..]) by {
        if Blank(s[1..]) {
          forall i | 0 <= i < |s| ensures IsWhitespace(s[i]) {
            if i > 0 { assert s[i] == s[1..][i - 1]; }
          }
        }
      }
    }
  }

  lemma {:induction false} TrimEndKeepsNonBlankHead(s: string)
    requires s != [] && !IsWhitespace(s[0])
    ensures TrimEnd(s) != []
    decreases |s|
  {
    if IsWhitespace(s[|s| - 1]) {
      TrimEndKeepsNonBlankHead(s[..|s| - 1]);
    }
  }

  /** `s.trim().length === 0` exactly when every character of `s` is whitespace. */
  lemma TrimEmptyIffBlank(s: string)
    ensures |Trim(s)| == 0 <==> Blank(s)
  {
    TrimStartEmptyIffBlank(s);
    if TrimStart(s) != [] {
      TrimEndKeepsNonBlankHead(TrimStart(s));
    }
  }

  // ---------------------------------------------------------------------------------------------
  // Splitting at a character

  /** Splits `s` at its first `c` into the part before and the part after. */
  function SplitFirst(s: string, c: char): (r: Option<(string, string)>)
    ensures r.None? <==> c !in s
    ensures r.Some? ==> c !in r.value.0 && s == r.value.0 + [c] + r.value.1
    decreases |s|
  {
    if s == [] then None
    else if s[0] == c then Some(([], s[1..]))
    else match SplitFirst(s[1..], c)
      case None => None
      case Some(p) => Some(([s[0]] + p.0, p.1))
  }

  /** The part before the first `c` is everything up to it. */
  lemma {:induction false} SplitFirstAt(a: string, c: char, b: string)
    requires c !in a
    ensures SplitFirst(a + [c] + b, c) == Some((a, b))
    decreases |a|
  {
    if a == [] {
      assert (a + [c] + b)[1..] == b;
    } else {
      assert (a + [c] + b)[1..] == a[1..] + [c] + b;
      SplitFirstAt(a[1..], c, b);
      assert [a[0]] + a[1..] == a;
    }
  }

  lemma DigitsHaveNo(s: string, c: char)
    requires AllDigits(s) && !IsDigit(c)
    ensures c !in s
  {
  }

  // ---------------------------------------------------------------------------------------------
  // Paths and substrings

  /** `path.join(a, b)` for relative, already normalised segments; two empty segments give "" here, where `path.join` gives ".". */
  function Join(a: string, b: string): (p: string)
    ensures a != "" && b != "" ==> |p| == |a| + 1 + |b| && p[..|a|] == a && p[|a|] == '/' && p[|a| + 1..] == b
    ensures a == "" ==> p == b
  {
    if a == "" then b else if b == "" then a else a + "/" + b
  }

  predicate StartsWith(s: string, prefix: string) {
    |prefix| <= |s| && s[..|prefix|] == prefix
  }

  predicate EndsWith(s: string, suffix: string) {
    |suffix| <= |s| && s[|s| - |suffix|..] == suffix
  }

  /** `t` occurs in `s` as a contiguous substring. */
  predicate Contains(s: string, t: string)
    decreases |s|
  {
    StartsWith(s, t) || (s != [] && Contains(s[1..], t))
  }

  lemma {:induction false} ContainsAt(s: string, t: string, i: nat)
    requires i + |t| <= |s| && s[i..i + |t|] == t
    ensures Contains(s, t)
    decreases i
  {
    if i > 0 {
      assert s[1..][i - 1..i - 1 + |t|] == t;
      ContainsAt(s[1..], t, i - 1);
    }
  }
}
