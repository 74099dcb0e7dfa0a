/**
 * The JavaScript string built-ins the core relies on, stated over Dafny strings:
 * `parseInt` without a radix, `String(n)` of an integer, `split` on one
 * character, `endsWith`, and the numeric literal grammar `-?\d+(?:\.\d+)?`
 * together with the exact value `Number(s)` gives such a literal.
 */
module Text {
  import opened Wrappers

  // ---------------------------------------------------------------- digits

  /** Value of a character as a digit of a radix up to 36 (0-9, then a-z or A-Z); 36 for any other character. */
  function CharDigit(c: char): (d: nat)
    ensures d <= 36
    ensures d < 10 <==> '0' <= c <= '9'
  {
    if '0' <= c <= '9' then c as int - '0' as int
    else if 'a' <= c <= 'z' then c as int - 'a' as int + 10
    else if 'A' <= c <= 'Z' then c as int - 'A' as int + 10
    else 36
  }

  predicate IsRadixDigit(c: char, radix: nat) {
    CharDigit(c) < radix
  }

  predicate IsDigit(c: char) {
    '0' <= c <= '9'
  }

  predicate AllRadixDigits(s: string, radix: nat) {
    forall i :: 0 <= i < |s| ==> IsRadixDigit(s[i], radix)
  }

  /** A non-empty run of decimal digits: the regular expression `\d+`. */
  predicate IsDigits(s: string) {
    |s| > 0 && forall i :: 0 <= i < |s| ==> IsDigit(s[i])
  }

  function Pow10(n: nat): (p: nat)
    ensures p >= 1
  {
    if n == 0 then 1 else 10 * Pow10(n - 1)
  }

  /** The number a string of radix digits denotes, most significant digit first. */
  function RadixValue(s: string, radix: nat): nat
    requires AllRadixDigits(s, radix)
  {
    if |s| == 0 then 0 else RadixValue(s[..|s| - 1], radix) * radix + CharDigit(s[|s| - 1])
  }

  lemma {:induction false} DecimalValueBound(s: string)
    requires AllRadixDigits(s, 10)
    ensures RadixValue(s, 10) < Pow10(|s|)
  {
    if |s| > 0 {
      DecimalValueBound(s[..|s| - 1]);
    }
  }

  /** The longest prefix of `s` made of digits of `radix`. */
  function TakeRadixDigits(s: string, radix: nat): (p: string)
    ensures |p| <= |s| && p == s[..|p|]
    ensures AllRadixDigits(p, radix)
    ensures |p| < |s| ==> !IsRadixDigit(s[|p|], radix)
  {
    if |s| > 0 && IsRadixDigit(s[0], radix) then [s[0]] + TakeRadixDigits(s[1..], radix) else []
  }

  lemma {:induction false} TakeAllDigits(s: string, radix: nat)
    requires AllRadixDigits(s, radix)
    ensures TakeRadixDigits(s, radix) == s
  {
    if |s| > 0 {
      TakeAllDigits(s[1..], radix);
    }
  }

  // ------------------------------------------------------- String(n) of an integer

  function DigitChar(d: nat): (c: char)
    requires d < 10
    ensures IsDigit(c) && CharDigit(c) == d
  {
    ('0' as int + d) as char
  }

  /** The canonical decimal spelling of a natural number: no sign, no leading zero. */
  function NatToDecimal(n: nat): (s: string)
    ensures IsDigits(s) && AllRadixDigits(s, 10)
    ensures RadixValue(s, 10) == n
    ensures n > 0 ==> s[0] != '0'
    ensures n == 0 ==> s == "0"
  {
    if n < 10 then [DigitChar(n)]
    else
      var p := NatToDecimal(n / 10);
      var s := p + [DigitChar(n % 10)];
      assert s[..|s| - 1] == p;
      s
  }

  /** `String(n)` for an integer `n`. */
  function IntToDecimal(n: int): string {
    if n < 0 then "-" + NatToDecimal(-n) else NatToDecimal(n)
  }

  /** A digit string without a superfluous leading zero is what NatToDecimal prints for its value. */
  lemma {:induction false} DecimalRoundTrip(s: string)
    requires IsDigits(s) && (|s| == 1 || s[0] != '0')
    ensures AllRadixDigits(s, 10) && NatToDecimal(RadixValue(s, 10)) == s
  {
    assert AllRadixDigits(s, 10);
    var n := |s|;
    if n > 1 {
      var p := s[..n - 1];
      assert p[0] == s[0];
      DecimalRoundTrip(p);
      LeadingDigitPositive(p);
      var v := RadixValue(s, 10);
      assert v == RadixValue(p, 10) * 10 + CharDigit(s[n - 1]);
      assert v / 10 == RadixValue(p, 10) && v % 10 == CharDigit(s[n - 1]);
      assert DigitChar(v % 10) == s[n - 1];
      assert s == p + [s[n - 1]];
    }
  }

  lemma {:induction false} LeadingDigitPositive(s: string)
    requires IsDigits(s) && s[0] != '0'
    ensures AllRadixDigits(s, 10) && RadixValue(s, 10) >= Pow10(|s| - 1)
  {
    assert AllRadixDigits(s, 10);
    if |s| > 1 {
      var p := s[..|s| - 1];
      assert p[0] == s[0];
      LeadingDigitPositive(p);
    }
  }

  // --------------------------------------------------------------------- parseInt

  /** The white space and line terminators that `parseInt` skips at the start of its argument. */
  predicate IsJsWhitespace(c: char) {
    c == ' ' || c == '\t' || c == '\n' || c == '\r' || c == '\U{000B}' || c == '\U{000C}'
    || c == '\U{00A0}' || c == '\U{1680}' || ('\U{2000}' <= c <= '\U{200A}')
    || c == '\U{2028}' || c == '\U{2029}' || c == '\U{202F}' || c == '\U{205F}'
    || c == '\U{3000}' || c == '\U{FEFF}'
  }

  function TrimStart(s: string): (t: string)
    ensures |t| <= |s| && t == s[|s| - |t|..]
    ensures |t| > 0 ==> !IsJsWhitespace(t[0])
    ensures forall i :: 0 <= i < |s| - |t| ==> IsJsWhitespace(s[i])
  {
    if |s| > 0 && IsJsWhitespace(s[0]) then TrimStart(s[1..]) else s
  }

  /**
   * `parseInt(s)` with no radix argument: skip leading white space, take an
   * optional sign, read hexadecimal after a `0x`/`0X` prefix and decimal
   * otherwise, and stop at the first character that is not a digit. `None`
   * stands for NaN, the result when no digit follows.
   */
  function ParseInt(s: string): Option<int> {
    var t := TrimStart(s);
    var negative := |t| > 0 && t[0] == '-';
    var u := if |t| > 0 && (t[0] == '-' || t[0] == '+') then t[1..] else t;
    var hex := |u| >= 2 && u[0] == '0' && (u[1] == 'x' || u[1] == 'X');
    var radix := if hex then 16 else 10;
    var z := TakeRadixDigits(if hex then u[2..] else u, radix);
    if z == [] then None
    else var v: int := RadixValue(z, radix); Some(if negative then -v else v)
  }

  /** parseInt of a string with no leading space, an optional minus and then decimal digits (not a 0x prefix). */
  lemma ParseIntDecimalForm(s: string)
    requires |s| > 0 && (s[0] == '-' || IsDigit(s[0]))
    requires |Unsigned(s)| > 0 && IsDigit(Unsigned(s)[0])
    requires |Unsigned(s)| >= 2 ==> Unsigned(s)[1] != 'x' && Unsigned(s)[1] != 'X'
    ensures var v: int := RadixValue(TakeRadixDigits(Unsigned(s), 10), 10);
      ParseInt(s) == Some(if IsNegative(s) then -v else v)
  {
    assert !IsJsWhitespace(s[0]);
    var t := TrimStart(s);
    assert t == s;
    var u := if |t| > 0 && (t[0] == '-' || t[0] == '+') then t[1..] else t;
    assert u == Unsigned(s);
  }

  /** `parseInt` reads back what `String(n)` prints. */
  lemma ParseIntOfDecimal(n: int)
    ensures ParseInt(IntToDecimal(n)) == Some(n)
  {
    var s := IntToDecimal(n);
    var d := NatToDecimal(if n < 0 then -n else n);
    assert Unsigned(s) == d;
    TakeAllDigits(d, 10);
    ParseIntDecimalForm(s);
  }

  // ------------------------------------------------ the literal grammar -?\d+(?:\.\d+)?

  function Unsigned(s: string): string {
    if |s| > 0 && s[0] == '-' then s[1..] else s
  }

  predicate IsNegative(s: string) {
    |s| > 0 && s[0] == '-'
  }

  function IntegerDigits(s: string): string {
    TakeRadixDigits(Unsigned(s), 10)
  }

  /** `s` matches `^-?\d+(?:\.\d+)?$`: an optional minus, digits, then optionally a dot and more digits. */
  predicate IsNumericLiteral(s: string) {
    var u := Unsigned(s);
    var i := IntegerDigits(s);
    |i| > 0 && (|i| == |u| || (u[|i|] == '.' && IsDigits(u[|i| + 1..])))
  }

  function FractionDigits(s: string): (f: string)
    requires IsNumericLiteral(s)
    ensures AllRadixDigits(f, 10)
  {
    var u := Unsigned(s);
    var i := IntegerDigits(s);
    if |i| == |u| then "" else u[|i| + 1..]
  }

  /** The integer `parseInt` takes from a literal: its sign and its digits before the dot. */
  function IntegerPartValue(s: string): int
    requires IsNumericLiteral(s)
  {
    var v: int := RadixValue(IntegerDigits(s), 10);
    if IsNegative(s) then -v else v
  }

  /** The exact value `Number(s)` denotes for a numeric literal `s`. */
  function LiteralValue(s: string): real
    requires IsNumericLiteral(s)
  {
    var f := FractionDigits(s);
    var x := RadixValue(IntegerDigits(s), 10) as real + RadixValue(f, 10) as real / Pow10(|f|) as real;
    if IsNegative(s) then -x else x
  }

  /** `parseInt` of a numeric literal is its integer part (it stops at the dot). */
  lemma ParseIntOfLiteral(s: string)
    requires IsNumericLiteral(s)
    ensures ParseInt(s) == Some(IntegerPartValue(s))
  {
    var u := Unsigned(s);
    DigitPrefixHead(u, IntegerDigits(s));
    if !IsNegative(s) {
      assert u == s;
    }
    ParseIntDecimalForm(s);
    var v: int := RadixValue(IntegerDigits(s), 10);
    assert IntegerPartValue(s) == if IsNegative(s) then -v else v;
  }

  /** A string that starts with a run of digits ended by its end or a dot starts with a digit and has no hexadecimal prefix. */
  lemma DigitPrefixHead(u: string, i: string)
    requires 0 < |i| <= |u| && i == u[..|i|] && AllRadixDigits(i, 10)
    requires |i| < |u| ==> u[|i|] == '.'
    ensures IsDigit(u[0])
    ensures |u| >= 2 ==> u[1] != 'x' && u[1] != 'X'
  {
    assert u[0] == i[0] && IsRadixDigit(i[0], 10);
    if |u| >= 2 && |i| >= 2 {
      assert u[1] == i[1] && IsRadixDigit(i[1], 10);
    }
  }

  lemma FractionBelowOne(a: nat, b: nat)
    requires a < b
    ensures 0.0 <= a as real / b as real < 1.0
  {
  }

  /** A number `x` with `i <= x < i + 1`, or its negation, is whole exactly when `x` is `i`. */
  lemma WholeBetween(i: int, x: real, negative: bool)
    requires i as real <= x < i as real + 1.0
    ensures var v := if negative then -x else x;
      (v.Floor as real == v) <==> x == i as real
  {
    var v := if negative then -x else x;
    if v.Floor as real == v {
      var k := if negative then -v.Floor else v.Floor;
      assert x == k as real;
      assert i <= k < i + 1;
    }
    if x == i as real {
      assert v == (if negative then -(i as int) else i as int) as real;
    }
  }

  /** A whole part plus a proper fraction, or its negation, is whole exactly when the fraction adds nothing. */
  lemma SignedFractionWhole(negative: bool, i: nat, num: nat, den: nat)
    requires num < den
    ensures var x := i as real + num as real / den as real;
      var v := if negative then -x else x;
      (v.Floor as real == v) <==> (v == (if negative then -(i as int) else i as int) as real)
  {
    FractionBelowOne(num, den);
    var x := i as real + num as real / den as real;
    WholeBetween(i, x, negative);
  }

  /** A numeric literal denotes a whole number exactly when that number is its integer part. */
  lemma LiteralIntegral(s: string)
    requires IsNumericLiteral(s)
    ensures (LiteralValue(s).Floor as real == LiteralValue(s)) <==> (LiteralValue(s) == IntegerPartValue(s) as real)
  {
    var f := FractionDigits(s);
    DecimalValueBound(f);
    SignedFractionWhole(IsNegative(s), RadixValue(IntegerDigits(s), 10), RadixValue(f, 10), Pow10(|f|));
  }

  /** Every integer's decimal spelling is a numeric literal with that value. */
  lemma DecimalIsLiteral(n: int)
    ensures IsNumericLiteral(IntToDecimal(n))
    ensures LiteralValue(IntToDecimal(n)) == n as real
    ensures IntegerPartValue(IntToDecimal(n)) == n
  {
    var s := IntToDecimal(n);
    var d := NatToDecimal(if n < 0 then -n else n);
    assert Unsigned(s) == d;
    TakeAllDigits(d, 10);
    assert IntegerDigits(s) == d;
    assert FractionDigits(s) == "";
    assert RadixValue(FractionDigits(s), 10) == 0;
  }

  /** A plain digit string is a numeric literal whose value is what its digits denote. */
  lemma DigitsLiteral(s: string)
    requires IsDigits(s)
    ensures IsNumericLiteral(s) && AllRadixDigits(s, 10)
    ensures LiteralValue(s) == RadixValue(s, 10) as real && IntegerPartValue(s) == RadixValue(s, 10)
  {
    assert AllRadixDigits(s, 10);
    assert Unsigned(s) == s;
    TakeAllDigits(s, 10);
  }

  /** A minus sign before a digit string negates its value. */
  lemma NegativeDigitsLiteral(s: string)
    requires IsDigits(s)
    ensures IsNumericLiteral("-" + s) && AllRadixDigits(s, 10)
    ensures LiteralValue("-" + s) == -(RadixValue(s, 10) as real)
  {
    var m := "-" + s;
    assert AllRadixDigits(s, 10);
    assert Unsigned(m) == s && IsNegative(m);
    TakeAllDigits(s, 10);
    assert IntegerDigits(m) == s;
    assert FractionDigits(m) == "";
  }

  // ------------------------------------------------------------ split and endsWith

  function IndexOf(s: string, c: char): (i: nat)
    requires c in s
    ensures i < |s| && s[i] == c && c !in s[..i]
  {
    if s[0] == c then 0 else 1 + IndexOf(s[1..], c)
  }

  /** `s.split(sep)` for a one-character separator. */
  function Split(s: string, sep: char): (parts: seq<string>)
    ensures |parts| >= 1
    ensures forall k :: 0 <= k < |parts| ==> sep !in parts[k]
    decreases |s|
  {
    if sep in s then
      var i := IndexOf(s, sep);
      [s[..i]] + Split(s[i + 1..], sep)
    else [s]
  }

  /** `parts.join(sep)`, the inverse of Split. */
  function Join(parts: seq<string>, sep: char): string
    requires |parts| >= 1
  {
    if |parts| == 1 then parts[0] else parts[0] + [sep] + Join(parts[1..], sep)
  }

  lemma {:induction false} JoinSplit(s: string, sep: char)
    ensures Join(Split(s, sep), sep) == s
    decreases |s|
  {
    if sep in s {
      var i := IndexOf(s, sep);
      JoinSplit(s[i + 1..], sep);
      assert s == s[..i] + [sep] + s[i + 1..];
    }
  }

  lemma {:induction false} SplitJoin(parts: seq<string>, sep: char)
    requires |parts| >= 1
    requires forall k :: 0 <= k < |parts| ==> sep !in parts[k]
    ensures Split(Join(parts, sep), sep) == parts
  {
    if |parts| > 1 {
      var s := Join(parts, sep);
      var rest := Join(parts[1..], sep);
      assert s == parts[0] + [sep] + rest;
      assert s[|parts[0]|] == sep;
      assert s[..|parts[0]|] == parts[0];
      assert IndexOf(s, sep) == |parts[0]|;
      assert s[|parts[0]| + 1..] == rest;
      SplitJoin(parts[1..], sep);
    }
  }

  /** The first piece of `s.split(sep)`: everything before the first separator. */
  lemma FirstPiece(s: string, sep: char, i: nat)
    requires i < |s| && s[i] == sep && sep !in s[..i]
    ensures Split(s, sep)[0] == s[..i]
    ensures sep !in s[i + 1..] ==> Split(s, sep) == [s[..i], s[i + 1..]]
  {
    assert sep in s;
  }

  predicate EndsWith(s: string, suffix: string) {
    |suffix| <= |s| && s[|s| - |suffix|..] == suffix
  }

  lemma EndsWithAppend(b: string, suffix: string)
    ensures EndsWith(b + suffix, suffix) && (b + suffix)[..|b|] == b
  {
    assert (b + suffix)[|b|..] == suffix;
  }

  /** No name with `_min` appended equals any name with `_max` appended. */
  lemma SuffixDiffers(a: string, b: string)
    ensures a + "_min" != b + "_max"
  {
    var x, y := a + "_min", b + "_max";
    if |x| == |y| {
      assert x[|x| - 1] == 'n' && y[|y| - 1] == 'x';
    }
  }

  /** Appending the same suffix is injective. */
  lemma SuffixCancels(a: string, b: string, suffix: string)
    requires a + suffix == b + suffix
    ensures a == b
  {
    assert a == (a + suffix)[..|a|];
    assert b == (b + suffix)[..|b|];
  }

  // ----------------------------------------------------------------- ASCII case

  function LowerAscii(s: string): (t: string)
    ensures |t| == |s|
  {
    if s == [] then [] else [if 'A' <= s[0] <= 'Z' then (s[0] as int + 32) as char else s[0]] + LowerAscii(s[1..])
  }
}
