/**
 * Character classes, decimal numerals and the integer-to-text conversions
 * that the colour code relies on (JavaScript's `\s`, `\d`, unary `+` on a
 * numeral string, `Number.prototype.toString` with radix 10 and 16, and the
 * ASCII part of `toUpperCase` / `toLowerCase`).
 */
module Text {

  /** JavaScript's `\s`: the ECMAScript white space and line terminator characters. */
  predicate IsSpace(c: char) {
    c == ' ' || c == '\t' || c == '\n' || c == '\r' || c == '\U{000B}' || c == '\U{000C}'
    || c == '\U{00A0}' || c == '\U{1680}' || ('\U{2000}' <= c <= '\U{200A}')
    || c == '\U{2028}' || c == '\U{2029}' || c == '\U{202F}' || c == '\U{205F}'
    || c == '\U{3000}' || c == '\U{FEFF}'
  }

  /** JavaScript's `\d`. */
  predicate IsDigit(c: char) {
    '0' <= c <= '9'
  }

  /** The characters a numeric capture group of the colour grammars can consist of. */
  predicate IsNumeralChar(c: char) {
    IsDigit(c) || c == '.'
  }

  /** `[a-f\d]` */
  predicate IsLowerHexDigit(c: char) {
    IsDigit(c) || ('a' <= c <= 'f')
  }

  /** `[A-F\d]` */
  predicate IsUpperHexDigit(c: char) {
    IsDigit(c) || ('A' <= c <= 'F')
  }

  predicate AllDigits(s: string) {
    forall i :: 0 <= i < |s| ==> IsDigit(s[i])
  }

  function DigitValue(c: char): (d: nat)
    requires IsDigit(c)
    ensures d <= 9
  {
    (c as int) - ('0' as int)
  }

  function DigitChar(d: nat): (c: char)
    requires d <= 9
    ensures IsDigit(c) && DigitValue(c) == d
  {
    (('0' as int) + d) as char
  }

  /** The value of a string of decimal digits, most significant digit first. */
  function DigitsValue(s: string): nat
    requires AllDigits(s)
  {
    if s == [] then 0 else DigitsValue(s[..|s| - 1]) * 10 + DigitValue(s[|s| - 1])
  }

  /** The value of the digits after a decimal point: `d1 d2 ...` is `0.d1d2...`. */
  function FractionValue(s: string): real
    requires AllDigits(s)
  {
    if s == [] then 0.0 else (DigitValue(s[0]) as real + FractionValue(s[1..])) / 10.0
  }

  /** The length of the longest prefix of `s` whose characters all satisfy `p`. */
  function Span(s: string, p: char -> bool): (n: nat)
    ensures n <= |s|
    ensures forall i :: 0 <= i < n ==> p(s[i])
    ensures n == |s| || !p(s[n])
  {
    if s == [] || !p(s[0]) then 0 else 1 + Span(s[1..], p)
  }

  /** The length of the longest prefix of `s` made of decimal digits. */
  function DigitRun(s: string): (n: nat)
    ensures n <= |s|
    ensures AllDigits(s[..n])
    ensures n == |s| || !IsDigit(s[n])
  {
    Span(s, IsDigit)
  }

  /**
   * An unsigned decimal numeral: digits, optionally followed by a point and
   * at least one digit, and not empty. Every token the colour grammars
   * capture for a number has this form.
   */
  predicate IsNumeral(s: string) {
    var k := DigitRun(s);
    (k == |s| && k > 0) || (k < |s| - 1 && s[k] == '.' && AllDigits(s[k + 1..]))
  }

  /** The digits before the point. */
  function IntPart(s: string): string {
    s[..DigitRun(s)]
  }

  /** The digits after the point, empty when there is no point. */
  function FracPart(s: string): string
    requires IsNumeral(s)
  {
    var k := DigitRun(s);
    if k == |s| then "" else s[k + 1..]
  }

  /** JavaScript's unary `+` applied to a decimal numeral, computed exactly. */
  function NumberValue(s: string): real
    requires IsNumeral(s)
  {
    DigitsValue(IntPart(s)) as real + FractionValue(FracPart(s))
  }

  /** `n.toString()` for a non-negative integer: decimal digits without leading zeros. */
  function NatText(n: nat): (s: string)
    ensures |s| > 0 && AllDigits(s)
    decreases n
  {
    if n < 10 then [DigitChar(n)] else NatText(n / 10) + [DigitChar(n % 10)]
  }

  /** `n.toString()` for any integer. */
  function IntText(n: int): string {
    if n < 0 then "-" + NatText(-n) else NatText(n)
  }

  /** A hexadecimal digit as `toString(16)` writes it (lower case). */
  function HexDigitChar(d: nat): (c: char)
    requires d < 16
    ensures IsLowerHexDigit(c) && HexDigitValue(c) == d
  {
    if d < 10 then DigitChar(d) else (('a' as int) + d - 10) as char
  }

  /** `n.toString(16)` for a non-negative integer. */
  function NatHexText(n: nat): (s: string)
    ensures |s| > 0 && forall i :: 0 <= i < |s| ==> IsLowerHexDigit(s[i])
    decreases n
  {
    if n < 16 then [HexDigitChar(n)] else NatHexText(n / 16) + [HexDigitChar(n % 16)]
  }

  /** `n.toString(16)` for any integer. */
  function IntHexText(n: int): string {
    if n < 0 then "-" + NatHexText(-n) else NatHexText(n)
  }

  predicate IsHexDigit(c: char) {
    IsLowerHexDigit(c) || IsUpperHexDigit(c)
  }

  function HexDigitValue(c: char): (d: nat)
    requires IsHexDigit(c)
    ensures d < 16
  {
    if IsDigit(c) then DigitValue(c)
    else if 'a' <= c <= 'f' then (c as int) - ('a' as int) + 10
    else (c as int) - ('A' as int) + 10
  }

  predicate AllHexDigits(s: string) {
    forall i :: 0 <= i < |s| ==> IsHexDigit(s[i])
  }

  /** `parseInt(s, 16)` for a string of hexadecimal digits. */
  function HexValue(s: string): nat
    requires AllHexDigits(s)
  {
    if s == [] then 0 else HexValue(s[..|s| - 1]) * 16 + HexDigitValue(s[|s| - 1])
  }

  /** The ASCII part of `toUpperCase`. */
  function UpperChar(c: char): char {
    if 'a' <= c <= 'z' then (c as int - 32) as char else c
  }

  /** The ASCII part of `toLowerCase`. */
  function LowerChar(c: char): char {
    if 'A' <= c <= 'Z' then (c as int + 32) as char else c
  }

  function ToUpper(s: string): (r: string)
    ensures |r| == |s| && forall i :: 0 <= i < |s| ==> r[i] == UpperChar(s[i])
  {
    seq(|s|, i requires 0 <= i < |s| => UpperChar(s[i]))
  }

  function ToLower(s: string): (r: string)
    ensures |r| == |s| && forall i :: 0 <= i < |s| ==> r[i] == LowerChar(s[i])
  {
    seq(|s|, i requires 0 <= i < |s| => LowerChar(s[i]))
  }

  /** `Array.prototype.join(sep)`: the elements with `sep` between neighbours. */
  function Join<T>(xs: seq<seq<T>>, sep: seq<T>): seq<T> {
    if xs == [] then [] else if |xs| == 1 then xs[0] else xs[0] + sep + Join(xs[1..], sep)
  }

  predicate AllZeros(s: string) {
    forall i :: 0 <= i < |s| ==> s[i] == '0'
  }

  predicate NoComma(s: string) {
    forall i :: 0 <= i < |s| ==> s[i] != ','
  }

  /** The position of the first comma, or the length when there is none. */
  function CommaIndex(s: string): (k: nat)
    ensures k <= |s|
  {
    if s == [] || s[0] == ',' then 0 else 1 + CommaIndex(s[1..])
  }

  // ---------------------------------------------------------------------
  // Lemmas

  /** A maximal run ends exactly where its characters stop satisfying `p`. */
  lemma {:induction false} SpanPrefix(t: string, r: string, p: char -> bool)
    requires forall i :: 0 <= i < |t| ==> p(t[i])
    requires r == [] || !p(r[0])
    ensures Span(t + r, p) == |t|
  {
    if t != [] {
      assert (t + r)[1..] == t[1..] + r;
      SpanPrefix(t[1..], r, p);
    }
  }

  /** The digits after a decimal point denote a value in [0, 1), and 0 exactly when they are all zeros. */
  lemma {:induction false} FractionValueRange(s: string)
    requires AllDigits(s)
    ensures 0.0 <= FractionValue(s) < 1.0
    ensures FractionValue(s) == 0.0 <==> AllZeros(s)
  {
    if s != [] {
      FractionValueRange(s[1..]);
      if AllZeros(s) {
        assert AllZeros(s[1..]) by {
          forall i | 0 <= i < |s[1..]| ensures s[1..][i] == '0' {
            assert s[1..][i] == s[i + 1];
          }
        }
      } else if s[0] == '0' {
        assert !AllZeros(s[1..]) by {
          var j :| 0 <= j < |s| && s[j] != '0';
          assert s[1..][j - 1] == s[j];
        }
      }
    }
  }

  lemma DigitsValueAppend(s: string, c: char)
    requires AllDigits(s) && IsDigit(c)
    ensures AllDigits(s + [c]) && DigitsValue(s + [c]) == DigitsValue(s) * 10 + DigitValue(c)
  {
    assert (s + [c])[..|s + [c]| - 1] == s;
  }

  /** Decimal text reads back as the number it was written from. */
  lemma {:induction false} NatTextValue(n: nat)
    ensures DigitsValue(NatText(n)) == n
    decreases n
  {
    if n >= 10 {
      NatTextValue(n / 10);
      DigitsValueAppend(NatText(n / 10), DigitChar(n % 10));
    }
  }

  lemma NatTextInjective(m: nat, n: nat)
    requires NatText(m) == NatText(n)
    ensures m == n
  {
    NatTextValue(m);
    NatTextValue(n);
  }

  lemma {:induction false} NatTextLength(n: nat)
    ensures n < 10 ==> |NatText(n)| == 1
    ensures 10 <= n < 100 ==> |NatText(n)| == 2
    ensures 100 <= n < 1000 ==> |NatText(n)| == 3
    decreases n
  {
    if n >= 10 {
      NatTextLength(n / 10);
    }
  }

  lemma IntTextSign(n: int)
    ensures |IntText(n)| > 0 && (IntText(n)[0] == '-' <==> n < 0)
  {
    if n >= 0 {
      assert IsDigit(NatText(n)[0]);
    }
  }

  lemma IntTextInjective(m: int, n: int)
    requires IntText(m) == IntText(n)
    ensures m == n
  {
    IntTextSign(m);
    IntTextSign(n);
    if m < 0 && n < 0 {
      assert NatText(-m) == IntText(m)[1..];
      NatTextInjective(-m, -n);
    } else if m >= 0 && n >= 0 {
      NatTextInjective(m, n);
    }
  }

  lemma IntTextNoComma(n: int)
    ensures NoComma(IntText(n))
  {
    var d := NatText(if n < 0 then -n else n);
    assert forall i :: 0 <= i < |d| ==> d[i] != ',';
  }

  lemma HexValueAppend(s: string, c: char)
    requires AllHexDigits(s) && IsHexDigit(c)
    ensures AllHexDigits(s + [c]) && HexValue(s + [c]) == HexValue(s) * 16 + HexDigitValue(c)
  {
    assert (s + [c])[..|s + [c]| - 1] == s;
  }

  /** A slice of a slice is a slice of the whole. */
  lemma SliceOfSlice<T>(s: seq<T>, a: nat, b: nat, c: nat, d: nat)
    requires a <= b <= |s| && c <= d <= b - a
    ensures s[a..b][c..d] == s[a + c..a + d]
    ensures c == 0 ==> s[a..b][..d] == s[a..a + d]
    ensures d == b - a ==> s[a..b][c..] == s[a + c..b]
  {
    forall i | 0 <= i < d - c
      ensures s[a..b][c..d][i] == s[a + c..a + d][i]
    {
    }
    assert s[a..b][c..d] == s[a + c..a + d];
  }

  /** One `Join` step: the first element, the separator, and the join of the rest. */
  lemma JoinCons<T>(x: seq<T>, xs: seq<seq<T>>, sep: seq<T>)
    requires xs != []
    ensures Join([x] + xs, sep) == x + sep + Join(xs, sep)
  {
    assert ([x] + xs)[1..] == xs;
  }

  lemma {:induction false} CommaIndexAfter(u: string, s: string)
    requires NoComma(u)
    ensures CommaIndex(u + ", " + s) == |u|
  {
    if u != [] {
      assert (u + ", " + s)[1..] == u[1..] + ", " + s;
      CommaIndexAfter(u[1..], s);
    }
  }

  /**
   * Two comma-free heads followed by ", " split a string in one way only:
   * the comma after the head is the first comma of the string.
   */
  lemma CommaSplitUnique(u: string, s: string, v: string, t: string)
    requires NoComma(u) && NoComma(v)
    requires u + ", " + s == v + ", " + t
    ensures u == v && s == t
  {
    var x := u + ", " + s;
    CommaIndexAfter(u, s);
    CommaIndexAfter(v, t);
    assert u == x[..|u|];
    assert v == x[..|v|];
    assert s == x[|u| + 2..];
    assert t == x[|v| + 2..];
  }

  /** Hexadecimal text reads back as the number it was written from. */
  lemma {:induction false} NatHexTextValue(n: nat)
    ensures AllHexDigits(NatHexText(n)) && HexValue(NatHexText(n)) == n
    decreases n
  {
    if n >= 16 {
      NatHexTextValue(n / 16);
      HexValueAppend(NatHexText(n / 16), HexDigitChar(n % 16));
    } else {
      assert [HexDigitChar(n)][..0] == [];
    }
  }

  lemma {:induction false} NatHexTextLength(n: nat)
    ensures n < 16 ==> |NatHexText(n)| == 1
    ensures 16 <= n < 256 ==> |NatHexText(n)| == 2
    decreases n
  {
    if n >= 16 {
      NatHexTextLength(n / 16);
    }
  }

  /** A leading zero does not change the value of hexadecimal text. */
  lemma {:induction false} HexValueLeadingZero(s: string)
    requires AllHexDigits(s)
    ensures AllHexDigits("0" + s) && HexValue("0" + s) == HexValue(s)
    decreases |s|
  {
    if s == [] {
      assert ("0" + s)[..0] == [];
    } else {
      var init := s[..|s| - 1];
      HexValueLeadingZero(init);
      assert ("0" + s)[..|"0" + s| - 1] == "0" + init;
    }
  }

  /** Upper-casing hexadecimal digits keeps their value and gives `[A-F\d]` digits. */
  lemma {:induction false} HexValueToUpper(s: string)
    requires AllHexDigits(s)
    ensures AllHexDigits(ToUpper(s)) && HexValue(ToUpper(s)) == HexValue(s)
    ensures forall i :: 0 <= i < |s| ==> IsUpperHexDigit(ToUpper(s)[i])
    decreases |s|
  {
    if s != [] {
      var init := s[..|s| - 1];
      HexValueToUpper(init);
      assert ToUpper(s)[..|s| - 1] == ToUpper(init);
    }
  }

  /** Lower-casing leaves `[a-f\d]` text unchanged. */
  lemma LowerHexToLower(s: string)
    requires forall i :: 0 <= i < |s| ==> IsLowerHexDigit(s[i])
    ensures ToLower(s) == s
  {
  }

  /** How often `c` occurs in `s`. */
  function Occurrences(c: char, s: string): nat
    decreases |s|
  {
    if s == [] then 0 else (if s[0] == c then 1 else 0) + Occurrences(c, s[1..])
  }

  lemma {:induction false} OccurrencesAppend(c: char, s: string, t: string)
    ensures Occurrences(c, s + t) == Occurrences(c, s) + Occurrences(c, t)
    decreases |s|
  {
    if s == [] {
      assert s + t == t;
    } else {
      assert (s + t)[1..] == s[1..] + t;
      OccurrencesAppend(c, s[1..], t);
    }
  }

  lemma {:induction false} OccurrencesNone(c: char, s: string)
    requires forall i :: 0 <= i < |s| ==> s[i] != c
    ensures Occurrences(c, s) == 0
    decreases |s|
  {
    if s != [] {
      OccurrencesNone(c, s[1..]);
    }
  }
}

