/**
 * The numeric token grammars of the colour strings (src/colorful.js:191-196),
 * each written alternative by alternative as the regular expression states it,
 * and the numeric characterisation of each one.
 */
module Tokens {
  import opened Text

  /** `255|25[0-4]|2[0-4]\d|([0-1]?\d)?\d`, matched against a whole token. */
  predicate IsBase256Token(t: string) {
    t == "255"
    || (|t| == 3 && t[0] == '2' && t[1] == '5' && '0' <= t[2] <= '4')
    || (|t| == 3 && t[0] == '2' && '0' <= t[1] <= '4' && IsDigit(t[2]))
    || (|t| == 3 && '0' <= t[0] <= '1' && IsDigit(t[1]) && IsDigit(t[2]))
    || (|t| == 2 && IsDigit(t[0]) && IsDigit(t[1]))
    || (|t| == 1 && IsDigit(t[0]))
  }

  /** `100(\.0+)?|\d{0,2}(\.\d+)|\d{1,2}`: the number in front of a `%`. */
  predicate IsPercentToken(t: string) {
    t == "100"
    || (|t| >= 5 && t[..4] == "100." && AllZeros(t[4..]))
    || (|t| >= 2 && t[0] == '.' && AllDigits(t[1..]))
    || (|t| >= 3 && IsDigit(t[0]) && t[1] == '.' && AllDigits(t[2..]))
    || (|t| >= 4 && IsDigit(t[0]) && IsDigit(t[1]) && t[2] == '.' && AllDigits(t[3..]))
    || (|t| == 1 && IsDigit(t[0]))
    || (|t| == 2 && IsDigit(t[0]) && IsDigit(t[1]))
  }

  /** `1(\.0+)?|0?\.\d+|0`: an alpha value, and an `AgColor` channel. */
  predicate IsFractionToken(t: string) {
    t == "1"
    || (|t| >= 3 && t[..2] == "1." && AllZeros(t[2..]))
    || (|t| >= 2 && t[0] == '.' && AllDigits(t[1..]))
    || (|t| >= 3 && t[..2] == "0." && AllDigits(t[2..]))
    || t == "0"
  }

  datatype NumberKind = Base256 | Percent | Fraction

  predicate IsToken(k: NumberKind, t: string) {
    match k
    case Base256 => IsBase256Token(t)
    case Percent => IsPercentToken(t)
    case Fraction => IsFractionToken(t)
  }

  // ---------------------------------------------------------------------
  // Shape of numerals

  /** A numeral is a non-empty run of digits and points. */
  lemma NumeralShape(t: string)
    requires IsNumeral(t)
    ensures |t| > 0 && forall i :: 0 <= i < |t| ==> IsNumeralChar(t[i])
  {
    var k := DigitRun(t);
    forall i | 0 <= i < |t| ensures IsNumeralChar(t[i]) {
      if i < k {
        assert t[..k][i] == t[i];
      } else if i > k {
        assert t[k + 1..][i - k - 1] == t[i];
      }
    }
  }

  /** A numeral made of `d` and `.f` splits at its point into `d` and `f`. */
  lemma NumeralSplit(d: string, f: string)
    requires AllDigits(d) && AllDigits(f) && f != []
    ensures IsNumeral(d + "." + f) && IntPart(d + "." + f) == d && FracPart(d + "." + f) == f
  {
    var t := d + "." + f;
    assert t == d + ("." + f);
    SpanPrefix(d, "." + f, IsDigit);
    assert t[..|d|] == d;
    assert t[|d| + 1..] == f;
  }

  /** A numeral without a point is its own integer part. */
  lemma NumeralWhole(d: string)
    requires AllDigits(d) && d != []
    ensures IsNumeral(d) && IntPart(d) == d && FracPart(d) == ""
    ensures NumberValue(d) == DigitsValue(d) as real
  {
    SpanPrefix(d, "", IsDigit);
    assert d + "" == d;
    assert d[..|d|] == d;
  }

  /** Every numeral is `d` or `d.f`, read off its integer and fractional parts. */
  lemma NumeralParts(t: string)
    requires IsNumeral(t)
    ensures t == IntPart(t) || t == IntPart(t) + "." + FracPart(t)
    ensures t == IntPart(t) ==> FracPart(t) == ""
    ensures t != IntPart(t) ==> FracPart(t) != []
  {
    var k := DigitRun(t);
    if k < |t| {
      assert t == t[..k] + "." + t[k + 1..];
    }
  }

  // ---------------------------------------------------------------------
  // Numeric characterisations

  lemma ThreeDigits(t: string)
    requires |t| == 3 && AllDigits(t)
    ensures DigitsValue(t) == 100 * DigitValue(t[0]) + 10 * DigitValue(t[1]) + DigitValue(t[2])
  {
    var u := t[..2];
    assert u[..1] == t[..1] && u[1] == t[1];
    TwoDigits(u);
  }

  lemma TwoDigits(t: string)
    requires |t| == 2 && AllDigits(t)
    ensures DigitsValue(t) == 10 * DigitValue(t[0]) + DigitValue(t[1])
  {
    OneDigit(t[..1]);
  }

  lemma OneDigit(t: string)
    requires |t| == 1 && AllDigits(t)
    ensures DigitsValue(t) == DigitValue(t[0])
  {
    assert t[..0] == [];
  }

  /** The base-256 grammar accepts exactly the one- to three-digit numbers up to 255. */
  lemma Base256TokenIff(t: string)
    ensures IsBase256Token(t) <==> AllDigits(t) && 1 <= |t| <= 3 && DigitsValue(t) <= 255
  {
    if AllDigits(t) && |t| == 3 {
      ThreeDigits(t);
    } else if AllDigits(t) && |t| == 2 {
      TwoDigits(t);
    } else if AllDigits(t) && |t| == 1 {
      OneDigit(t);
    }
  }

  /** An accepted base-256 token is a numeral denoting an integer in [0, 255]. */
  lemma Base256TokenValue(t: string)
    requires IsBase256Token(t)
    ensures IsNumeral(t) && NumberValue(t) == DigitsValue(t) as real && DigitsValue(t) <= 255
  {
    Base256TokenIff(t);
    NumeralWhole(t);
  }

  /** The value of a numeral is its integer part plus a fraction in [0, 1). */
  lemma NumberValueRange(t: string)
    requires IsNumeral(t)
    ensures DigitsValue(IntPart(t)) as real <= NumberValue(t) < DigitsValue(IntPart(t)) as real + 1.0
    ensures NumberValue(t) == DigitsValue(IntPart(t)) as real <==> AllZeros(FracPart(t))
  {
    FractionValueRange(FracPart(t));
  }

  /**
   * The percent grammar accepts exactly the numerals of value at most 100
   * whose integer part has at most two digits or is `100`.
   */
  lemma PercentTokenIff(t: string)
    ensures IsPercentToken(t) <==>
      IsNumeral(t) && NumberValue(t) <= 100.0 && (|IntPart(t)| <= 2 || IntPart(t) == "100")
  {
    if IsPercentToken(t) {
      PercentTokenForward(t);
    }
    if IsNumeral(t) && NumberValue(t) <= 100.0 && (|IntPart(t)| <= 2 || IntPart(t) == "100") {
      PercentTokenBackward(t);
    }
  }

  lemma PercentTokenForward(t: string)
    requires IsPercentToken(t)
    ensures IsNumeral(t) && NumberValue(t) <= 100.0 && (|IntPart(t)| <= 2 || IntPart(t) == "100")
  {
    if t == "100" {
      NumeralWhole(t);
      ThreeDigits(t);
    } else if |t| >= 5 && t[..4] == "100." && AllZeros(t[4..]) {
      assert t == "100" + "." + t[4..];
      NumeralSplit("100", t[4..]);
      ThreeDigits("100");
      FractionValueRange(t[4..]);
    } else if |t| >= 2 && t[0] == '.' && AllDigits(t[1..]) {
      assert t == "" + "." + t[1..];
      NumeralSplit("", t[1..]);
      FractionValueRange(t[1..]);
    } else if |t| >= 3 && IsDigit(t[0]) && t[1] == '.' && AllDigits(t[2..]) {
      assert t == t[..1] + "." + t[2..];
      NumeralSplit(t[..1], t[2..]);
      OneDigit(t[..1]);
      FractionValueRange(t[2..]);
    } else if |t| >= 4 && IsDigit(t[0]) && IsDigit(t[1]) && t[2] == '.' && AllDigits(t[3..]) {
      assert t == t[..2] + "." + t[3..];
      NumeralSplit(t[..2], t[3..]);
      TwoDigits(t[..2]);
      FractionValueRange(t[3..]);
    } else if |t| == 1 {
      NumeralWhole(t);
      OneDigit(t);
    } else {
      NumeralWhole(t);
      TwoDigits(t);
    }
  }

  lemma PercentTokenBackward(t: string)
    requires IsNumeral(t) && NumberValue(t) <= 100.0 && (|IntPart(t)| <= 2 || IntPart(t) == "100")
    ensures IsPercentToken(t)
  {
    var d, f := IntPart(t), FracPart(t);
    NumeralParts(t);
    NumberValueRange(t);
    if d == "100" {
      ThreeDigits(d);
      if t != d {
        assert t[..4] == "100." && t[4..] == f;
      }
    } else if t == d {
      assert |t| == 1 || |t| == 2;
    } else if |d| == 0 {
      assert t[1..] == f;
    } else if |d| == 1 {
      assert t[2..] == f;
    } else {
      assert t[3..] == f;
    }
  }

  /**
   * The fraction grammar accepts exactly the numerals of value at most 1
   * whose integer part is empty, `0` or `1`.
   */
  lemma FractionTokenIff(t: string)
    ensures IsFractionToken(t) <==>
      IsNumeral(t) && NumberValue(t) <= 1.0 && (IntPart(t) == "" || IntPart(t) == "0" || IntPart(t) == "1")
  {
    if IsFractionToken(t) {
      FractionTokenForward(t);
    }
    if IsNumeral(t) && NumberValue(t) <= 1.0 && (IntPart(t) == "" || IntPart(t) == "0" || IntPart(t) == "1") {
      FractionTokenBackward(t);
    }
  }

  lemma FractionTokenForward(t: string)
    requires IsFractionToken(t)
    ensures IsNumeral(t) && NumberValue(t) <= 1.0 && (IntPart(t) == "" || IntPart(t) == "0" || IntPart(t) == "1")
  {
    if t == "1" || t == "0" {
      NumeralWhole(t);
      OneDigit(t);
    } else if |t| >= 3 && t[..2] == "1." && AllZeros(t[2..]) {
      assert t == "1" + "." + t[2..];
      NumeralSplit("1", t[2..]);
      OneDigit("1");
      FractionValueRange(t[2..]);
    } else if |t| >= 2 && t[0] == '.' && AllDigits(t[1..]) {
      assert t == "" + "." + t[1..];
      NumeralSplit("", t[1..]);
      FractionValueRange(t[1..]);
    } else {
      assert t == "0" + "." + t[2..];
      NumeralSplit("0", t[2..]);
      OneDigit("0");
      FractionValueRange(t[2..]);
    }
  }

  lemma FractionTokenBackward(t: string)
    requires IsNumeral(t) && NumberValue(t) <= 1.0 && (IntPart(t) == "" || IntPart(t) == "0" || IntPart(t) == "1")
    ensures IsFractionToken(t)
  {
    var d, f := IntPart(t), FracPart(t);
    NumeralParts(t);
    NumberValueRange(t);
    if t != d {
      if d == "" {
        assert t[1..] == f;
      } else {
        OneDigit(d);
        assert t[..2] == d + "." && t[2..] == f;
      }
    }
  }

  /** Every token of every kind is a numeral, hence a non-empty run of digits and points. */
  lemma TokenIsNumeral(k: NumberKind, t: string)
    requires IsToken(k, t)
    ensures IsNumeral(t)
    ensures |t| > 0 && forall i :: 0 <= i < |t| ==> IsNumeralChar(t[i])
  {
    match k {
      case Base256 => Base256TokenValue(t);
      case Percent => PercentTokenForward(t);
      case Fraction => FractionTokenForward(t);
    }
    NumeralShape(t);
  }

  /** The value range of each kind: [0, 255] for base 256, [0, 100] for percent, [0, 1] for fraction. */
  lemma TokenRange(k: NumberKind, t: string)
    requires IsToken(k, t)
    ensures IsNumeral(t) && 0.0 <= NumberValue(t)
    ensures k == Base256 ==> NumberValue(t) <= 255.0 && NumberValue(t) == NumberValue(t).Floor as real
    ensures k == Percent ==> NumberValue(t) <= 100.0
    ensures k == Fraction ==> NumberValue(t) <= 1.0
  {
    TokenIsNumeral(k, t);
    NumberValueRange(t);
    match k
    case Base256 => Base256TokenValue(t);
    case Percent => PercentTokenForward(t);
    case Fraction => FractionTokenForward(t);
  }

  /** Out-of-range channel texts are no tokens, so a colour holding them is rejected rather than clamped. */
  lemma OutOfRangeTokens()
    ensures !IsBase256Token("256") && !IsBase256Token("-1") && !IsBase256Token("1.5")
    ensures !IsPercentToken("100.01") && !IsPercentToken("101") && !IsPercentToken("-1")
    ensures !IsFractionToken("1.5") && !IsFractionToken("-0.5")
  {
    assert !AllZeros("100.01"[4..]) by {
      assert "100.01"[4..][1] == '1';
    }
    assert !AllZeros("1.5"[2..]) by {
      assert "1.5"[2..][0] == '5';
    }
  }
}
