/**
 * What `equals` and `strictlyEquals` (src/colorful.js:597-628) decide, stated
 * on the channels: `equals` compares the rounded channels within the
 * tolerance and the alpha exactly, `strictlyEquals` the rounded percentages
 * and the alpha. Both read the alpha through its text: what they decide for
 * any formatter is stated on the alpha texts (`RgbaTextSplit`,
 * `PercentRgbaSplit`, `EqualsAlikeAlphas`), and the statements on the alphas
 * themselves require that the two alphas at hand print differently unless
 * they are equal. `toDecimalNotation` (src/colorful.js:448-468) gives up that
 * promise for alphas it writes with `toFixed(20)`.
 */
module Equality {
  import opened Wrappers
  import opened Text
  import opened Colors

  // ---------------------------------------------------------------------
  // Reading texts apart

  /** Four items of which the first three have no comma are recovered from their `, `-join. */
  lemma JoinSplit(a: seq<string>, b: seq<string>)
    requires |a| == 4 && |b| == 4
    requires forall i :: 0 <= i < 3 ==> NoComma(a[i]) && NoComma(b[i])
    requires Join(a, ", ") == Join(b, ", ")
    ensures a == b
  {
    JoinHead(a, b);
    JoinSplit3(a[1..], b[1..]);
    assert a == [a[0]] + a[1..] && b == [b[0]] + b[1..];
  }

  /** Three items of which the first two have no comma are recovered from their `, `-join. */
  lemma JoinSplit3(a: seq<string>, b: seq<string>)
    requires |a| == 3 && |b| == 3
    requires forall i :: 0 <= i < 2 ==> NoComma(a[i]) && NoComma(b[i])
    requires Join(a, ", ") == Join(b, ", ")
    ensures a == b
  {
    JoinHead(a, b);
    JoinHead(a[1..], b[1..]);
    assert a[1..][1..] == [a[2]] && b[1..][1..] == [b[2]];
    assert a == [a[0]] + a[1..] && a[1..] == [a[1]] + a[1..][1..];
    assert b == [b[0]] + b[1..] && b[1..] == [b[1]] + b[1..][1..];
  }

  /** The comma-free heads of two equal `, `-joins agree, and so do the joins of the rest. */
  lemma JoinHead(a: seq<string>, b: seq<string>)
    requires |a| >= 2 && |b| >= 2 && NoComma(a[0]) && NoComma(b[0])
    requires Join(a, ", ") == Join(b, ", ")
    ensures a[0] == b[0] && Join(a[1..], ", ") == Join(b[1..], ", ")
  {
    CommaSplitUnique(a[0], Join(a[1..], ", "), b[0], Join(b[1..], ", "));
  }

  /** A text between fixed brackets is recovered from the bracketed text. */
  lemma Unwrap(pre: string, x: string, y: string, post: string)
    requires pre + x + post == pre + y + post
    ensures x == y
  {
    var s := pre + x + post;
    assert x == s[|pre|..|s| - |post|];
    assert y == s[|pre|..|s| - |post|];
  }

  // ---------------------------------------------------------------------
  // asRGBA

  /** `asRGBA` texts agree exactly when the rounded channels and the alpha texts do. */
  lemma RgbaTextSplit(m: RawColor, t: RawColor, fmt: real -> string)
    ensures RgbaText(m, fmt) == RgbaText(t, fmt) <==> RgbArray(m) == RgbArray(t) && fmt(m.a) == fmt(t.a)
  {
    if RgbaText(m, fmt) == RgbaText(t, fmt) {
      var a := IntTexts(RgbArray(m)) + [fmt(m.a)];
      var b := IntTexts(RgbArray(t)) + [fmt(t.a)];
      Unwrap("rgba(", Join(a, ", "), Join(b, ", "), ")");
      forall i | 0 <= i < 3
        ensures NoComma(a[i]) && NoComma(b[i])
      {
        IntTextNoComma(RgbArray(m)[i]);
        IntTextNoComma(RgbArray(t)[i]);
      }
      JoinSplit(a, b);
      assert fmt(m.a) == a[3] == b[3] == fmt(t.a);
      forall i | 0 <= i < 3
        ensures RgbArray(m)[i] == RgbArray(t)[i]
      {
        assert a[i] == b[i];
        IntTextInjective(RgbArray(m)[i], RgbArray(t)[i]);
      }
    }
  }

  /**
   * `asRGBA` texts agree exactly when the rounded channels and the alphas do,
   * for alphas the formatter does not print alike.
   */
  lemma RgbaTextIff(m: RawColor, t: RawColor, fmt: real -> string)
    requires fmt(m.a) == fmt(t.a) ==> m.a == t.a
    ensures RgbaText(m, fmt) == RgbaText(t, fmt) <==> RgbArray(m) == RgbArray(t) && m.a == t.a
  {
    RgbaTextSplit(m, t, fmt);
  }

  // ---------------------------------------------------------------------
  // asRGB and asPercentRGB

  /** `asRGB` texts agree exactly when the rounded channels do. */
  lemma RgbTextIff(x: seq<int>, y: seq<int>)
    requires |x| == 3 && |y| == 3
    ensures RgbText(x) == RgbText(y) <==> x == y
  {
    if RgbText(x) == RgbText(y) {
      var a, b := IntTexts(x), IntTexts(y);
      Unwrap("rgb(", Join(a, ", "), Join(b, ", "), ")");
      forall i | 0 <= i < 2
        ensures NoComma(a[i]) && NoComma(b[i])
      {
        IntTextNoComma(x[i]);
        IntTextNoComma(y[i]);
      }
      JoinSplit3(a, b);
      forall i | 0 <= i < 3
        ensures x[i] == y[i]
      {
        assert a[i] == b[i];
        IntTextInjective(x[i], y[i]);
      }
    }
  }

  /** `asPercentRGB` texts agree exactly when the rounded percentages do. */
  lemma PercentRgbTextIff(m: RawColor, t: RawColor)
    ensures "rgb(" + Join(PercentTexts(m), ", ") + ")" == "rgb(" + Join(PercentTexts(t), ", ") + ")"
      <==> Percents(m) == Percents(t)
  {
    var a, b := PercentTexts(m), PercentTexts(t);
    if "rgb(" + Join(a, ", ") + ")" == "rgb(" + Join(b, ", ") + ")" {
      Unwrap("rgb(", Join(a, ", "), Join(b, ", "), ")");
      JoinSplit3(a, b);
    }
    PercentTextsIff(m, t);
  }

  // ---------------------------------------------------------------------
  // equals

  /** The tolerance `equals` applies: none unless it is positive. */
  function Slack(tolerance: real): (r: real)
    ensures r >= 0.0 && (tolerance > 0.0 ==> r == tolerance)
  {
    if tolerance > 0.0 then tolerance else 0.0
  }

  /** Within a tolerance of nothing means equal. */
  lemma WithinNothing(x: int, y: int)
    ensures Within(x, y, 0.0) <==> x == y
  {
  }

  /**
   * `equals`: two colours are equal exactly when their alphas are and each
   * rounded channel lies within the tolerance (none unless positive) of the
   * other's. The alphas must be ones the formatter does not print alike.
   */
  lemma EqualsIff(m: RawColor, t: RawColor, tolerance: real, fmt: real -> string)
    requires fmt(m.a) == fmt(t.a) ==> m.a == t.a
    ensures RawEquals(Some(m), Some(t), tolerance, fmt) <==>
      m.a == t.a && forall i :: 0 <= i < 3 ==> Within(RgbArray(m)[i], RgbArray(t)[i], Slack(tolerance))
  {
    RgbaTextIff(m, t, fmt);
    var x, y := RgbArray(m), RgbArray(t);
    if tolerance <= 0.0 {
      forall i | 0 <= i < 3
        ensures Within(x[i], y[i], 0.0) <==> x[i] == y[i]
      {
        WithinNothing(x[i], y[i]);
      }
      assert x == y <==> x[0] == y[0] && x[1] == y[1] && x[2] == y[2];
    }
  }

  /** Something that is not a colour equals nothing. */
  lemma EqualsNeedsColors(m: Option<RawColor>, t: Option<RawColor>, tolerance: real, fmt: real -> string)
    ensures RawEquals(m, t, tolerance, fmt) ==> m.Some? && t.Some?
    ensures RawStrictlyEquals(m, t, fmt) ==> m.Some? && t.Some?
  {
  }

  /** Every colour equals itself, at any tolerance. */
  lemma EqualsReflexive(c: RawColor, tolerance: real, fmt: real -> string)
    ensures RawEquals(Some(c), Some(c), tolerance, fmt)
  {
  }

  /** `equals` does not depend on which of the two colours asks. */
  lemma EqualsSymmetric(m: RawColor, t: RawColor, tolerance: real, fmt: real -> string)
    ensures RawEquals(Some(m), Some(t), tolerance, fmt) == RawEquals(Some(t), Some(m), tolerance, fmt)
  {
  }

  /** A red and a slightly darker red: equal at tolerance 5, not at 4. */
  lemma ToleranceExample(fmt: real -> string)
    ensures RawEquals(Some(RawColor(255.0, 0.0, 0.0, 1.0)), Some(RawColor(250.0, 0.0, 0.0, 1.0)), 5.0, fmt)
    ensures !RawEquals(Some(RawColor(255.0, 0.0, 0.0, 1.0)), Some(RawColor(250.0, 0.0, 0.0, 1.0)), 4.0, fmt)
  {
    var m, t := RawColor(255.0, 0.0, 0.0, 1.0), RawColor(250.0, 0.0, 0.0, 1.0);
    var x, y := RgbArray(m), RgbArray(t);
    assert x == [255, 0, 0] && y == [250, 0, 0];
    assert Slack(5.0) == 5.0 && Slack(4.0) == 4.0;
    assert forall i :: 0 <= i < 3 ==> Within(x[i], y[i], 5.0);
    assert !Within(x[0], y[0], 4.0);
    RgbaTextSplit(m, t, fmt);
  }

  // ---------------------------------------------------------------------
  // asPercentRGBA

  /** The rounded percentages `asPercentRGBA` writes. */
  function Percents(c: RawColor): (ps: seq<int>)
    ensures |ps| == 3
  {
    [Percent(c.r), Percent(c.g), Percent(c.b)]
  }

  /** Percentage texts agree exactly when their rounded percentages do. */
  lemma PercentTextIff(x: real, y: real)
    ensures RawToPercent(x) == RawToPercent(y) <==> Percent(x) == Percent(y)
  {
    if RawToPercent(x) == RawToPercent(y) {
      IntTextInjective(Percent(x), Percent(y));
    }
  }

  /** `asPercentRGBA` texts agree exactly when the percentage texts and the alpha texts do. */
  lemma PercentRgbaSplit(m: RawColor, t: RawColor, fmt: real -> string)
    ensures PercentRgbaText(m, fmt) == PercentRgbaText(t, fmt) <==>
      PercentTexts(m) == PercentTexts(t) && fmt(m.a) == fmt(t.a)
  {
    if PercentRgbaText(m, fmt) == PercentRgbaText(t, fmt) {
      var a := PercentTexts(m) + [fmt(m.a)];
      var b := PercentTexts(t) + [fmt(t.a)];
      Unwrap("rgba(", Join(a, ", "), Join(b, ", "), ")");
      JoinSplit(a, b);
      assert fmt(m.a) == a[3] == b[3] == fmt(t.a);
      assert PercentTexts(m) == a[..3] && PercentTexts(t) == b[..3];
    }
  }

  /**
   * `asPercentRGBA` texts agree exactly when the percentage texts and the
   * alphas do, for alphas the formatter does not print alike.
   */
  lemma PercentRgbaIff(m: RawColor, t: RawColor, fmt: real -> string)
    requires fmt(m.a) == fmt(t.a) ==> m.a == t.a
    ensures PercentRgbaText(m, fmt) == PercentRgbaText(t, fmt) <==> PercentTexts(m) == PercentTexts(t) && m.a == t.a
  {
    PercentRgbaSplit(m, t, fmt);
  }

  /** The percentage texts agree exactly when the rounded percentages do. */
  lemma PercentTextsIff(m: RawColor, t: RawColor)
    ensures PercentTexts(m) == PercentTexts(t) <==> Percents(m) == Percents(t)
  {
    PercentTextIff(m.r, t.r);
    PercentTextIff(m.g, t.g);
    PercentTextIff(m.b, t.b);
    var p, q := PercentTexts(m), PercentTexts(t);
    var x, y := Percents(m), Percents(t);
    assert p[0] == RawToPercent(m.r) && p[1] == RawToPercent(m.g) && p[2] == RawToPercent(m.b);
    assert q[0] == RawToPercent(t.r) && q[1] == RawToPercent(t.g) && q[2] == RawToPercent(t.b);
    assert p == q <==> p[0] == q[0] && p[1] == q[1] && p[2] == q[2];
    assert x == y <==> x[0] == y[0] && x[1] == y[1] && x[2] == y[2];
  }

  /**
   * `strictlyEquals`: two colours are strictly equal exactly when their
   * rounded percentages and their alphas are. The alphas must be ones the
   * formatter does not print alike.
   */
  lemma StrictlyEqualsIff(m: RawColor, t: RawColor, fmt: real -> string)
    requires fmt(m.a) == fmt(t.a) ==> m.a == t.a
    ensures RawStrictlyEquals(Some(m), Some(t), fmt) <==> Percents(m) == Percents(t) && m.a == t.a
  {
    PercentRgbaIff(m, t, fmt);
    PercentTextsIff(m, t);
  }

  /** Strict equality implies equality at every tolerance when the channels round alike. */
  lemma StrictlyEqualsRounded(m: RawColor, t: RawColor, tolerance: real, fmt: real -> string)
    requires RgbArray(m) == RgbArray(t) && RawStrictlyEquals(Some(m), Some(t), fmt)
    ensures RawEquals(Some(m), Some(t), tolerance, fmt)
  {
    PercentRgbaSplit(m, t, fmt);
  }

  /**
   * Alphas the formatter prints alike are not told apart: two colours whose
   * alphas print alike are equal when their channels round alike, and
   * strictly equal when their percentages do, whatever the two alphas are.
   */
  lemma EqualsAlikeAlphas(m: RawColor, t: RawColor, tolerance: real, fmt: real -> string)
    requires fmt(m.a) == fmt(t.a)
    ensures RgbArray(m) == RgbArray(t) ==> RawEquals(Some(m), Some(t), tolerance, fmt)
    ensures Percents(m) == Percents(t) ==> RawStrictlyEquals(Some(m), Some(t), fmt)
  {
    PercentTextsIff(m, t);
  }
}
