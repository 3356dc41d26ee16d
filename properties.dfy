/**
 * What colorful.js promises about colour strings and colours, proved of the
 * model: text starting with `#` is read as hex notation only, `asHex` reads
 * back as the rounded channels, a mixed-case hex text is no colour, and a
 * string colour holds no `%` or one per channel.
 */
module Properties {
  import opened Wrappers
  import opened Text
  import opened Keywords
  import opened Tokens
  import opened Pattern
  import opened Grammar
  import opened Colors

  // ---------------------------------------------------------------------
  // Text starting with `#`

  /** No keyword starts with a character that is not a lower-case letter. */
  lemma NotKeyword(s: string)
    requires |s| > 0 && !IsLowerLetter(s[0])
    ensures Lookup(s).None?
  {
    if Lookup(s).Some? {
      assert false;
    }
  }

  /** Text starting with `#` fails both grammars of a functional notation. */
  lemma NotFunctionalPair(g: ColorRx, h: ColorRx, s: string)
    requires WellFormed(g) && WellFormed(h) && g.prefix[0] == 'r' && h.prefix[0] == 'r'
    requires |s| > 0 && s[0] == '#'
    ensures FirstMatch([g, h], s).NoData?
  {
    LeadReject(g, s);
    LeadReject(h, s);
    FirstMatchOf2(g, h, s);
  }

  /** Text starting with `#` fails every functional notation. */
  lemma NotFunctional(s: string)
    requires |s| > 0 && s[0] == '#'
    ensures FirstMatch(Base256Grammars + PercentGrammars + AgColorGrammars, s).NoData?
  {
    NotFunctionalPair(RxRgbBase256, RxRgbaBase256, s);
    NotFunctionalPair(RxRgbPercent, RxRgbaPercent, s);
    LeadReject(RxAgColor, s);
    FirstMatchOf1(RxAgColor, s);
    FirstMatchAppend(Base256Grammars, PercentGrammars, s);
    FirstMatchAppend(Base256Grammars + PercentGrammars, AgColorGrammars, s);
  }

  /** The hex notations have no alpha. */
  lemma HexNoAlpha(s: string)
    ensures FirstMatch(HexGrammars, s).Data? ==> FirstMatch(HexGrammars, s).a.None?
  {
    FirstMatchOf4(RxHexLC, RxHexUC, RxHexShortLC, RxHexShortUC, s);
    FirstMatchOf2(RxHexShortLC, RxHexShortUC, s);
  }

  /** A string starting with `#` is neither a keyword nor `transparent`. */
  lemma HashNotNamed(s: string)
    requires |s| > 0 && s[0] == '#'
    ensures Lookup(s).None? && ToLower(s) != "transparent"
  {
    assert ToLower(s)[0] == '#';
    NotKeyword(s);
  }

  /** On a string starting with `#` only the hex grammars can match, and they capture no alpha. */
  lemma HashGrammars(s: string)
    requires |s| > 0 && s[0] == '#'
    ensures FirstMatch(Grammars, s) == FirstMatch(HexGrammars, s)
    ensures FirstMatch(HexGrammars, s).Data? ==> FirstMatch(HexGrammars, s).a.None?
  {
    HexFirst(s);
    NotFunctional(s);
    HexNoAlpha(s);
  }

  /** A string starting with `#` is a colour only by one of the hex notations, and then it is opaque. */
  lemma HashParse(s: string)
    requires |s| > 0 && s[0] == '#'
    ensures ParseString(s) ==
      match FirstMatch(HexGrammars, s)
      case NoData => None
      case Data(rgb, _) => Some(RawColor(rgb[0], rgb[1], rgb[2], 1.0))
  {
    HashNotNamed(s);
    ParseGrammars(s);
    HashGrammars(s);
  }

  // ---------------------------------------------------------------------
  // Hex texts

  /** Every character after `#` of a hex text is a digit of its case or white space. */
  lemma HexTextChar(w: nat, u: bool, s: string, k: nat)
    requires 1 <= k < |s|
    ensures HexText(w, u, s) ==> HexClass(u, s[k]) || IsSpace(s[k])
  {
    if HexText(w, u, s) {
      if k < 1 + 3 * w {
        assert s[1..1 + 3 * w][k - 1] == s[k];
      } else {
        assert s[1 + 3 * w..][k - 1 - 3 * w] == s[k];
      }
    }
  }

  /** The channels of a seven-character hex text: its three digit pairs, in base 16. */
  lemma LongHexData(g: ColorRx, s: string)
    requires g.prefix == "#" && g.channel.HexRx? && g.channel.width == 2 && !g.withAlpha
    requires |s| == 7 && s[0] == '#' && HexText(2, g.channel.upper, s)
    ensures AllHexDigits(s[1..3]) && AllHexDigits(s[3..5]) && AllHexDigits(s[5..7])
    ensures GrammarData(s, g) ==
      Data([HexValue(s[1..3]) as real, HexValue(s[3..5]) as real, HexValue(s[5..7]) as real], None)
  {
    SliceOfSlice(s, 1, 7, 0, 2);
    SliceOfSlice(s, 1, 7, 2, 4);
    SliceOfSlice(s, 1, 7, 4, 6);
    assert HexGroups(2, s) == [s[1..3], s[3..5], s[5..7]];
    HexData(g, s);
  }

  /** An `asHex` text with `#`: seven characters, a hex text of its case whose digit pairs are the rounded channels. */
  lemma AsHexText(c: Color, options: HexOptions)
    requires c.Valid() && c.IsOpaque() && options.prefix != Some(false)
    ensures var rgb := RgbArray(c.rawColor.value); var s := c.AsHex(options).value;
      |s| == 7 && s[0] == '#' && HexText(2, UpperCaseHex(options), s)
      && AllHexDigits(s[1..3]) && AllHexDigits(s[3..5]) && AllHexDigits(s[5..7])
      && HexValue(s[1..3]) == rgb[0] && HexValue(s[3..5]) == rgb[1] && HexValue(s[5..7]) == rgb[2]
  {
    SevenHex(c.AsHex(options).value, RgbArray(c.rawColor.value), UpperCaseHex(options));
  }

  /** `#` and three pairs of digits of one case make a hex text of width 2. */
  lemma SevenHex(s: string, rgb: seq<int>, upper: bool)
    requires HexShaped(s, 1, rgb, upper) && s[0] == '#'
    ensures |s| == 7 && HexText(2, upper, s)
    ensures AllHexDigits(s[1..3]) && AllHexDigits(s[3..5]) && AllHexDigits(s[5..7])
    ensures HexValue(s[1..3]) == rgb[0] && HexValue(s[3..5]) == rgb[1] && HexValue(s[5..7]) == rgb[2]
  {
    assert s[1..3] == s[1 + 2 * 0..1 + 2 * 0 + 2];
    assert s[3..5] == s[1 + 2 * 1..1 + 2 * 1 + 2];
    assert s[5..7] == s[1 + 2 * 2..1 + 2 * 2 + 2];
    forall i | 0 <= i < 6
      ensures HexClass(upper, s[1..7][i])
    {
      assert s[1..7][i] == s[i + 1];
    }
    assert s[7..] == [];
  }

  /** The hex grammars read an `asHex` text with `#` as the rounded channels. */
  lemma HexRoundData(c: Color, options: HexOptions)
    requires c.Valid() && c.IsOpaque() && options.prefix != Some(false)
    ensures var rgb := RgbArray(c.rawColor.value); var s := c.AsHex(options).value;
      |s| > 0 && s[0] == '#'
      && FirstMatch(HexGrammars, s) == Data([rgb[0] as real, rgb[1] as real, rgb[2] as real], None)
  {
    var s := c.AsHex(options).value;
    var rgb := RgbArray(c.rawColor.value);
    AsHexText(c, options);
    var d := Data([rgb[0] as real, rgb[1] as real, rgb[2] as real], None);
    if UpperCaseHex(options) && !HexText(2, false, s) {
      HexAccepts(RxHexLC, s);
      assert GrammarData(s, RxHexLC).NoData?;
      LongHexData(RxHexUC, s);
      assert GrammarData(s, RxHexUC) == d;
    } else {
      LongHexData(RxHexLC, s);
      assert GrammarData(s, RxHexLC) == d;
    }
    FirstMatchOf4(RxHexLC, RxHexUC, RxHexShortLC, RxHexShortUC, s);
  }

  /** The channels of a short hex text in upper case. */
  lemma ShortUpperData(s: string)
    requires s == "#09A"
    ensures GrammarData(s, RxHexShortUC) == Data([0.0, 153.0, 170.0], None)
  {
    assert HexText(1, true, s) by {
      assert s[1..4] == "09A";
      assert s[4..] == [];
    }
    var digits := s[1..4];
    assert digits == "09A";
    assert digits[..1] == "0";
    assert digits[1..2] == "9";
    assert digits[2..] == "A";
    assert HexGroups(1, s) == ["0", "9", "A"];
    ShortHexValue(true, "0");
    ShortHexValue(true, "9");
    ShortHexValue(true, "A");
    var c := HexRx(1, true);
    assert ChannelValue(c, "0") == 0.0 && ChannelValue(c, "9") == 153.0 && ChannelValue(c, "A") == 170.0;
    HexData(RxHexShortUC, s);
  }

  /** The hex grammars on `#09A`: only the upper-case short form matches, and it doubles each digit. */
  lemma ShortHexData()
    ensures FirstMatch(HexGrammars, "#09A") == Data([0.0, 153.0, 170.0], None)
  {
    var s := "#09A";
    HexTextChar(1, false, s, 3);
    assert !HexText(2, false, s) && !HexText(2, true, s) && !HexText(1, false, s);
    HexAccepts(RxHexLC, s);
    HexAccepts(RxHexUC, s);
    HexAccepts(RxHexShortLC, s);
    assert GrammarData(s, RxHexLC).NoData? && GrammarData(s, RxHexUC).NoData?;
    assert GrammarData(s, RxHexShortLC).NoData?;
    ShortUpperData(s);
    FirstMatchOf2(RxHexShortLC, RxHexShortUC, s);
    assert FirstMatch([RxHexShortLC, RxHexShortUC], s) == Data([0.0, 153.0, 170.0], None);
    FirstMatchOf4(RxHexLC, RxHexUC, RxHexShortLC, RxHexShortUC, s);
  }

  /**
   * `asHex` with the `#` reads back as the colour's rounded channels, fully
   * opaque.
   */
  lemma HexRoundTrip(c: Color, options: HexOptions)
    requires c.Valid() && c.IsOpaque() && options.prefix != Some(false)
    ensures var rgb := RgbArray(c.rawColor.value);
      ParseString(c.AsHex(options).value) == Some(RawColor(rgb[0] as real, rgb[1] as real, rgb[2] as real, 1.0))
  {
    HexRoundData(c, options);
    HashParse(c.AsHex(options).value);
  }

  /** A colour whose channels are integers and whose alpha is 1 reads back from `asHex` unchanged. */
  lemma HexRoundTripExact(c: Color, options: HexOptions)
    requires c.Valid() && c.IsOpaque() && options.prefix != Some(false)
    requires var raw := c.rawColor.value; raw.r == raw.r.Floor as real && raw.g == raw.g.Floor as real && raw.b == raw.b.Floor as real
    ensures ParseString(c.AsHex(options).value) == c.rawColor
  {
    var raw := c.rawColor.value;
    var rgb := RgbArray(raw);
    RoundIntegral(raw.r);
    RoundIntegral(raw.g);
    RoundIntegral(raw.b);
    assert rgb[0] == Round(raw.r) && rgb[1] == Round(raw.g) && rgb[2] == Round(raw.b);
    assert raw == RawColor(rgb[0] as real, rgb[1] as real, rgb[2] as real, 1.0);
    HexRoundTrip(c, options);
  }

  /** Rounding leaves an integer as it is. */
  lemma RoundIntegral(x: real)
    requires x == x.Floor as real
    ensures Round(x) as real == x
  {
    assert (x + 0.5).Floor == x.Floor;
  }



  /** The short form: each digit stands for itself doubled. */
  lemma ShortHexExample()
    ensures ParseString("#09A") == Some(RawColor(0.0, 153.0, 170.0, 1.0))
  {
    ShortHexData();
    HashParse("#09A");
  }

  /** No hex grammar accepts a text with both a lower-case and an upper-case hex letter after `#`. */
  lemma MixedCaseData(s: string, i: nat, j: nat)
    requires |s| > 0 && s[0] == '#' && 1 <= i < |s| && 1 <= j < |s|
    requires 'a' <= s[i] <= 'f' && 'A' <= s[j] <= 'F'
    ensures FirstMatch(HexGrammars, s).NoData?
  {
    HexTextChar(2, false, s, j);
    HexTextChar(1, false, s, j);
    HexTextChar(2, true, s, i);
    HexTextChar(1, true, s, i);
    NoHexData(s);
  }

  /** A text after `#` that is no hex text of either width or case has no hex data. */
  lemma NoHexData(s: string)
    requires |s| > 0 && s[0] == '#'
    requires !HexText(2, false, s) && !HexText(1, false, s) && !HexText(2, true, s) && !HexText(1, true, s)
    ensures FirstMatch(HexGrammars, s).NoData?
  {
    HexAccepts(RxHexLC, s);
    HexAccepts(RxHexUC, s);
    HexAccepts(RxHexShortLC, s);
    HexAccepts(RxHexShortUC, s);
    assert GrammarData(s, RxHexShortUC).NoData?;
    FirstMatchOf2(RxHexShortLC, RxHexShortUC, s);
    assert FirstMatch([RxHexShortLC, RxHexShortUC], s).NoData?;
    FirstMatchOf4(RxHexLC, RxHexUC, RxHexShortLC, RxHexShortUC, s);
  }

  /** A text after `#` with both a lower-case and an upper-case hex letter is no colour. */
  lemma MixedCaseRejected(s: string, i: nat, j: nat)
    requires |s| > 0 && s[0] == '#' && 1 <= i < |s| && 1 <= j < |s|
    requires 'a' <= s[i] <= 'f' && 'A' <= s[j] <= 'F'
    ensures ParseString(s).None?
  {
    MixedCaseData(s, i, j);
    HashParse(s);
  }

  // ---------------------------------------------------------------------
  // Percent signs

  /** Any spelling of `transparent` has no `%`. */
  lemma TransparentNoPercent(s: string)
    requires ToLower(s) == "transparent"
    ensures Occurrences('%', s) == 0
  {
    forall i | 0 <= i < |s|
      ensures s[i] != '%'
    {
      assert ToLower(s)[i] == LowerChar(s[i]);
    }
    OccurrencesNone('%', s);
  }

  /** A keyword has no `%`. */
  lemma KeywordNoPercent(s: string)
    requires Lookup(s).Some?
    ensures Occurrences('%', s) == 0
  {
    assert IsTableName(s);
    OccurrencesNone('%', s);
  }

  /** Whatever grammar accepts a text, the text has no `%` or three of them. */
  lemma GrammarsPercentSigns(s: string)
    ensures FirstMatch(Grammars, s).Data? ==> Occurrences('%', s) == 0 || Occurrences('%', s) == 3
  {
    GrammarsWellFormed();
    GrammarPrefixes();
    FirstMatchPercentSigns(Grammars, s);
  }

  /**
   * Percentages and plain numbers do not mix: a colour string has no `%`
   * at all or exactly one per channel.
   */
  lemma PercentMixing(s: string)
    ensures ParseString(s).Some? ==> Occurrences('%', s) == 0 || Occurrences('%', s) == 3
  {
    if Lookup(s).Some? {
      KeywordNoPercent(s);
    } else if ToLower(s) == "transparent" {
      TransparentNoPercent(s);
    } else {
      GrammarsPercentSigns(s);
    }
  }

  // ---------------------------------------------------------------------
  // Inputs, keywords and rounding

  /** Inputs of the wrong shape are no colour. */
  lemma NotAColorInputs(items: seq<string>, fields: map<string, string>)
    ensures ParseSpec(Other).None?
    ensures |items| != 3 && |items| != 4 ==> ParseSpec(List(items)).None?
    ensures !("r" in fields && "g" in fields && "b" in fields) ==> ParseSpec(Record(fields)).None?
  {
  }

  /** `transparent` is recognised in any case, as black with alpha 0. */
  lemma TransparentAnyCase(s: string)
    requires ToLower(s) == "transparent"
    ensures ParseString(s) == Some(RawColor(0.0, 0.0, 0.0, 0.0))
  {
    if Lookup(s).Some? {
      assert IsTableName(s);
      forall i | 0 <= i < |s|
        ensures ToLower(s)[i] == s[i]
      {
        assert IsLowerLetter(s[i]);
      }
      assert false;
    }
  }

  /** A colour is either opaque or transparent, never both. */
  lemma OpaqueOrTransparent(c: Color)
    requires c.Valid() && c.IsColor()
    ensures c.IsOpaque() != c.IsTransparent()
  {
  }

  /** `Math.round` rounds halves up, also below zero. */
  lemma RoundExamples()
    ensures Round(254.4999) == 254 && Round(254.5) == 255
    ensures Round(-0.5) == 0 && Round(-1.5) == -1
  {
  }
}
