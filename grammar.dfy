/**
 * The nine colour grammars (src/colorful.js:191-214), the way `buildColorRx`
 * assembles each of them (273-283), `matchColor` (285-292), and the four
 * `get*Data` helpers that try the grammars in order and turn the captured
 * channels into numbers in the 0-255 domain (294-359).
 */
module Grammar {
  import opened Wrappers
  import opened Text
  import opened Tokens
  import opened Pattern

  /** The capture group a grammar repeats for each of its three channels. */
  datatype ChannelRx =
    | HexRx(width: nat, upper: bool)   // `([a-f\d]{2})`, `([A-F\d])`, ...
    | Base256Rx                        // rxRgbChannelBase256
    | PercentRx                        // rxRgbChannelPercent, the group followed by `\s*%`
    | FractionRx                       // rxRgbChannelFraction, which is rxAlpha

  /** The arguments of one `buildColorRx` call. */
  datatype ColorRx = ColorRx(prefix: string, channel: ChannelRx, withAlpha: bool)

  const RxHexLC := ColorRx("#", HexRx(2, false), false)
  const RxHexUC := ColorRx("#", HexRx(2, true), false)
  const RxHexShortLC := ColorRx("#", HexRx(1, false), false)
  const RxHexShortUC := ColorRx("#", HexRx(1, true), false)
  const RxRgbBase256 := ColorRx("rgb", Base256Rx, false)
  const RxRgbaBase256 := ColorRx("rgba", Base256Rx, true)
  const RxRgbPercent := ColorRx("rgb", PercentRx, false)
  const RxRgbaPercent := ColorRx("rgba", PercentRx, true)
  const RxAgColor := ColorRx("AgColor", FractionRx, true)

  /** The grammars each `get*Data` helper tries, in its order. */
  const HexGrammars: seq<ColorRx> := [RxHexLC, RxHexUC, RxHexShortLC, RxHexShortUC]
  const Base256Grammars: seq<ColorRx> := [RxRgbBase256, RxRgbaBase256]
  const PercentGrammars: seq<ColorRx> := [RxRgbPercent, RxRgbaPercent]
  const AgColorGrammars: seq<ColorRx> := [RxAgColor]

  /** All nine grammars in the order in which a colour string is tried against them. */
  const Grammars: seq<ColorRx> := HexGrammars + Base256Grammars + PercentGrammars + AgColorGrammars

  function ChannelPieces(c: ChannelRx): seq<Piece> {
    match c
    case HexRx(w, u) => [Hex(w, u)]
    case Base256Rx => [Num(Base256)]
    case PercentRx => [Num(Percent), Ws, Lit('%')]
    case FractionRx => [Num(Fraction)]
  }

  /** rxAlpha */
  const AlphaPieces: seq<Piece> := [Num(Fraction)]

  /** A literal string, character by character. */
  function Lits(s: string): (ps: seq<Piece>)
    ensures |ps| == |s| && forall i :: 0 <= i < |s| ==> ps[i] == Lit(s[i])
  {
    seq(|s|, i requires 0 <= i < |s| => Lit(s[i]))
  }

  /**
   * `buildColorRx(prefix, channel, withAlpha)`: optional white space, the
   * prefix, for a functional notation an opening parenthesis, the channels
   * (and the alpha) separated by commas, a closing parenthesis, optional
   * white space; hex notations have no parentheses and no separators.
   */
  function BuildColorRx(g: ColorRx): (ps: seq<Piece>)
    ensures |ps| >= |g.prefix| + 2 && ps[0] == Ws && ps[|ps| - 1] == Ws
  {
    var isHex := g.prefix == "#";
    var separator := if isHex then [] else [Ws, Lit(','), Ws];
    var suffix := if isHex then [] else [Ws, Lit(')')];
    var prefix := Lits(g.prefix) + (if isHex then [] else [Ws, Lit('('), Ws]);
    var ch := ChannelPieces(g.channel);
    var channels := [ch, ch, ch] + (if g.withAlpha then [AlphaPieces] else []);
    [Ws] + prefix + Join(channels, separator) + suffix + [Ws]
  }

  /** The capture group of a channel. */
  function ChannelGroup(c: ChannelRx): Piece {
    match c
    case HexRx(w, u) => Hex(w, u)
    case Base256Rx => Num(Base256)
    case PercentRx => Num(Percent)
    case FractionRx => Num(Fraction)
  }

  /** The capture groups of a grammar: three channels, then the alpha if it has one. */
  function Groups(g: ColorRx): seq<Piece> {
    var c := ChannelGroup(g.channel);
    [c, c, c] + (if g.withAlpha then [Num(Fraction)] else [])
  }

  predicate ChannelToken(c: ChannelRx, t: string) {
    FitsPiece(ChannelGroup(c), t)
  }

  /** The shape the nine grammars share: a hex notation, or a functional one with a visible name. */
  predicate WellFormed(g: ColorRx) {
    if g.prefix == "#" then g.channel.HexRx? && 1 <= g.channel.width <= 2 && !g.withAlpha
    else |g.prefix| > 0 && !IsSpace(g.prefix[0]) && !g.channel.HexRx?
  }

  // ---------------------------------------------------------------------
  // Matching

  /** The result of `matchColor`: `isMatch`, the three channel texts, and the alpha text. */
  datatype MatchData = NoMatch | Matched(rgb: seq<string>, a: Option<string>)

  /** `matchColor(color, rx)` */
  function MatchColor(color: string, g: ColorRx): (data: MatchData)
    ensures data.Matched? ==> |data.rgb| == 3 && (data.a.Some? <==> g.withAlpha)
    ensures data.Matched? ==> forall i :: 0 <= i < 3 ==> ChannelToken(g.channel, data.rgb[i])
    ensures data.Matched? && data.a.Some? ==> IsFractionToken(data.a.value)
  {
    GroupsOf(g);
    match Match(BuildColorRx(g), color)
    case None => NoMatch
    case Some(cs) =>
      assert forall i :: 0 <= i < 3 ==> CaptureGroups(BuildColorRx(g))[i] == ChannelGroup(g.channel);
      Matched(cs[..3], if 3 < |cs| then Some(cs[3]) else None)
  }

  // ---------------------------------------------------------------------
  // Channel values

  /**
   * The number a channel text stands for in the 0-255 domain: a hex pair
   * read in base 16, a hex digit doubled first, a base-256 number as it is,
   * a percentage times 255/100 and a fraction times 255.
   */
  function ChannelValue(c: ChannelRx, t: string): real
    requires ChannelToken(c, t)
  {
    ChannelNumeral(c, t);
    match c
    case HexRx(w, _) => HexValue(if w == 1 then t + t else t) as real
    case Base256Rx => NumberValue(t)
    case PercentRx => NumberValue(t) * 255.0 / 100.0
    case FractionRx => NumberValue(t) * 255.0
  }

  /** The channel data a colour string yields: three channel values and the alpha text, if any. */
  datatype ChannelData = NoData | Data(rgb: seq<real>, a: Option<string>)

  /** The channel data of one grammar: the values of its channel captures and its alpha text. */
  function GrammarData(color: string, g: ColorRx): (d: ChannelData)
    ensures d.Data? <==> MatchColor(color, g).Matched?
    ensures d.Data? ==> |d.rgb| == 3 && d.a == MatchColor(color, g).a
  {
    match MatchColor(color, g)
    case NoMatch => NoData
    case Matched(rgb, a) =>
      Data([ChannelValue(g.channel, rgb[0]), ChannelValue(g.channel, rgb[1]), ChannelValue(g.channel, rgb[2])], a)
  }

  /** The channel data of the first grammar of `gs` that `color` matches. */
  function FirstMatch(gs: seq<ColorRx>, color: string): (d: ChannelData)
    ensures d.Data? ==> |d.rgb| == 3 && (d.a.Some? ==> IsFractionToken(d.a.value))
    decreases |gs|
  {
    if gs == [] then NoData
    else if GrammarData(color, gs[0]).Data? then GrammarData(color, gs[0])
    else FirstMatch(gs[1..], color)
  }

  /** `getHexData`: long form in lower then upper case, then the short form, whose digits are doubled. */
  method GetHexData(color: string) returns (data: ChannelData)
    ensures data == FirstMatch(HexGrammars, color)
  {
    var m := MatchColor(color, RxHexLC);
    if !m.Matched? {
      m := MatchColor(color, RxHexUC);
    }
    if !m.Matched? {
      m := MatchColor(color, RxHexShortLC);
      if !m.Matched? {
        m := MatchColor(color, RxHexShortUC);
      }
      if m.Matched? {
        ShortHexTokens(color);
        m := m.(rgb := [m.rgb[0] + m.rgb[0], m.rgb[1] + m.rgb[1], m.rgb[2] + m.rgb[2]]);
      }
    } else {
      LongHexTokens(color);
    }
    if m.Matched? {
      data := Data([HexValue(m.rgb[0]) as real, HexValue(m.rgb[1]) as real, HexValue(m.rgb[2]) as real], m.a);
    } else {
      data := NoData;
    }
    FirstMatchOf4(RxHexLC, RxHexUC, RxHexShortLC, RxHexShortUC, color);
    FirstMatchOf2(RxHexShortLC, RxHexShortUC, color);
  }

  /** `getBase256Data`: `rgb(...)`, then `rgba(...)`, with base-256 channels. */
  method GetBase256Data(color: string) returns (data: ChannelData)
    ensures data == FirstMatch(Base256Grammars, color)
  {
    var m := MatchColor(color, RxRgbBase256);
    if !m.Matched? {
      m := MatchColor(color, RxRgbaBase256);
    }
    if m.Matched? {
      ChannelNumeral(Base256Rx, m.rgb[0]);
      ChannelNumeral(Base256Rx, m.rgb[1]);
      ChannelNumeral(Base256Rx, m.rgb[2]);
      data := Data([NumberValue(m.rgb[0]), NumberValue(m.rgb[1]), NumberValue(m.rgb[2])], m.a);
    } else {
      data := NoData;
    }
    FirstMatchOf2(RxRgbBase256, RxRgbaBase256, color);
    ghost var d1, d2 := GrammarData(color, RxRgbBase256), GrammarData(color, RxRgbaBase256);
    assert data == if d1.Data? then d1 else d2;
  }

  /** `getPercentData`: `rgb(...)`, then `rgba(...)`, with percentages scaled to 0-255. */
  method GetPercentData(color: string) returns (data: ChannelData)
    ensures data == FirstMatch(PercentGrammars, color)
  {
    var m := MatchColor(color, RxRgbPercent);
    if !m.Matched? {
      m := MatchColor(color, RxRgbaPercent);
    }
    if m.Matched? {
      ChannelNumeral(PercentRx, m.rgb[0]);
      ChannelNumeral(PercentRx, m.rgb[1]);
      ChannelNumeral(PercentRx, m.rgb[2]);
      data := Data([NumberValue(m.rgb[0]) * 255.0 / 100.0, NumberValue(m.rgb[1]) * 255.0 / 100.0,
                    NumberValue(m.rgb[2]) * 255.0 / 100.0], m.a);
    } else {
      data := NoData;
    }
    FirstMatchOf2(RxRgbPercent, RxRgbaPercent, color);
    ghost var d1, d2 := GrammarData(color, RxRgbPercent), GrammarData(color, RxRgbaPercent);
    assert data == if d1.Data? then d1 else d2;
  }

  /** `getAgColorData`: `AgColor(...)` with fractions scaled to 0-255. */
  method GetAgColorData(color: string) returns (data: ChannelData)
    ensures data == FirstMatch(AgColorGrammars, color)
  {
    var m := MatchColor(color, RxAgColor);
    if m.Matched? {
      ChannelNumeral(FractionRx, m.rgb[0]);
      ChannelNumeral(FractionRx, m.rgb[1]);
      ChannelNumeral(FractionRx, m.rgb[2]);
      data := Data([NumberValue(m.rgb[0]) * 255.0, NumberValue(m.rgb[1]) * 255.0, NumberValue(m.rgb[2]) * 255.0], m.a);
    } else {
      data := NoData;
    }
    FractionData(RxAgColor, color);
    FirstMatchOf1(RxAgColor, color);
  }

  // ---------------------------------------------------------------------
  // Lemmas

  /** The data of a grammar of fractions: its three captures scaled to 0-255, and its alpha text. */
  lemma FractionData(g: ColorRx, color: string)
    requires g.channel == FractionRx
    ensures var m := MatchColor(color, g);
      m.Matched? ==>
        IsNumeral(m.rgb[0]) && IsNumeral(m.rgb[1]) && IsNumeral(m.rgb[2]) &&
        GrammarData(color, g) ==
          Data([NumberValue(m.rgb[0]) * 255.0, NumberValue(m.rgb[1]) * 255.0, NumberValue(m.rgb[2]) * 255.0], m.a)
  {
    var m := MatchColor(color, g);
    if m.Matched? {
      ChannelNumeral(FractionRx, m.rgb[0]);
      ChannelNumeral(FractionRx, m.rgb[1]);
      ChannelNumeral(FractionRx, m.rgb[2]);
    }
  }

  lemma FirstMatchOf1(g: ColorRx, color: string)
    ensures FirstMatch([g], color) == GrammarData(color, g)
  {
    assert [g][1..] == [];
  }

  lemma FirstMatchOf2(g: ColorRx, h: ColorRx, color: string)
    ensures FirstMatch([g, h], color) ==
      if GrammarData(color, g).Data? then GrammarData(color, g) else GrammarData(color, h)
  {
    assert [g, h][1..] == [h];
    FirstMatchOf1(h, color);
  }

  lemma FirstMatchOf4(g1: ColorRx, g2: ColorRx, g3: ColorRx, g4: ColorRx, color: string)
    ensures FirstMatch([g1, g2, g3, g4], color) ==
      if GrammarData(color, g1).Data? then GrammarData(color, g1)
      else if GrammarData(color, g2).Data? then GrammarData(color, g2)
      else FirstMatch([g3, g4], color)
  {
    assert [g1, g2, g3, g4][1..] == [g2, g3, g4];
    assert [g2, g3, g4][1..] == [g3, g4];
  }

  /** Trying one list of grammars and then another is trying their concatenation. */
  lemma {:induction false} FirstMatchAppend(gs: seq<ColorRx>, hs: seq<ColorRx>, color: string)
    ensures FirstMatch(gs + hs, color) ==
      if FirstMatch(gs, color).NoData? then FirstMatch(hs, color) else FirstMatch(gs, color)
    decreases |gs|
  {
    if gs == [] {
      assert gs + hs == hs;
    } else {
      assert (gs + hs)[0] == gs[0] && (gs + hs)[1..] == gs[1..] + hs;
      FirstMatchAppend(gs[1..], hs, color);
    }
  }

  lemma Join3<T>(x: seq<T>, y: seq<T>, z: seq<T>, sep: seq<T>)
    ensures Join([x, y, z], sep) == x + sep + y + sep + z
  {
    JoinCons(x, [y, z], sep);
    JoinCons(y, [z], sep);
    assert [x] + [y, z] == [x, y, z];
    assert [y] + [z] == [y, z];
  }

  lemma Join4<T>(w: seq<T>, x: seq<T>, y: seq<T>, z: seq<T>, sep: seq<T>)
    ensures Join([w, x, y, z], sep) == w + sep + x + sep + y + sep + z
  {
    JoinCons(w, [x, y, z], sep);
    Join3(x, y, z, sep);
    assert [w] + [x, y, z] == [w, x, y, z];
  }

  /** Hex pairs and digits are hex digits; the other channel tokens are numerals. */
  lemma ChannelNumeral(c: ChannelRx, t: string)
    requires ChannelToken(c, t)
    ensures c.HexRx? ==> AllHexDigits(t)
    ensures !c.HexRx? ==> IsNumeral(t)
  {
    match c {
      case HexRx(w, u) =>
      case Base256Rx => TokenIsNumeral(Base256, t);
      case PercentRx => TokenIsNumeral(Percent, t);
      case FractionRx => TokenIsNumeral(Fraction, t);
    }
  }

  /** What the long hex forms capture, and the values `getHexData` makes of it. */
  lemma LongHexTokens(color: string)
    ensures var m := MatchColor(color, RxHexLC);
      var m' := if m.Matched? then m else MatchColor(color, RxHexUC);
      m'.Matched? ==>
        AllHexDigits(m'.rgb[0]) && AllHexDigits(m'.rgb[1]) && AllHexDigits(m'.rgb[2])
        && Data([HexValue(m'.rgb[0]) as real, HexValue(m'.rgb[1]) as real, HexValue(m'.rgb[2]) as real], m'.a)
           == if m.Matched? then GrammarData(color, RxHexLC) else GrammarData(color, RxHexUC)
  {
    var m := MatchColor(color, RxHexLC);
    var g := if m.Matched? then RxHexLC else RxHexUC;
    var m' := MatchColor(color, g);
    if m'.Matched? {
      ChannelNumeral(g.channel, m'.rgb[0]);
      ChannelNumeral(g.channel, m'.rgb[1]);
      ChannelNumeral(g.channel, m'.rgb[2]);
    }
  }

  /** What the short hex forms capture, and the values `getHexData` makes of it once doubled. */
  lemma ShortHexTokens(color: string)
    ensures var m := MatchColor(color, RxHexShortLC);
      var m' := if m.Matched? then m else MatchColor(color, RxHexShortUC);
      m'.Matched? ==>
        AllHexDigits(m'.rgb[0] + m'.rgb[0]) && AllHexDigits(m'.rgb[1] + m'.rgb[1])
        && AllHexDigits(m'.rgb[2] + m'.rgb[2])
        && Data([HexValue(m'.rgb[0] + m'.rgb[0]) as real, HexValue(m'.rgb[1] + m'.rgb[1]) as real,
                 HexValue(m'.rgb[2] + m'.rgb[2]) as real], m'.a)
           == if m.Matched? then GrammarData(color, RxHexShortLC) else GrammarData(color, RxHexShortUC)
  {
    var m := MatchColor(color, RxHexShortLC);
    var g := if m.Matched? then RxHexShortLC else RxHexShortUC;
    var m' := MatchColor(color, g);
    if m'.Matched? {
      ChannelNumeral(g.channel, m'.rgb[0]);
      ChannelNumeral(g.channel, m'.rgb[1]);
      ChannelNumeral(g.channel, m'.rgb[2]);
    }
  }

  lemma ChannelGroups(c: ChannelRx)
    ensures CaptureGroups(ChannelPieces(c)) == [ChannelGroup(c)]
  {
    var ps := ChannelPieces(c);
    if c.PercentRx? {
      assert ps[1..] == [Ws, Lit('%')] && ps[1..][1..] == [Lit('%')] && ps[1..][1..][1..] == [];
      assert CaptureGroups([Lit('%')]) == [];
      assert CaptureGroups(ps[1..]) == [];
    }
  }

  lemma {:induction false} NoCaptureGroups(ps: seq<Piece>)
    requires forall i :: 0 <= i < |ps| ==> !IsCapture(ps[i])
    ensures CaptureGroups(ps) == []
    decreases |ps|
  {
    if ps != [] {
      assert forall i :: 0 <= i < |ps[1..]| ==> ps[1..][i] == ps[i + 1];
      NoCaptureGroups(ps[1..]);
    }
  }

  lemma FrameGroups(pre: seq<Piece>, body: seq<Piece>, suf: seq<Piece>)
    requires CaptureGroups(pre) == [] && CaptureGroups(suf) == []
    ensures CaptureGroups([Ws] + pre + body + suf + [Ws]) == CaptureGroups(body)
  {
    CaptureGroupsAppend([Ws], pre);
    CaptureGroupsAppend([Ws] + pre, body);
    CaptureGroupsAppend([Ws] + pre + body, suf);
    CaptureGroupsAppend([Ws] + pre + body + suf, [Ws]);
  }

  lemma SeparatedGroups3(x: seq<Piece>, y: seq<Piece>, z: seq<Piece>, sep: seq<Piece>)
    requires CaptureGroups(sep) == []
    ensures CaptureGroups(Join([x, y, z], sep)) == CaptureGroups(x) + CaptureGroups(y) + CaptureGroups(z)
  {
    Join3(x, y, z, sep);
    CaptureGroupsAppend(x, sep);
    CaptureGroupsAppend(x + sep, y);
    CaptureGroupsAppend(x + sep + y, sep);
    CaptureGroupsAppend(x + sep + y + sep, z);
  }

  lemma SeparatedGroups4(w: seq<Piece>, x: seq<Piece>, y: seq<Piece>, z: seq<Piece>, sep: seq<Piece>)
    requires CaptureGroups(sep) == []
    ensures CaptureGroups(Join([w, x, y, z], sep)) ==
      CaptureGroups(w) + CaptureGroups(x) + CaptureGroups(y) + CaptureGroups(z)
  {
    JoinCons(w, [x, y, z], sep);
    assert [w] + [x, y, z] == [w, x, y, z];
    SeparatedGroups3(x, y, z, sep);
    CaptureGroupsAppend(w, sep);
    CaptureGroupsAppend(w + sep, Join([x, y, z], sep));
  }

  /** The capture groups of the channel list: three channel groups and the alpha group. */
  lemma ChannelListGroups(ch: seq<Piece>, c: Piece, withAlpha: bool, separator: seq<Piece>)
    requires CaptureGroups(separator) == [] && CaptureGroups(ch) == [c]
    ensures CaptureGroups(Join([ch, ch, ch] + (if withAlpha then [AlphaPieces] else []), separator))
      == [c, c, c] + (if withAlpha then [Num(Fraction)] else [])
  {
    if withAlpha {
      assert [ch, ch, ch] + [AlphaPieces] == [ch, ch, ch, AlphaPieces];
      assert CaptureGroups(AlphaPieces) == [Num(Fraction)];
      SeparatedGroups4(ch, ch, ch, AlphaPieces, separator);
    } else {
      assert [ch, ch, ch] + [] == [ch, ch, ch];
      SeparatedGroups3(ch, ch, ch, separator);
    }
  }

  /** The capture groups of a built grammar are its three channel groups and the alpha group. */
  lemma GroupsOf(g: ColorRx)
    ensures CaptureGroups(BuildColorRx(g)) == Groups(g)
  {
    var isHex := g.prefix == "#";
    var separator: seq<Piece> := if isHex then [] else [Ws, Lit(','), Ws];
    var suffix: seq<Piece> := if isHex then [] else [Ws, Lit(')')];
    var open: seq<Piece> := if isHex then [] else [Ws, Lit('('), Ws];
    var ch := ChannelPieces(g.channel);
    var channels := [ch, ch, ch] + (if g.withAlpha then [AlphaPieces] else []);
    NoCaptureGroups(separator);
    NoCaptureGroups(suffix);
    NoCaptureGroups(Lits(g.prefix) + open);
    ChannelGroups(g.channel);
    ChannelListGroups(ch, ChannelGroup(g.channel), g.withAlpha, separator);
    FrameGroups(Lits(g.prefix) + open, Join(channels, separator), suffix);
  }

  // ---------------------------------------------------------------------
  // The grammars are separated, so the matcher agrees with the regular expressions

  lemma {:induction false} LitsSeparated(s: string)
    ensures Separated(Lits(s))
    decreases |s|
  {
    if s != [] {
      assert Lits(s)[1..] == Lits(s[1..]);
      LitsSeparated(s[1..]);
    }
  }

  /** One channel between white space, closed by a comma or a parenthesis. */
  lemma BlockSeparated(x: seq<Piece>, c: char)
    requires x == ChannelPieces(Base256Rx) || x == ChannelPieces(PercentRx) || x == ChannelPieces(FractionRx)
    requires c == ',' || c == ')'
    ensures Separated([Ws] + x + [Ws, Lit(c)])
  {
    var t := [Ws, Lit(c)];
    assert Separated(t[1..]);
    assert Separated(t);
    if x == ChannelPieces(PercentRx) {
      var u := [Ws, Num(Percent), Ws, Lit('%'), Ws, Lit(c)];
      assert u == [Ws] + x + t;
      assert Separated(u[3..]);
      assert Separated(u[2..]);
      assert Separated(u[1..]);
    } else {
      var u := [Ws] + x + t;
      assert Separated(u[1..]);
    }
  }

  /** The head of a functional notation: white space, the name, white space and `(`. */
  lemma HeadSeparated(p: string)
    requires |p| > 0 && !IsSpace(p[0])
    ensures Separated([Ws] + Lits(p) + [Ws, Lit('(')])
  {
    var t := [Ws, Lit('(')];
    assert Separated(t[1..]);
    LitsSeparated(p);
    SeparatedAppend(Lits(p), t);
    assert ([Ws] + (Lits(p) + t))[1..] == Lits(p) + t;
    assert [Ws] + (Lits(p) + t) == [Ws] + Lits(p) + t;
  }

  /** A hex notation: white space, `#`, three hex groups and white space. */
  lemma HexShape(g: ColorRx)
    requires WellFormed(g) && g.prefix == "#"
    ensures var h := Hex(g.channel.width, g.channel.upper);
      BuildColorRx(g) == [Ws, Lit('#'), h, h, h, Ws]
  {
    var ch := ChannelPieces(g.channel);
    var h := Hex(g.channel.width, g.channel.upper);
    assert [ch, ch, ch] + [] == [ch, ch, ch];
    Join3(ch, ch, ch, []);
    assert Join([ch, ch, ch], []) == [h, h, h];
    assert Lits("#") + [] == [Lit('#')];
    assert BuildColorRx(g) == [Ws] + [Lit('#')] + [h, h, h] + [] + [Ws];
  }

  lemma HexSeparated(h: Piece)
    requires h.Hex? && h.width > 0
    ensures Separated([Ws, Lit('#'), h, h, h, Ws])
  {
    var u := [Ws, Lit('#'), h, h, h, Ws];
    assert Separated(u[5..]);
    assert Separated(u[4..]);
    assert Separated(u[3..]);
    assert Separated(u[2..]);
    assert Separated(u[1..]);
  }

  /** A functional notation is its head, one block per channel, and trailing white space. */
  lemma FunctionalShape(g: ColorRx)
    requires g.prefix != "#"
    ensures var ch := ChannelPieces(g.channel);
      var b := [Ws] + ch + [Ws, Lit(',')];
      var last := [Ws] + (if g.withAlpha then AlphaPieces else ch) + [Ws, Lit(')')];
      BuildColorRx(g) ==
        ([Ws] + Lits(g.prefix) + [Ws, Lit('(')]) + b + b + (if g.withAlpha then b else []) + last + [Ws]
  {
    var ch := ChannelPieces(g.channel);
    var separator := [Ws, Lit(','), Ws];
    if g.withAlpha {
      assert [ch, ch, ch] + [AlphaPieces] == [ch, ch, ch, AlphaPieces];
      Join4(ch, ch, ch, AlphaPieces, separator);
    } else {
      assert [ch, ch, ch] + [] == [ch, ch, ch];
      Join3(ch, ch, ch, separator);
    }
  }

  lemma FunctionalSeparated(g: ColorRx)
    requires WellFormed(g) && g.prefix != "#"
    ensures Separated(BuildColorRx(g))
  {
    var ch := ChannelPieces(g.channel);
    var head := [Ws] + Lits(g.prefix) + [Ws, Lit('(')];
    var b := [Ws] + ch + [Ws, Lit(',')];
    var last := [Ws] + (if g.withAlpha then AlphaPieces else ch) + [Ws, Lit(')')];
    HeadSeparated(g.prefix);
    BlockSeparated(ch, ',');
    BlockSeparated(if g.withAlpha then AlphaPieces else ch, ')');
    SeparatedAppend(head, b);
    SeparatedAppend(head + b, b);
    var s3 := head + b + b + (if g.withAlpha then b else []);
    if g.withAlpha {
      SeparatedAppend(head + b + b, b);
    } else {
      assert s3 == head + b + b;
    }
    SeparatedAppend(s3, last);
    assert Separated([Ws]);
    SeparatedAppend(s3 + last, [Ws]);
    FunctionalShape(g);
  }

  /** Each of the nine grammar shapes leaves its matcher no choice. */
  lemma GrammarSeparated(g: ColorRx)
    requires WellFormed(g)
    ensures Separated(BuildColorRx(g))
  {
    if g.prefix == "#" {
      HexShape(g);
      HexSeparated(Hex(g.channel.width, g.channel.upper));
    } else {
      FunctionalSeparated(g);
    }
  }

  lemma GrammarsWellFormed()
    ensures forall i :: 0 <= i < |Grammars| ==> WellFormed(Grammars[i])
  {
  }

  // ---------------------------------------------------------------------
  // Channel ranges

  lemma HexPairValue(t: string)
    requires |t| == 2 && AllHexDigits(t)
    ensures HexValue(t) == 16 * HexDigitValue(t[0]) + HexDigitValue(t[1]) <= 255
  {
    var d0, d1 := HexDigitValue(t[0]), HexDigitValue(t[1]);
    assert t[..1][..0] == [];
    assert t[..1][0] == t[0];
    assert HexValue(t[..1]) == d0;
    assert HexValue(t) == d0 * 16 + d1;
    assert d0 * 16 + d1 <= 15 * 16 + 15;
  }

  /** A short hex digit `d` stands for the pair `dd`, that is 17 times its value. */
  lemma ShortHexValue(u: bool, t: string)
    requires ChannelToken(HexRx(1, u), t)
    ensures ChannelValue(HexRx(1, u), t) == (17 * HexDigitValue(t[0])) as real
  {
    ChannelNumeral(HexRx(1, u), t);
    HexPairValue(t + t);
  }

  /** Every channel value lies in [0, 255]. */
  lemma ChannelValueRange(c: ChannelRx, t: string)
    requires ChannelToken(c, t) && (c.HexRx? ==> 1 <= c.width <= 2)
    ensures 0.0 <= ChannelValue(c, t) <= 255.0
  {
    ChannelNumeral(c, t);
    match c {
      case HexRx(w, u) =>
        if w == 1 {
          ShortHexValue(u, t);
        } else {
          HexPairValue(t);
        }
      case Base256Rx => TokenRange(Base256, t);
      case PercentRx => TokenRange(Percent, t);
      case FractionRx => TokenRange(Fraction, t);
    }
  }

  /** A base-256 channel value is an integer. */
  lemma Base256Integral(t: string)
    requires ChannelToken(Base256Rx, t)
    ensures ChannelValue(Base256Rx, t) == ChannelValue(Base256Rx, t).Floor as real
  {
    TokenRange(Base256, t);
  }

  lemma ChannelValuesRange(c: ChannelRx, ts: seq<string>)
    requires |ts| == 3 && (forall i :: 0 <= i < 3 ==> ChannelToken(c, ts[i]))
    requires c.HexRx? ==> 1 <= c.width <= 2
    ensures forall i :: 0 <= i < 3 ==> 0.0 <= ChannelValue(c, ts[i]) <= 255.0
  {
    forall i | 0 <= i < 3 {
      ChannelValueRange(c, ts[i]);
    }
  }

  /** The channel data of a well-formed grammar lie in [0, 255]. */
  lemma GrammarDataRange(color: string, g: ColorRx)
    requires WellFormed(g)
    ensures var d := GrammarData(color, g);
      d.Data? ==> forall i :: 0 <= i < 3 ==> 0.0 <= d.rgb[i] <= 255.0
  {
    var m := MatchColor(color, g);
    if m.Matched? {
      ChannelValuesRange(g.channel, m.rgb);
    }
  }

  /** Whatever grammar matches, the channels lie in [0, 255]. */
  lemma {:induction false} FirstMatchRange(gs: seq<ColorRx>, color: string)
    requires forall i :: 0 <= i < |gs| ==> WellFormed(gs[i])
    ensures var d := FirstMatch(gs, color);
      d.Data? ==> forall i :: 0 <= i < 3 ==> 0.0 <= d.rgb[i] <= 255.0
    decreases |gs|
  {
    if gs != [] {
      if GrammarData(color, gs[0]).Data? {
        GrammarDataRange(color, gs[0]);
      } else {
        assert forall i :: 0 <= i < |gs[1..]| ==> gs[1..][i] == gs[i + 1];
        FirstMatchRange(gs[1..], color);
        assert FirstMatch(gs, color) == FirstMatch(gs[1..], color);
      }
    }
  }

  // ---------------------------------------------------------------------
  // What the hex notations accept

  /** The pieces of a hex notation of width w. */
  function HexPattern(w: nat, u: bool): seq<Piece> {
    [Ws, Lit('#'), Hex(w, u), Hex(w, u), Hex(w, u), Ws]
  }

  lemma HexCaptured(w: nat, u: bool, f: seq<string>)
    requires |f| == 6
    ensures Captured(HexPattern(w, u), f) == [f[2], f[3], f[4]]
  {
    CapturedMiddle(Ws, Lit('#'), Hex(w, u), f);
  }

  /** Of a frame of two uncaptured pieces around three captured ones, the three are captured. */
  lemma CapturedMiddle(a: Piece, b: Piece, h: Piece, f: seq<string>)
    requires |f| == 6 && !IsCapture(a) && !IsCapture(b) && IsCapture(h)
    ensures Captured([a, b, h, h, h, a], f) == [f[2], f[3], f[4]]
  {
    var ps := [a, b, h, h, h, a];
    assert Captured(ps[5..], f[5..]) == [];
    assert Captured(ps[4..], f[4..]) == [f[4]];
    assert Captured(ps[3..], f[3..]) == [f[3], f[4]];
    assert Captured(ps[2..], f[2..]) == [f[2], f[3], f[4]];
  }

  /** The hex text a hex notation of width w accepts: `#`, 3w digits of its case, then white space. */
  predicate HexText(w: nat, u: bool, color: string) {
    |color| >= 1 + 3 * w && color[0] == '#'
    && (var digits := color[1..1 + 3 * w]; forall i :: 0 <= i < |digits| ==> HexClass(u, digits[i]))
    && (var tail := color[1 + 3 * w..]; forall i :: 0 <= i < |tail| ==> IsSpace(tail[i]))
  }

  /** The channel texts of such a hex text. */
  function HexGroups(w: nat, color: string): seq<string>
    requires |color| >= 1 + 3 * w
  {
    var digits := color[1..1 + 3 * w];
    [digits[..w], digits[w..2 * w], digits[2 * w..]]
  }

  /** The text of a cut of a hex notation that starts without white space. */
  lemma HexCutText(w: nat, u: bool, f: seq<string>)
    requires |f| == 6 && f[1] == "#"
    requires forall i :: 2 <= i < 5 ==> FitsPiece(Hex(w, u), f[i])
    requires FitsPiece(Ws, f[5])
    ensures HexText(w, u, f[1] + f[2] + f[3] + f[4] + f[5])
  {
    var color := f[1] + f[2] + f[3] + f[4] + f[5];
    assert color == "#" + (f[2] + f[3] + f[4]) + f[5];
    assert color[1..1 + 3 * w] == f[2] + f[3] + f[4];
    assert color[1 + 3 * w..] == f[5];
  }

  /** The cut of a hex text. */
  function HexFill(w: nat, color: string): (f: seq<string>)
    requires |color| >= 1 + 3 * w
    ensures |f| == 6
  {
    var digits := color[1..1 + 3 * w];
    ["", "#", digits[..w], digits[w..2 * w], digits[2 * w..], color[1 + 3 * w..]]
  }

  lemma HexFillFits(w: nat, u: bool, color: string)
    requires HexText(w, u, color)
    ensures Fits(HexPattern(w, u), HexFill(w, color))
  {
    var f := HexFill(w, color);
    assert FitsPiece(Hex(w, u), f[2]) && FitsPiece(Hex(w, u), f[3]) && FitsPiece(Hex(w, u), f[4]);
    FitsIff(HexPattern(w, u), f);
  }

  lemma HexFillConcat(w: nat, color: string)
    requires |color| >= 1 + 3 * w && color[0] == '#'
    ensures Concat(HexFill(w, color)) == color
  {
    var f := HexFill(w, color);
    var digits := color[1..1 + 3 * w];
    Concat6(f);
    assert digits == f[2] + f[3] + f[4];
    assert color == color[..1] + digits + color[1 + 3 * w..];
  }

  lemma HexCutComplete(w: nat, u: bool, color: string)
    requires w > 0 && HexText(w, u, color)
    ensures Match(HexPattern(w, u), color) == Some(HexGroups(w, color))
  {
    var ps := HexPattern(w, u);
    var f := HexFill(w, color);
    HexSeparated(Hex(w, u));
    HexFillFits(w, u, color);
    HexFillConcat(w, color);
    SplitComplete(ps, f);
    HexCaptured(w, u, f);
  }

  lemma HexCutSound(w: nat, u: bool, f: seq<string>, color: string)
    requires |color| > 0 && color[0] == '#' && Fits(HexPattern(w, u), f) && Concat(f) == color
    ensures HexText(w, u, color)
  {
    var ps := HexPattern(w, u);
    FitsIff(ps, f);
    assert |f| == 6;
    assert ps[0] == Ws && ps[1] == Lit('#') && ps[5] == Ws;
    assert forall i :: 2 <= i < 5 ==> ps[i] == Hex(w, u);
    Concat6(f);
    var rest := f[1] + f[2] + f[3] + f[4] + f[5];
    assert color == f[0] + rest;
    NoLeadingSpace(f[0], rest);
    HexCutText(w, u, f);
  }

  /** White space in front of a text that starts with `#` is empty. */
  lemma NoLeadingSpace(t: string, rest: string)
    requires forall i :: 0 <= i < |t| ==> IsSpace(t[i])
    requires |t + rest| > 0 && (t + rest)[0] == '#'
    ensures t == [] && t + rest == rest
  {
  }

  /**
   * On a text that starts with `#`, a hex notation of width w matches
   * exactly when `#` is followed by 3w digits of its case and then only
   * white space; its channels are the three groups of w digits.
   */
  lemma HexMatch(g: ColorRx, color: string)
    requires WellFormed(g) && g.prefix == "#" && |color| > 0 && color[0] == '#'
    ensures MatchColor(color, g).Matched? <==> HexText(g.channel.width, g.channel.upper, color)
    ensures HexText(g.channel.width, g.channel.upper, color) ==>
      MatchColor(color, g) == Matched(HexGroups(g.channel.width, color), None)
  {
    var w, u := g.channel.width, g.channel.upper;
    HexShape(g);
    assert BuildColorRx(g) == HexPattern(w, u);
    if Split(HexPattern(w, u), color).Some? {
      HexCutSound(w, u, Split(HexPattern(w, u), color).value, color);
    }
    if HexText(w, u, color) {
      HexCutComplete(w, u, color);
    }
  }

  /** `HexMatch` stated on the channel data: a hex grammar yields data exactly on its hex texts. */
  lemma HexAccepts(g: ColorRx, color: string)
    requires WellFormed(g) && g.prefix == "#" && |color| > 0 && color[0] == '#'
    ensures GrammarData(color, g).Data? <==> HexText(g.channel.width, g.channel.upper, color)
  {
    HexMatch(g, color);
  }

  /** The channels of a hex text are the values of its digit groups. */
  lemma HexData(g: ColorRx, color: string)
    requires WellFormed(g) && g.prefix == "#" && |color| > 0 && color[0] == '#'
    requires HexText(g.channel.width, g.channel.upper, color)
    ensures var t := HexGroups(g.channel.width, color);
      ChannelToken(g.channel, t[0]) && ChannelToken(g.channel, t[1]) && ChannelToken(g.channel, t[2])
      && GrammarData(color, g) ==
           Data([ChannelValue(g.channel, t[0]), ChannelValue(g.channel, t[1]), ChannelValue(g.channel, t[2])], None)
  {
    HexMatch(g, color);
  }

  /** The grammars are tried hex first, then the functional notations. */
  lemma HexFirst(color: string)
    ensures FirstMatch(Grammars, color) ==
      if FirstMatch(HexGrammars, color).Data? then FirstMatch(HexGrammars, color)
      else FirstMatch(Base256Grammars + PercentGrammars + AgColorGrammars, color)
  {
    assert Grammars == HexGrammars + (Base256Grammars + PercentGrammars + AgColorGrammars);
    FirstMatchAppend(HexGrammars, Base256Grammars + PercentGrammars + AgColorGrammars, color);
  }

  // ---------------------------------------------------------------------
  // The first visible character selects the notation

  /** Every grammar starts with white space and the first character of its prefix. */
  lemma Lead(g: ColorRx)
    requires WellFormed(g)
    ensures var ps := BuildColorRx(g); |ps| >= 2 && ps[0] == Ws && ps[1] == Lit(g.prefix[0])
  {
  }

  /** A text whose first character is visible and differs from the prefix's first does not match. */
  lemma LeadReject(g: ColorRx, color: string)
    requires WellFormed(g) && |color| > 0 && !IsSpace(color[0]) && color[0] != g.prefix[0]
    ensures MatchColor(color, g).NoMatch?
  {
    var ps := BuildColorRx(g);
    Lead(g);
    assert Take(ps[0], color) == Some(0);
    assert color[0..] == color;
    assert Take(ps[1], color).None?;
    assert Split(ps[1..], color).None?;
  }

  // ---------------------------------------------------------------------
  // Percent signs

  lemma {:induction false} LitsCount(s: string, c: char)
    ensures LitCount(Lits(s), c) == Occurrences(c, s)
    decreases |s|
  {
    if s != [] {
      assert Lits(s)[1..] == Lits(s[1..]);
      LitsCount(s[1..], c);
    }
  }

  lemma ChannelPercents(c: ChannelRx)
    ensures LitCount(ChannelPieces(c), '%') == if c.PercentRx? then 1 else 0
  {
    var ch := ChannelPieces(c);
    if c.PercentRx? {
      assert LitCount(ch[2..], '%') == 1;
      assert LitCount(ch[1..], '%') == 1;
    }
  }

  /** A piece list between white space and a closing literal that is not `%`. */
  lemma BlockPercents(x: seq<Piece>, c: char)
    requires c != '%'
    ensures LitCount([Ws] + x + [Ws, Lit(c)], '%') == LitCount(x, '%')
  {
    LitCountAppend([Ws], x, '%');
    LitCountAppend([Ws] + x, [Ws, Lit(c)], '%');
    var t := [Ws, Lit(c)];
    assert LitCount(t[1..], '%') == 0;
  }

  lemma HeadPercents(p: string)
    requires Occurrences('%', p) == 0
    ensures LitCount([Ws] + Lits(p) + [Ws, Lit('(')], '%') == 0
  {
    LitsCount(p, '%');
    BlockPercents(Lits(p), '(');
  }

  lemma FunctionalPercents(g: ColorRx)
    requires WellFormed(g) && g.prefix != "#" && Occurrences('%', g.prefix) == 0
    ensures LitCount(BuildColorRx(g), '%') == if g.channel.PercentRx? then 3 else 0
  {
    var ch := ChannelPieces(g.channel);
    var head := [Ws] + Lits(g.prefix) + [Ws, Lit('(')];
    var b := [Ws] + ch + [Ws, Lit(',')];
    var x := if g.withAlpha then AlphaPieces else ch;
    var last := [Ws] + x + [Ws, Lit(')')];
    var mid := if g.withAlpha then b else [];
    FunctionalShape(g);
    HeadPercents(g.prefix);
    ChannelPercents(g.channel);
    BlockPercents(ch, ',');
    BlockPercents(x, ')');
    assert LitCount(AlphaPieces, '%') == 0;
    assert LitCount(mid, '%') == (if g.withAlpha then LitCount(b, '%') else 0);
    LitCountAppend(head, b, '%');
    LitCountAppend(head + b, b, '%');
    LitCountAppend(head + b + b, mid, '%');
    LitCountAppend(head + b + b + mid, last, '%');
    LitCountAppend(head + b + b + mid + last, [Ws], '%');
  }

  /** A grammar has one `%` per channel when its channels are percentages, and none otherwise. */
  lemma PercentPieces(g: ColorRx)
    requires WellFormed(g) && Occurrences('%', g.prefix) == 0
    ensures LitCount(BuildColorRx(g), '%') == if g.channel.PercentRx? then 3 else 0
  {
    if g.prefix == "#" {
      HexShape(g);
      var u := HexPattern(g.channel.width, g.channel.upper);
      assert BuildColorRx(g) == u;
      assert LitCount(u[5..], '%') == 0;
      assert LitCount(u[4..], '%') == 0;
      assert LitCount(u[3..], '%') == 0;
      assert LitCount(u[2..], '%') == 0;
      assert LitCount(u[1..], '%') == 0;
    } else {
      FunctionalPercents(g);
    }
  }

  /** A text a grammar matches holds exactly as many `%` as the grammar's pattern. */
  lemma MatchPercentSigns(g: ColorRx, color: string)
    requires WellFormed(g) && Occurrences('%', g.prefix) == 0 && MatchColor(color, g).Matched?
    ensures Occurrences('%', color) == if g.channel.PercentRx? then 3 else 0
  {
    var f := Split(BuildColorRx(g), color).value;
    CutOccurrences(BuildColorRx(g), f, '%');
    PercentPieces(g);
  }

  /** A colour text that any grammar accepts has no `%` or one after each of its three channels. */
  lemma {:induction false} FirstMatchPercentSigns(gs: seq<ColorRx>, color: string)
    requires forall i :: 0 <= i < |gs| ==> WellFormed(gs[i]) && Occurrences('%', gs[i].prefix) == 0
    ensures FirstMatch(gs, color).Data? ==> Occurrences('%', color) == 0 || Occurrences('%', color) == 3
    decreases |gs|
  {
    if gs != [] {
      if GrammarData(color, gs[0]).Data? {
        MatchPercentSigns(gs[0], color);
      } else {
        FirstMatchPercentSigns(gs[1..], color);
      }
    }
  }

  lemma GrammarPrefixes()
    ensures forall i :: 0 <= i < |Grammars| ==> Occurrences('%', Grammars[i].prefix) == 0
  {
    assert Occurrences('%', "rgba") == 0;
    assert Occurrences('%', "AgColor") == 0;
  }
}

