/**
 * The input coercion `parseColor` and the `Color` value of colorful.js
 * (src/colorful.js:362-640): a colour is built once from any input, keeps
 * that input and its parsed raw value, and answers queries and conversions
 * from the raw value.
 */
module Colors {
  import opened Wrappers
  import opened Text
  import opened Keywords
  import opened Tokens
  import opened Grammar

  /** `_rawColor`: the channels in the 0-255 domain and the alpha value. */
  datatype RawColor = RawColor(r: real, g: real, b: real, a: real)

  /** Channels in [0, 255], alpha in [0, 1]. */
  predicate InRange(c: RawColor) {
    0.0 <= c.r <= 255.0 && 0.0 <= c.g <= 255.0 && 0.0 <= c.b <= 255.0 && 0.0 <= c.a <= 1.0
  }

  /**
   * The kinds of value `parseColor` tells apart. Array elements and object
   * values are given as the text `Array.prototype.join` makes of them.
   */
  datatype ColorInput =
    | FromColor(color: Color)                 // an existing `Color`
    | List(items: seq<string>)                // an array
    | Record(fields: map<string, string>)     // a plain object, by its own keys
    | Str(s: string)                          // a string
    | Other                                   // numbers, booleans, null, undefined

  // ---------------------------------------------------------------------
  // Specification of parseColor

  /** `+a` of the alpha text, or 1 when the grammar has no alpha. */
  function AlphaValue(a: Option<string>): real
    requires a.Some? ==> IsFractionToken(a.value)
  {
    if a.None? then 1.0
    else
      TokenIsNumeral(Fraction, a.value);
      NumberValue(a.value)
  }

  /** What a string denotes: a keyword of the table, `transparent` in any case, or the first grammar it matches. */
  function ParseString(s: string): Option<RawColor> {
    if Lookup(s).Some? then Some(KeywordColor(Lookup(s).value))
    else if ToLower(s) == "transparent" then Some(RawColor(0.0, 0.0, 0.0, 0.0))
    else DataColor(FirstMatch(Grammars, s))
  }

  /** A keyword's triple, opaque. */
  function KeywordColor(k: Rgb): RawColor {
    RawColor(k.r as real, k.g as real, k.b as real, 1.0)
  }

  /** The colour a grammar's channel data denote, the alpha 1 when absent. */
  function DataColor(d: ChannelData): Option<RawColor>
    requires d.Data? ==> |d.rgb| == 3 && (d.a.Some? ==> IsFractionToken(d.a.value))
  {
    match d
    case NoData => None
    case Data(rgb, a) => Some(RawColor(rgb[0], rgb[1], rgb[2], AlphaValue(a)))
  }

  /** The text an array or object of channel values is turned into: `rgb(...)` or `rgba(...)`. */
  function FunctionalText(items: seq<string>): string {
    (if |items| == 4 then "rgba" else "rgb") + "(" + Join(items, ", ") + ")"
  }

  /** The values of an object with keys r, g and b: a fourth one (its `a`, possibly absent) when it has four keys. */
  function RecordItems(fields: map<string, string>): seq<string>
    requires "r" in fields && "g" in fields && "b" in fields
  {
    [fields["r"], fields["g"], fields["b"]]
    + (if |fields| == 4 then [if "a" in fields then fields["a"] else ""] else [])
  }

  /** The raw colour `parseColor` yields for an input, or `None` for "not a colour". */
  function ParseSpec(x: ColorInput): Option<RawColor> {
    match x
    case FromColor(c) => c.rawColor
    case List(items) =>
      if |items| == 3 || |items| == 4 then ParseString(FunctionalText(items)) else None
    case Record(fields) =>
      if "r" in fields && "g" in fields && "b" in fields then ParseString(FunctionalText(RecordItems(fields)))
      else None
    case Str(s) => ParseString(s)
    case Other => None
  }

  // ---------------------------------------------------------------------
  // parseColor

  /** The alpha field of `parsed` while it is being built: absent, text from a grammar, or a number. */
  datatype AlphaField = Undefined | AlphaText(t: string) | AlphaNumber(v: real)

  /** The object `parsed` of `parseColor`. */
  datatype Parsed = Parsed(r: real, g: real, b: real, a: AlphaField)

  function FromRaw(c: RawColor): Parsed {
    Parsed(c.r, c.g, c.b, AlphaNumber(c.a))
  }

  /** `parsed` describes `raw` once its alpha is made a number, 1 when absent. */
  ghost predicate Describes(parsed: Option<Parsed>, raw: Option<RawColor>) {
    match parsed
    case None => raw.None?
    case Some(p) =>
      raw.Some? && p.r == raw.value.r && p.g == raw.value.g && p.b == raw.value.b
      && match p.a
         case Undefined => raw.value.a == 1.0
         case AlphaText(t) => IsFractionToken(t) && (TokenIsNumeral(Fraction, t); NumberValue(t) == raw.value.a)
         case AlphaNumber(v) => v == raw.value.a
  }

  /** The fallback chain of `parseColor` over the four families of notations. */
  method GetColorData(s: string) returns (data: ChannelData)
    ensures data == FirstMatch(Grammars, s)
  {
    data := GetHexData(s);
    if data.NoData? {
      data := GetBase256Data(s);
    }
    if data.NoData? {
      data := GetPercentData(s);
    }
    if data.NoData? {
      data := GetAgColorData(s);
    }
    FirstMatchAppend(HexGrammars, Base256Grammars, s);
    FirstMatchAppend(HexGrammars + Base256Grammars, PercentGrammars, s);
    FirstMatchAppend(HexGrammars + Base256Grammars + PercentGrammars, AgColorGrammars, s);
  }

  /**
   * `parseColor`: dispatch on the kind of input, run the grammars' fallback
   * chain on a string, then turn the alpha into a number, 1 when absent.
   * An array or object is turned into text and parsed again, as
   * `new Color(colorStr)._rawColor` does.
   */
  method ParseColor(color: ColorInput) returns (result: Option<RawColor>)
    ensures result == ParseSpec(color)
    decreases if color.Str? then 0 else 1, 2
  {
    var parsed := ParseInput(color);
    // Make sure alpha is a number, and 1 when it was not given.
    if parsed.Some? && parsed.value.a.AlphaText? {
      var t := parsed.value.a.t;
      TokenIsNumeral(Fraction, t);
      parsed := Some(parsed.value.(a := AlphaNumber(NumberValue(t))));
    }
    if parsed.Some? && parsed.value.a.Undefined? {
      parsed := Some(parsed.value.(a := AlphaNumber(1.0)));
    }
    if parsed.Some? {
      var p := parsed.value;
      result := Some(RawColor(p.r, p.g, p.b, p.a.v));
    } else {
      result := None;
    }
  }

  /** The dispatch of `parseColor` on the kind of input, before the alpha is made a number. */
  method ParseInput(color: ColorInput) returns (parsed: Option<Parsed>)
    ensures Describes(parsed, ParseSpec(color))
    decreases if color.Str? then 0 else 1, 1
  {
    parsed := None;
    if color.FromColor? {
      var raw := color.color.rawColor;
      if raw.Some? {
        parsed := Some(FromRaw(raw.value));
      }
    } else if color.List? && (|color.items| == 3 || |color.items| == 4) {
      parsed := ParseItems(color.items);
    } else if color.Record? {
      var fields := color.fields;
      if "r" in fields && "g" in fields && "b" in fields {
        var colorArr := [fields["r"], fields["g"], fields["b"]];
        if |fields| == 4 {
          colorArr := colorArr + [if "a" in fields then fields["a"] else ""];
        }
        assert colorArr == RecordItems(fields);
        parsed := ParseItems(colorArr);
      }
    } else if color.Str? {
      parsed := ParseText(color.s);
    }
  }

  /** The array and object branches of `parseColor`: the channel values as `rgb(...)` or `rgba(...)` text, parsed again. */
  method ParseItems(colorArr: seq<string>) returns (parsed: Option<Parsed>)
    ensures Describes(parsed, ParseString(FunctionalText(colorArr)))
    decreases 1, 0
  {
    var colorStr := FunctionalText(colorArr);
    var raw := ParseColor(Str(colorStr));
    parsed := None;
    if raw.Some? {
      parsed := Some(FromRaw(raw.value));
    }
  }

  /** The string branch of `parseColor`: a keyword, `transparent`, or the grammars' fallback chain. */
  method ParseText(s: string) returns (parsed: Option<Parsed>)
    ensures Describes(parsed, ParseString(s))
  {
    parsed := None;
    if Lookup(s).Some? {
      var k := Lookup(s).value;
      parsed := Some(Parsed(k.r as real, k.g as real, k.b as real, Undefined));
      ParseKeyword(s);
    } else if ToLower(s) == "transparent" {
      parsed := Some(Parsed(0.0, 0.0, 0.0, AlphaNumber(0.0)));
      ParseTransparent(s);
    } else {
      var data := GetColorData(s);
      if data.Data? {
        parsed := Some(Parsed(data.rgb[0], data.rgb[1], data.rgb[2],
                              if data.a.Some? then AlphaText(data.a.value) else Undefined));
      }
      DescribesData(data, parsed);
      ParseGrammars(s);
    }
  }

  /** The three ways a string denotes a colour, one at a time. */
  lemma ParseKeyword(s: string)
    requires Lookup(s).Some?
    ensures ParseString(s) == Some(KeywordColor(Lookup(s).value))
  {
  }

  lemma ParseTransparent(s: string)
    requires Lookup(s).None? && ToLower(s) == "transparent"
    ensures ParseString(s) == Some(RawColor(0.0, 0.0, 0.0, 0.0))
  {
  }

  lemma ParseGrammars(s: string)
    requires Lookup(s).None? && ToLower(s) != "transparent"
    ensures ParseString(s) == DataColor(FirstMatch(Grammars, s))
  {
  }

  /** The `parsed` object built from channel data describes the colour those data denote. */
  lemma DescribesData(d: ChannelData, parsed: Option<Parsed>)
    requires d.Data? ==> |d.rgb| == 3 && (d.a.Some? ==> IsFractionToken(d.a.value))
    requires parsed == if d.NoData? then None
      else Some(Parsed(d.rgb[0], d.rgb[1], d.rgb[2], if d.a.Some? then AlphaText(d.a.value) else Undefined))
    ensures Describes(parsed, DataColor(d))
  {
  }

  // ---------------------------------------------------------------------
  // Conversions

  /** `Math.round` (`Nums.round` at precision 0): the nearest integer, halves rounded up. */
  function Round(x: real): (n: int)
    ensures x - 0.5 < n as real <= x + 0.5
  {
    (x + 0.5).Floor
  }

  /** The options `asHex` reads; an absent option is `None`. */
  datatype HexOptions = HexOptions(upperCase: bool, lowerCase: Option<bool>, prefix: Option<bool>)

  const NoHexOptions := HexOptions(false, None, None)

  /** Upper case when `upperCase` is set or `lowerCase` is `false`. */
  predicate UpperCaseHex(options: HexOptions) {
    options.upperCase || options.lowerCase == Some(false)
  }

  /** `rawToHex`: the rounded channel in base 16, padded to two digits, in the case the options ask for. */
  function RawToHex(rawChannel: real, options: HexOptions): (hex: string)
    ensures 0 <= Round(rawChannel) <= 255 ==>
      |hex| == 2 && AllHexDigits(hex) && HexValue(hex) == Round(rawChannel)
      && forall i :: 0 <= i < 2 ==>
           (if UpperCaseHex(options) then IsUpperHexDigit(hex[i]) else IsLowerHexDigit(hex[i]))
  {
    var hex0 := IntHexText(Round(rawChannel));
    var hex := if |hex0| < 2 then "0" + hex0 else hex0;
    if 0 <= Round(rawChannel) <= 255 then
      PaddedHex(Round(rawChannel));
      if UpperCaseHex(options) then
        HexValueToUpper(hex);
        ToUpper(hex)
      else
        LowerHexToLower(hex);
        ToLower(hex)
    else if UpperCaseHex(options) then ToUpper(hex) else ToLower(hex)
  }

  /** Two lower-case hexadecimal digits of `n`, for `n` in [0, 255]. */
  lemma PaddedHex(n: nat)
    requires n <= 255
    ensures var h0 := NatHexText(n); var h := if |h0| < 2 then "0" + h0 else h0;
      |h| == 2 && AllHexDigits(h) && HexValue(h) == n && forall i :: 0 <= i < 2 ==> IsLowerHexDigit(h[i])
  {
    NatHexTextLength(n);
    NatHexTextValue(n);
    if n < 16 {
      HexValueLeadingZero(NatHexText(n));
    }
  }

  /** `rawToBase256`. */
  function RawToBase256(rawChannel: real): (n: int)
    ensures 0.0 <= rawChannel <= 255.0 ==> 0 <= n <= 255
  {
    Round(rawChannel)
  }

  /** The percentage `rawToPercent` rounds a channel to, at precision 0. */
  function Percent(rawChannel: real): (n: int)
    ensures 0.0 <= rawChannel <= 255.0 ==> 0 <= n <= 100
  {
    Round(rawChannel * 100.0 / 255.0)
  }

  /** `rawToPercent` at precision 0: the rounded percentage as integer text, then `%`. */
  function RawToPercent(rawChannel: real): (p: string)
    ensures NoComma(p) && |p| > 0 && p[|p| - 1] == '%' && p[..|p| - 1] == IntText(Percent(rawChannel))
  {
    IntTextNoComma(Percent(rawChannel));
    IntText(Percent(rawChannel)) + "%"
  }

  /** The channels of a raw colour, `_getRawArrayRgb`. */
  function RawArrayRgb(c: RawColor): seq<real> {
    [c.r, c.g, c.b]
  }

  /** `_asRGBArray`: the rounded channels. */
  function RgbArray(c: RawColor): (rgb: seq<int>)
    ensures |rgb| == 3
    ensures InRange(c) ==> forall i :: 0 <= i < 3 ==> 0 <= rgb[i] <= 255
  {
    seq(3, i requires 0 <= i < 3 => RawToBase256(RawArrayRgb(c)[i]))
  }

  /** The texts of integers. */
  function IntTexts(xs: seq<int>): (ts: seq<string>)
    ensures |ts| == |xs| && forall i :: 0 <= i < |xs| ==> ts[i] == IntText(xs[i])
  {
    seq(|xs|, i requires 0 <= i < |xs| => IntText(xs[i]))
  }

  // ---------------------------------------------------------------------
  // The Color value

  /** Why a guard fails: the message of the error it throws, by its content. */
  datatype ColorError =
    | NotAColor(input: ColorInput)   // "does not represent a valid color", with the input
    | NotOpaque(a: real)             // "required to be opaque", with the alpha
    | NotTransparent                 // "required to be transparent"

  class Color {
    /** `_input`: the value the colour was created from. */
    const input: ColorInput
    /** `_rawColor`: the parsed value, `None` when the input is not a colour. */
    const rawColor: Option<RawColor>

    /** Every colour's raw value is in range. */
    predicate Valid() {
      rawColor.Some? ==> InRange(rawColor.value)
    }

    /** `new Color(value)`. */
    constructor (value: ColorInput)
      requires value.FromColor? ==> value.color.Valid()
      ensures input == value && rawColor == ParseSpec(value)
      ensures Valid()
    {
      var parsed := ParseColor(value);
      ParseSpecRange(value);
      input := value;
      rawColor := parsed;
    }

    predicate IsColor() {
      rawColor.Some?
    }

    predicate IsOpaque() {
      IsColor() && rawColor.value.a == 1.0
    }

    predicate IsTransparent() {
      IsColor() && rawColor.value.a < 1.0
    }

    /** `ensureColor`: succeeds exactly for a colour. */
    function EnsureColor(): (r: Result<bool, ColorError>)
      ensures r.Success? <==> IsColor()
      ensures r.Failure? ==> r.error == NotAColor(input)
    {
      if !IsColor() then Failure(NotAColor(input)) else Success(true)
    }

    /** `ensureOpaque`: fails first as `ensureColor` does, then unless the colour is opaque. */
    function EnsureOpaque(): (r: Result<bool, ColorError>)
      ensures r.Success? <==> IsOpaque()
      ensures !IsColor() ==> r == EnsureColor()
      ensures IsColor() && !IsOpaque() ==> r == Failure(NotOpaque(rawColor.value.a))
    {
      if EnsureColor().Failure? then EnsureColor()
      else if !IsOpaque() then Failure(NotOpaque(rawColor.value.a))
      else Success(true)
    }

    /** `ensureTransparent`: fails first as `ensureColor` does, then unless the colour is transparent. */
    function EnsureTransparent(): (r: Result<bool, ColorError>)
      ensures r.Success? <==> IsTransparent()
      ensures !IsColor() ==> r == EnsureColor()
      ensures IsColor() && !IsTransparent() ==> r == Failure(NotTransparent)
    {
      if EnsureColor().Failure? then EnsureColor()
      else if !IsTransparent() then Failure(NotTransparent)
      else Success(true)
    }

    /** `asHex`: `#` (unless `prefix` is `false`) and two hex digits per rounded channel; opaque colours only. */
    function AsHex(options: HexOptions): (r: Result<string, ColorError>)
      ensures r.Failure? <==> !IsOpaque()
      ensures r.Failure? ==> r == Failure(EnsureOpaque().error)
      ensures r.Success? && Valid() ==>
        var p := if options.prefix == Some(false) then 0 else 1;
        HexShaped(r.value, p, RgbArray(rawColor.value), UpperCaseHex(options)) && (p == 1 ==> r.value[0] == '#')
    {
      var prefix := if options.prefix == Some(false) then "" else "#";
      if EnsureOpaque().Failure? then Failure(EnsureOpaque().error)
      else
        if Valid() then
          ChannelsHexDigits(rawColor.value, options);
          PrefixedHex(prefix, ChannelsHex(rawColor.value, options), RgbArray(rawColor.value), UpperCaseHex(options));
          Success(prefix + ChannelsHex(rawColor.value, options))
        else
          Success(prefix + ChannelsHex(rawColor.value, options))
    }

    /** `asHexUC`: `asHex` with upper-case digits. */
    function AsHexUC(): (r: Result<string, ColorError>)
      ensures r == AsHex(HexOptions(true, None, None))
      ensures r.Success? && Valid() ==> forall i :: 1 <= i < 7 ==> IsUpperHexDigit(r.value[i])
    {
      AsHex(HexOptions(true, None, None))
    }

    /** `asHexLC`: `asHex` with lower-case digits. */
    function AsHexLC(): (r: Result<string, ColorError>)
      ensures r == AsHex(HexOptions(false, Some(true), None))
      ensures r.Success? && Valid() ==> forall i :: 1 <= i < 7 ==> IsLowerHexDigit(r.value[i])
    {
      AsHex(HexOptions(false, Some(true), None))
    }

    /** `asRGB`: `rgb(` and the rounded channels, joined with `, `; opaque colours only. */
    function AsRGB(): (r: Result<string, ColorError>)
      ensures r.Failure? <==> !IsOpaque()
      ensures r.Failure? ==> r == Failure(EnsureOpaque().error)
      ensures r.Success? ==> r.value == RgbText(RgbArray(rawColor.value))
    {
      if EnsureOpaque().Failure? then Failure(EnsureOpaque().error)
      else Success(RgbText(AsRGBArray().value))
    }

    /** `asPercentRGB` at precision 0; opaque colours only. */
    function AsPercentRGB(): (r: Result<string, ColorError>)
      ensures r.Failure? <==> !IsOpaque()
      ensures r.Failure? ==> r == Failure(EnsureOpaque().error)
      ensures r.Success? ==> r.value == "rgb(" + Join(PercentTexts(rawColor.value), ", ") + ")"
    {
      if EnsureOpaque().Failure? then Failure(EnsureOpaque().error)
      else Success("rgb(" + Join(PercentTexts(rawColor.value), ", ") + ")")
    }

    /** `asRGBA`, with `fmt` rendering the alpha; any colour. */
    function AsRGBA(fmt: real -> string): (r: Result<string, ColorError>)
      ensures r.Failure? <==> !IsColor()
      ensures r.Failure? ==> r == Failure(EnsureColor().error)
      ensures r.Success? ==> r.value == RgbaText(rawColor.value, fmt)
    {
      if EnsureColor().Failure? then Failure(EnsureColor().error)
      else Success(RgbaText(rawColor.value, fmt))
    }

    /** `asPercentRGBA` at precision 0, with `fmt` rendering the alpha; any colour. */
    function AsPercentRGBA(fmt: real -> string): (r: Result<string, ColorError>)
      ensures r.Failure? <==> !IsColor()
      ensures r.Failure? ==> r == Failure(EnsureColor().error)
      ensures r.Success? ==> r.value == PercentRgbaText(rawColor.value, fmt)
    {
      if EnsureColor().Failure? then Failure(EnsureColor().error)
      else Success(PercentRgbaText(rawColor.value, fmt))
    }

    /** `asRGBArray`: the rounded channels, each in [0, 255]; opaque colours only. */
    function AsRGBArray(): (r: Result<seq<int>, ColorError>)
      ensures r.Failure? <==> !IsOpaque()
      ensures r.Failure? ==> r == Failure(EnsureOpaque().error)
      ensures r.Success? ==> r.value == RgbArray(rawColor.value)
      ensures r.Success? && Valid() ==> forall i :: 0 <= i < 3 ==> 0 <= r.value[i] <= 255
    {
      if EnsureOpaque().Failure? then Failure(EnsureOpaque().error)
      else Success(RgbArray(rawColor.value))
    }

    /** `asRGBAArray`: the rounded channels and the exact alpha; any colour. */
    function AsRGBAArray(): (r: Result<seq<real>, ColorError>)
      ensures r.Failure? <==> !IsColor()
      ensures r.Failure? ==> r == Failure(EnsureColor().error)
      ensures r.Success? ==>
        |r.value| == 4 && r.value[3] == rawColor.value.a
        && forall i :: 0 <= i < 3 ==> r.value[i] == RgbArray(rawColor.value)[i] as real
    {
      if EnsureColor().Failure? then Failure(EnsureColor().error)
      else
        var rgb := RgbArray(rawColor.value);
        Success([rgb[0] as real, rgb[1] as real, rgb[2] as real, rawColor.value.a])
    }

    /**
     * `equals`: both are colours and their `asRGBA` texts agree, or, with a
     * positive tolerance, every rounded channel is within the tolerance of
     * the other's and the alphas are equal.
     */
    method Equals(otherColor: ColorInput, tolerance: real, fmt: real -> string) returns (isEqual: bool)
      requires otherColor.FromColor? ==> otherColor.color.Valid()
      ensures isEqual == RawEquals(rawColor, ParseSpec(otherColor), tolerance, fmt)
    {
      var other: Color;
      if otherColor.FromColor? {
        other := otherColor.color;
      } else {
        other := new Color(otherColor);
      }
      isEqual := CompareTo(other, tolerance, fmt);
    }

    /** The comparison `equals` makes once the other value is a colour. */
    method CompareTo(other: Color, tolerance: real, fmt: real -> string) returns (isEqual: bool)
      ensures isEqual == RawEquals(rawColor, other.rawColor, tolerance, fmt)
    {
      var isColor := IsColor() && other.IsColor();
      isEqual := isColor && AsRGBA(fmt) == other.AsRGBA(fmt);
      if isColor && !isEqual && tolerance > 0.0 {
        var mine, theirs := AsRGBAArray().value, other.AsRGBAArray().value;
        isEqual := forall i :: 0 <= i < 3 ==> mine[i] <= theirs[i] + tolerance && mine[i] >= theirs[i] - tolerance;
        isEqual := isEqual && mine[3] == theirs[3];
      }
    }

    /** `strictlyEquals`: both are colours and their `asPercentRGBA` texts agree. */
    method StrictlyEquals(otherColor: ColorInput, fmt: real -> string) returns (isEqual: bool)
      requires otherColor.FromColor? ==> otherColor.color.Valid()
      ensures isEqual == RawStrictlyEquals(rawColor, ParseSpec(otherColor), fmt)
    {
      var other: Color;
      if otherColor.FromColor? {
        other := otherColor.color;
      } else {
        other := new Color(otherColor);
      }
      isEqual := IsColor() && other.IsColor() && AsPercentRGBA(fmt) == other.AsPercentRGBA(fmt);
    }
  }

  /** The percentage texts of the channels. */
  function PercentTexts(c: RawColor): (ps: seq<string>)
    ensures |ps| == 3 && forall i :: 0 <= i < 3 ==> NoComma(ps[i])
  {
    [RawToPercent(c.r), RawToPercent(c.g), RawToPercent(c.b)]
  }

  /** The text of `asRGB`. */
  function RgbText(rgb: seq<int>): string {
    "rgb(" + Join(IntTexts(rgb), ", ") + ")"
  }

  /** The text of `asRGBA`. */
  function RgbaText(c: RawColor, fmt: real -> string): string {
    "rgba(" + Join(IntTexts(RgbArray(c)) + [fmt(c.a)], ", ") + ")"
  }

  /** The text of `asPercentRGBA`. */
  function PercentRgbaText(c: RawColor, fmt: real -> string): string {
    "rgba(" + Join(PercentTexts(c) + [fmt(c.a)], ", ") + ")"
  }

  /** `x` lies within `tolerance` of `y`, bounds included. */
  predicate Within(x: int, y: int, tolerance: real) {
    x as real <= y as real + tolerance && x as real >= y as real - tolerance
  }

  /** What `equals` decides, given the two raw values. */
  predicate RawEquals(mine: Option<RawColor>, theirs: Option<RawColor>, tolerance: real, fmt: real -> string) {
    mine.Some? && theirs.Some?
    && (RgbaText(mine.value, fmt) == RgbaText(theirs.value, fmt)
        || (tolerance > 0.0
            && (forall i :: 0 <= i < 3 ==> Within(RgbArray(mine.value)[i], RgbArray(theirs.value)[i], tolerance))
            && mine.value.a == theirs.value.a))
  }

  /** What `strictlyEquals` decides, given the two raw values. */
  predicate RawStrictlyEquals(mine: Option<RawColor>, theirs: Option<RawColor>, fmt: real -> string) {
    mine.Some? && theirs.Some? && PercentRgbaText(mine.value, fmt) == PercentRgbaText(theirs.value, fmt)
  }

  // ---------------------------------------------------------------------
  // Ranges

  /** A parsed string lies in range: channels in [0, 255], alpha in [0, 1]. */
  lemma ParseStringRange(s: string)
    ensures ParseString(s).Some? ==> InRange(ParseString(s).value)
  {
    if Lookup(s).None? && ToLower(s) != "transparent" {
      DataRange(s);
    }
  }

  /** The channels the grammars capture lie in [0, 255] and their alpha in [0, 1]. */
  lemma DataRange(s: string)
    ensures match FirstMatch(Grammars, s)
      case NoData => true
      case Data(rgb, a) => InRange(RawColor(rgb[0], rgb[1], rgb[2], AlphaValue(a)))
  {
    GrammarsWellFormed();
    FirstMatchRange(Grammars, s);
    var d := FirstMatch(Grammars, s);
    if d.Data? && d.a.Some? {
      TokenRange(Fraction, d.a.value);
    }
  }

  /** Every raw colour `parseColor` yields lies in range, given that existing colours do. */
  lemma ParseSpecRange(x: ColorInput)
    requires x.FromColor? ==> x.color.Valid()
    ensures ParseSpec(x).Some? ==> InRange(ParseSpec(x).value)
  {
    match x
    case FromColor(c) =>
    case List(items) => ParseStringRange(FunctionalText(items));
    case Record(fields) =>
      if "r" in fields && "g" in fields && "b" in fields {
        ParseStringRange(FunctionalText(RecordItems(fields)));
      }
    case Str(s) => ParseStringRange(s);
    case Other =>
  }

  /** The three channels of `asHex`, each through `rawToHex`. */
  function ChannelsHex(c: RawColor, options: HexOptions): string {
    var rgb := RawArrayRgb(c);
    RawToHex(rgb[0], options) + RawToHex(rgb[1], options) + RawToHex(rgb[2], options)
  }

  /** Each pair of digits of `asHex` holds one rounded channel, in the case the options ask for. */
  lemma ChannelsHexDigits(c: RawColor, options: HexOptions)
    requires InRange(c)
    ensures var hex := ChannelsHex(c, options);
      |hex| == 6
      && (forall i :: 0 <= i < 3 ==>
            AllHexDigits(hex[2 * i..2 * i + 2]) && HexValue(hex[2 * i..2 * i + 2]) == RgbArray(c)[i])
      && forall i :: 0 <= i < 6 ==>
           (if UpperCaseHex(options) then IsUpperHexDigit(hex[i]) else IsLowerHexDigit(hex[i]))
  {
    var v := RgbArray(c);
    assert v[0] == Round(c.r) && v[1] == Round(c.g) && v[2] == Round(c.b);
    assert RawArrayRgb(c) == [c.r, c.g, c.b];
    HexTriple(RawToHex(c.r, options), RawToHex(c.g, options), RawToHex(c.b, options), v, UpperCaseHex(options));
  }

  /** Three pairs of digits side by side. */
  lemma HexTriple(h0: string, h1: string, h2: string, v: seq<int>, upper: bool)
    requires |v| == 3
    requires |h0| == 2 && AllHexDigits(h0) && HexValue(h0) == v[0]
    requires |h1| == 2 && AllHexDigits(h1) && HexValue(h1) == v[1]
    requires |h2| == 2 && AllHexDigits(h2) && HexValue(h2) == v[2]
    requires forall i :: 0 <= i < 2 ==> if upper then IsUpperHexDigit(h0[i]) else IsLowerHexDigit(h0[i])
    requires forall i :: 0 <= i < 2 ==> if upper then IsUpperHexDigit(h1[i]) else IsLowerHexDigit(h1[i])
    requires forall i :: 0 <= i < 2 ==> if upper then IsUpperHexDigit(h2[i]) else IsLowerHexDigit(h2[i])
    ensures var hex := h0 + h1 + h2;
      |hex| == 6
      && (forall i :: 0 <= i < 3 ==> AllHexDigits(hex[2 * i..2 * i + 2]) && HexValue(hex[2 * i..2 * i + 2]) == v[i])
      && forall i :: 0 <= i < 6 ==> (if upper then IsUpperHexDigit(hex[i]) else IsLowerHexDigit(hex[i]))
  {
    var hex := h0 + h1 + h2;
    assert hex[0..2] == h0;
    assert hex[2..4] == h1;
    assert hex[4..6] == h2;
    forall i | 0 <= i < 6
      ensures if upper then IsUpperHexDigit(hex[i]) else IsLowerHexDigit(hex[i])
    {
      if i < 2 { assert hex[i] == h0[i]; }
      else if i < 4 { assert hex[i] == h1[i - 2]; }
      else { assert hex[i] == h2[i - 4]; }
    }
  }

  /**
   * An `asHex` text: `p` characters of prefix, then three pairs of hex
   * digits of one case whose values are `rgb`.
   */
  predicate HexShaped(s: string, p: nat, rgb: seq<int>, upper: bool) {
    |rgb| == 3 && |s| == p + 6
    && (forall i :: 0 <= i < 3 ==>
          var h := s[p + 2 * i..p + 2 * i + 2]; AllHexDigits(h) && HexValue(h) == rgb[i])
    && forall i :: p <= i < p + 6 ==> (if upper then IsUpperHexDigit(s[i]) else IsLowerHexDigit(s[i]))
  }

  /** Digits of channel values keep their meaning behind a prefix. */
  lemma PrefixedHex(prefix: string, hex: string, rgb: seq<int>, upper: bool)
    requires |hex| == 6 && |rgb| == 3
    requires forall i :: 0 <= i < 3 ==>
      AllHexDigits(hex[2 * i..2 * i + 2]) && HexValue(hex[2 * i..2 * i + 2]) == rgb[i]
    requires forall i :: 0 <= i < 6 ==> (if upper then IsUpperHexDigit(hex[i]) else IsLowerHexDigit(hex[i]))
    ensures HexShaped(prefix + hex, |prefix|, rgb, upper) && (prefix + hex)[..|prefix|] == prefix
  {
    var p := |prefix|;
    var s := prefix + hex;
    forall i | 0 <= i < 3
      ensures s[p + 2 * i..p + 2 * i + 2] == hex[2 * i..2 * i + 2]
    {
    }
    forall i | p <= i < p + 6
      ensures s[i] == hex[i - p]
    {
    }
  }
}
