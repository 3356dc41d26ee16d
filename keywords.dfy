/**
 * The CSS colour keyword table (`CssColorNames`, src/colorful.js:40-189):
 * 148 lower-case names mapped to integer RGB triples. The special keyword
 * `transparent` is handled by the parser and is not in the table.
 */
module Keywords {
  import opened Wrappers

  predicate IsLowerLetter(c: char) {
    'a' <= c <= 'z'
  }

  /** A lower-case ASCII letter. */
  type Letter = c: char | IsLowerLetter(c) witness 'a'

  /**
   * What the parser relies on about the names in the table: each is a
   * non-empty run of lower-case letters other than `transparent`.
   */
  type Name = s: seq<Letter> | |s| > 0 && s != "transparent" witness "a"

  /** A channel value of the table. */
  type Channel = n: nat | n <= 255

  datatype Rgb = Rgb(r: Channel, g: Channel, b: Channel)

  // The entries, in source order, in blocks of five. Each block is the body
  // of a function, so that a proof sees a block only when it asks for it.
  // aliceblue .. azure
  function Block00(): seq<(Name, Rgb)> {
    [
      ("aliceblue", Rgb(240, 248, 255)),
      ("antiquewhite", Rgb(250, 235, 215)),
      ("aqua", Rgb(0, 255, 255)),
      ("aquamarine", Rgb(127, 255, 212)),
      ("azure", Rgb(240, 255, 255))
    ]
  }
  // beige .. blue
  function Block01(): seq<(Name, Rgb)> {
    [
      ("beige", Rgb(245, 245, 220)),
      ("bisque", Rgb(255, 228, 196)),
      ("black", Rgb(0, 0, 0)),
      ("blanchedalmond", Rgb(255, 235, 205)),
      ("blue", Rgb(0, 0, 255))
    ]
  }
  // blueviolet .. chartreuse
  function Block02(): seq<(Name, Rgb)> {
    [
      ("blueviolet", Rgb(138, 43, 226)),
      ("brown", Rgb(165, 42, 42)),
      ("burlywood", Rgb(222, 184, 135)),
      ("cadetblue", Rgb(95, 158, 160)),
      ("chartreuse", Rgb(127, 255, 0))
    ]
  }
  // chocolate .. crimson
  function Block03(): seq<(Name, Rgb)> {
    [
      ("chocolate", Rgb(210, 105, 30)),
      ("coral", Rgb(255, 127, 80)),
      ("cornflowerblue", Rgb(100, 149, 237)),
      ("cornsilk", Rgb(255, 248, 220)),
      ("crimson", Rgb(220, 20, 60))
    ]
  }
  // cyan .. darkgray
  function Block04(): seq<(Name, Rgb)> {
    [
      ("cyan", Rgb(0, 255, 255)),
      ("darkblue", Rgb(0, 0, 139)),
      ("darkcyan", Rgb(0, 139, 139)),
      ("darkgoldenrod", Rgb(184, 134, 11)),
      ("darkgray", Rgb(169, 169, 169))
    ]
  }
  // darkgreen .. darkolivegreen
  function Block05(): seq<(Name, Rgb)> {
    [
      ("darkgreen", Rgb(0, 100, 0)),
      ("darkgrey", Rgb(169, 169, 169)),
      ("darkkhaki", Rgb(189, 183, 107)),
      ("darkmagenta", Rgb(139, 0, 139)),
      ("darkolivegreen", Rgb(85, 107, 47))
    ]
  }
  // darkorange .. darkseagreen
  function Block06(): seq<(Name, Rgb)> {
    [
      ("darkorange", Rgb(255, 140, 0)),
      ("darkorchid", Rgb(153, 50, 204)),
      ("darkred", Rgb(139, 0, 0)),
      ("darksalmon", Rgb(233, 150, 122)),
      ("darkseagreen", Rgb(143, 188, 143))
    ]
  }
  // darkslateblue .. darkviolet
  function Block07(): seq<(Name, Rgb)> {
    [
      ("darkslateblue", Rgb(72, 61, 139)),
      ("darkslategray", Rgb(47, 79, 79)),
      ("darkslategrey", Rgb(47, 79, 79)),
      ("darkturquoise", Rgb(0, 206, 209)),
      ("darkviolet", Rgb(148, 0, 211))
    ]
  }
  // deeppink .. dodgerblue
  function Block08(): seq<(Name, Rgb)> {
    [
      ("deeppink", Rgb(255, 20, 147)),
      ("deepskyblue", Rgb(0, 191, 255)),
      ("dimgray", Rgb(105, 105, 105)),
      ("dimgrey", Rgb(105, 105, 105)),
      ("dodgerblue", Rgb(30, 144, 255))
    ]
  }
  // firebrick .. gainsboro
  function Block09(): seq<(Name, Rgb)> {
    [
      ("firebrick", Rgb(178, 34, 34)),
      ("floralwhite", Rgb(255, 250, 240)),
      ("forestgreen", Rgb(34, 139, 34)),
      ("fuchsia", Rgb(255, 0, 255)),
      ("gainsboro", Rgb(220, 220, 220))
    ]
  }
  // ghostwhite .. green
  function Block10(): seq<(Name, Rgb)> {
    [
      ("ghostwhite", Rgb(248, 248, 255)),
      ("gold", Rgb(255, 215, 0)),
      ("goldenrod", Rgb(218, 165, 32)),
      ("gray", Rgb(128, 128, 128)),
      ("green", Rgb(0, 128, 0))
    ]
  }
  // greenyellow .. indianred
  function Block11(): seq<(Name, Rgb)> {
    [
      ("greenyellow", Rgb(173, 255, 47)),
      ("grey", Rgb(128, 128, 128)),
      ("honeydew", Rgb(240, 255, 240)),
      ("hotpink", Rgb(255, 105, 180)),
      ("indianred", Rgb(205, 92, 92))
    ]
  }
  // indigo .. lavenderblush
  function Block12(): seq<(Name, Rgb)> {
    [
      ("indigo", Rgb(75, 0, 130)),
      ("ivory", Rgb(255, 255, 240)),
      ("khaki", Rgb(240, 230, 140)),
      ("lavender", Rgb(230, 230, 250)),
      ("lavenderblush", Rgb(255, 240, 245))
    ]
  }
  // lawngreen .. lightcyan
  function Block13(): seq<(Name, Rgb)> {
    [
      ("lawngreen", Rgb(124, 252, 0)),
      ("lemonchiffon", Rgb(255, 250, 205)),
      ("lightblue", Rgb(173, 216, 230)),
      ("lightcoral", Rgb(240, 128, 128)),
      ("lightcyan", Rgb(224, 255, 255))
    ]
  }
  // lightgoldenrodyellow .. lightpink
  function Block14(): seq<(Name, Rgb)> {
    [
      ("lightgoldenrodyellow", Rgb(250, 250, 210)),
      ("lightgray", Rgb(211, 211, 211)),
      ("lightgreen", Rgb(144, 238, 144)),
      ("lightgrey", Rgb(211, 211, 211)),
      ("lightpink", Rgb(255, 182, 193))
    ]
  }
  // lightsalmon .. lightslategrey
  function Block15(): seq<(Name, Rgb)> {
    [
      ("lightsalmon", Rgb(255, 160, 122)),
      ("lightseagreen", Rgb(32, 178, 170)),
      ("lightskyblue", Rgb(135, 206, 250)),
      ("lightslategray", Rgb(119, 136, 153)),
      ("lightslategrey", Rgb(119, 136, 153))
    ]
  }
  // lightsteelblue .. linen
  function Block16(): seq<(Name, Rgb)> {
    [
      ("lightsteelblue", Rgb(176, 196, 222)),
      ("lightyellow", Rgb(255, 255, 224)),
      ("lime", Rgb(0, 255, 0)),
      ("limegreen", Rgb(50, 205, 50)),
      ("linen", Rgb(250, 240, 230))
    ]
  }
  // magenta .. mediumorchid
  function Block17(): seq<(Name, Rgb)> {
    [
      ("magenta", Rgb(255, 0, 255)),
      ("maroon", Rgb(128, 0, 0)),
      ("mediumaquamarine", Rgb(102, 205, 170)),
      ("mediumblue", Rgb(0, 0, 205)),
      ("mediumorchid", Rgb(186, 85, 211))
    ]
  }
  // mediumpurple .. mediumturquoise
  function Block18(): seq<(Name, Rgb)> {
    [
      ("mediumpurple", Rgb(147, 112, 219)),
      ("mediumseagreen", Rgb(60, 179, 113)),
      ("mediumslateblue", Rgb(123, 104, 238)),
      ("mediumspringgreen", Rgb(0, 250, 154)),
      ("mediumturquoise", Rgb(72, 209, 204))
    ]
  }
  // mediumvioletred .. moccasin
  function Block19(): seq<(Name, Rgb)> {
    [
      ("mediumvioletred", Rgb(199, 21, 133)),
      ("midnightblue", Rgb(25, 25, 112)),
      ("mintcream", Rgb(245, 255, 250)),
      ("mistyrose", Rgb(255, 228, 225)),
      ("moccasin", Rgb(255, 228, 181))
    ]
  }
  // navajowhite .. olivedrab
  function Block20(): seq<(Name, Rgb)> {
    [
      ("navajowhite", Rgb(255, 222, 173)),
      ("navy", Rgb(0, 0, 128)),
      ("oldlace", Rgb(253, 245, 230)),
      ("olive", Rgb(128, 128, 0)),
      ("olivedrab", Rgb(107, 142, 35))
    ]
  }
  // orange .. palegreen
  function Block21(): seq<(Name, Rgb)> {
    [
      ("orange", Rgb(255, 165, 0)),
      ("orangered", Rgb(255, 69, 0)),
      ("orchid", Rgb(218, 112, 214)),
      ("palegoldenrod", Rgb(238, 232, 170)),
      ("palegreen", Rgb(152, 251, 152))
    ]
  }
  // paleturquoise .. peru
  function Block22(): seq<(Name, Rgb)> {
    [
      ("paleturquoise", Rgb(175, 238, 238)),
      ("palevioletred", Rgb(219, 112, 147)),
      ("papayawhip", Rgb(255, 239, 213)),
      ("peachpuff", Rgb(255, 218, 185)),
      ("peru", Rgb(205, 133, 63))
    ]
  }
  // pink .. rebeccapurple
  function Block23(): seq<(Name, Rgb)> {
    [
      ("pink", Rgb(255, 192, 203)),
      ("plum", Rgb(221, 160, 221)),
      ("powderblue", Rgb(176, 224, 230)),
      ("purple", Rgb(128, 0, 128)),
      ("rebeccapurple", Rgb(102, 51, 153))
    ]
  }
  // red .. salmon
  function Block24(): seq<(Name, Rgb)> {
    [
      ("red", Rgb(255, 0, 0)),
      ("rosybrown", Rgb(188, 143, 143)),
      ("royalblue", Rgb(65, 105, 225)),
      ("saddlebrown", Rgb(139, 69, 19)),
      ("salmon", Rgb(250, 128, 114))
    ]
  }
  // sandybrown .. silver
  function Block25(): seq<(Name, Rgb)> {
    [
      ("sandybrown", Rgb(244, 164, 96)),
      ("seagreen", Rgb(46, 139, 87)),
      ("seashell", Rgb(255, 245, 238)),
      ("sienna", Rgb(160, 82, 45)),
      ("silver", Rgb(192, 192, 192))
    ]
  }
  // skyblue .. snow
  function Block26(): seq<(Name, Rgb)> {
    [
      ("skyblue", Rgb(135, 206, 235)),
      ("slateblue", Rgb(106, 90, 205)),
      ("slategray", Rgb(112, 128, 144)),
      ("slategrey", Rgb(112, 128, 144)),
      ("snow", Rgb(255, 250, 250))
    ]
  }
  // springgreen .. thistle
  function Block27(): seq<(Name, Rgb)> {
    [
      ("springgreen", Rgb(0, 255, 127)),
      ("steelblue", Rgb(70, 130, 180)),
      ("tan", Rgb(210, 180, 140)),
      ("teal", Rgb(0, 128, 128)),
      ("thistle", Rgb(216, 191, 216))
    ]
  }
  // tomato .. white
  function Block28(): seq<(Name, Rgb)> {
    [
      ("tomato", Rgb(255, 99, 71)),
      ("turquoise", Rgb(64, 224, 208)),
      ("violet", Rgb(238, 130, 238)),
      ("wheat", Rgb(245, 222, 179)),
      ("white", Rgb(255, 255, 255))
    ]
  }
  // whitesmoke .. yellowgreen
  function Block29(): seq<(Name, Rgb)> {
    [
      ("whitesmoke", Rgb(245, 245, 245)),
      ("yellow", Rgb(255, 255, 0)),
      ("yellowgreen", Rgb(154, 205, 50))
    ]
  }

  /** Block `k` of the entries. */
  function Block(k: nat): seq<(Name, Rgb)> {
    match k
    case 0 => Block00()
    case 1 => Block01()
    case 2 => Block02()
    case 3 => Block03()
    case 4 => Block04()
    case 5 => Block05()
    case 6 => Block06()
    case 7 => Block07()
    case 8 => Block08()
    case 9 => Block09()
    case 10 => Block10()
    case 11 => Block11()
    case 12 => Block12()
    case 13 => Block13()
    case 14 => Block14()
    case 15 => Block15()
    case 16 => Block16()
    case 17 => Block17()
    case 18 => Block18()
    case 19 => Block19()
    case 20 => Block20()
    case 21 => Block21()
    case 22 => Block22()
    case 23 => Block23()
    case 24 => Block24()
    case 25 => Block25()
    case 26 => Block26()
    case 27 => Block27()
    case 28 => Block28()
    case 29 => Block29()
    case _ => []
  }

  /** What the parser relies on about a name the table holds. */
  predicate IsTableName(s: string) {
    |s| > 0 && (forall i :: 0 <= i < |s| ==> IsLowerLetter(s[i])) && s != "transparent"
  }

  /** The triple of the first of `entries` named `s`. */
  function Find(entries: seq<(Name, Rgb)>, s: string): (r: Option<Rgb>)
    ensures r.Some? ==> IsTableName(s) && exists i :: 0 <= i < |entries| && entries[i] == (s, r.value)
    ensures r.None? ==> forall i :: 0 <= i < |entries| ==> entries[i].0 != s
  {
    if |entries| == 0 then None
    else if entries[0].0 == s then Some(entries[0].1)
    else
      var r := Find(entries[1..], s);
      assert forall i :: 1 <= i < |entries| ==> entries[i] == entries[1..][i - 1];
      r
  }

  /** The triple the table holds for `s`, searching from block `k` on. */
  function LookupFrom(k: nat, s: string): (r: Option<Rgb>)
    ensures r.Some? ==> IsTableName(s)
    ensures r.Some? ==> exists j, i :: k <= j < 30 && 0 <= i < |Block(j)| && Block(j)[i] == (s, r.value)
    ensures r.None? ==> forall j, i :: k <= j < 30 && 0 <= i < |Block(j)| ==> Block(j)[i].0 != s
    decreases 30 - k
  {
    if k >= 30 then None
    else
      var r := Find(Block(k), s);
      if r.Some? then r else LookupFrom(k + 1, s)
  }

  /**
   * `CssColorNames[color]`: the triple the table holds for `s`. Every name
   * the table holds is a run of lower-case letters other than `transparent`.
   */
  function Lookup(s: string): (r: Option<Rgb>)
    ensures r.Some? ==> IsTableName(s)
    ensures r.Some? ==> exists j, i :: 0 <= j < 30 && 0 <= i < |Block(j)| && Block(j)[i] == (s, r.value)
    ensures r.None? ==> forall j, i :: 0 <= j < 30 && 0 <= i < |Block(j)| ==> Block(j)[i].0 != s
  {
    LookupFrom(0, s)
  }
}
