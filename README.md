# colorful.js colour parsing, modelled in Dafny

colorful.js is a small JavaScript library. Its `Color` type:
- parses a colour given in one of several forms: a CSS keyword, `transparent`, hex notation, `rgb()`/`rgba()` with base-256 numbers or percentages, the library's own `AgColor()`, an array or an object of channel values, or an existing `Color`;
- keeps as its raw value the channels in the 0-255 domain and an alpha in [0, 1];
- renders that value as hex, `rgb()` and `rgba()` text or as arrays;
- compares colours.

This project models that core and proves properties of it.

Modules, in dependency order:

- `Wrappers` (wrappers.dfy): `Option` and `Result`.
- `Text` (text.dfy):
  - JavaScript's `\s` and `\d`, and decimal numerals with their exact value (unary `+`);
  - `toString` in radix 10 and 16, and `parseInt(…, 16)`;
  - the ASCII part of `toUpperCase`/`toLowerCase`, and `join`.
- `Keywords` (keywords.dfy): the 148-entry `CssColorNames` table and its lookup.
- `Tokens` (tokens.dfy):
  - The three numeric token grammars: base 256, percent, and fraction (alpha and `AgColor` channels).
  - Each is written alternative by alternative, as its regular expression is.
  - Each is then characterised by the value and shape of the numeral it accepts.
- `Pattern` (pattern.dfy):
  - The anchored regular expressions `buildColorRx` builds, as sequences of pieces.
  - A deterministic matcher over them, proved sound and complete with respect to the declarative meaning of a regular expression (a cut of the text into one accepted part per piece).
  - Completeness holds for "separated" patterns, which are all nine colour grammars.
- `Grammar` (grammar.dfy):
  - the nine grammars, `buildColorRx`, `matchColor` and the fallback chains of the four `get*Data` helpers (as methods);
  - the conversion of captured text to channel values.
- `Colors` (color.dfy):
  - the input kinds, and `parseColor` as a method proved against a specification function;
  - rounding and the channel conversions;
  - the `Color` class with its constant `input` and `rawColor` fields, its queries, guards and renderings, and `equals`/`strictlyEquals` as methods.
- `Equality` (equality.dfy): what `equals` and `strictlyEquals` decide, stated on the channels.
- `Properties` (properties.dfy):
  - the hex round trip;
  - how text starting with `#` is read;
  - rejection of mixed case;
  - percentages and plain numbers not mixing;
  - range, dispatch and example facts.

How the model represents the source:

- **Errors:** a guard that throws is a `Result` whose error tells which message would be thrown.
- **Not a colour:** `parseColor`'s `undefined` is `None`.
- **Numbers:** all numbers are exact `real`s. The precision-0 branch of `Nums.round` is `Math.round`: the nearest integer, with halves rounded up. It is modelled exactly.
- **Array and object elements:** they are taken as the strings `join` makes of them.
- **The alpha formatter:** `toDecimalNotation` is an abstract formatter `fmt: real -> string`. What `equals` and `strictlyEquals` decide is stated for every formatter on the alpha texts (`RgbaTextSplit`, `PercentRgbaSplit`, `EqualsAlikeAlphas`). It is stated on the alphas themselves only for two alphas that the formatter does not print alike. `toDecimalNotation` writes a number that needs more than 20 fractional digits with `toFixed(20)` (src/colorful.js:455-463), so alphas such as 1e-21 and 2e-21 print alike. `equals` and `strictlyEquals` do not tell such alphas apart.

Where the code and its tests differ, the model follows the code:
- **`strictlyEquals`** compares `asPercentRGBA()` at its default precision 0, that is percentages rounded to integers. It does not compare at full precision.
- **`asRGBArray`** returns rounded channels, not fractional ones.
- **Accessor names:** the tests call accessors by later names (`asRgb`, `asRgbaArray`). The model uses the source's names.
- **Objects with an absent `a`:** an object with exactly four keys uses its `a` as the fourth value even when `a` is not among them. The text becomes `rgba(r, g, b, )`, which is no colour.
- **Objects with five or more keys:** an object with five or more keys, three of them `r`, `g` and `b`, is read as `rgb(r, g, b)`, and its alpha is ignored.
- **Fractional base-256 values in arrays and objects:** the tests expect arrays and objects with fractional channel values, such as `[4.499999999999999, 143.5, 163.00000010101010101]`, to be colours (spec/color.spec.js:72-73, 76-77, 81-82, 85-86). The code joins them into `rgb(4.499999999999999, 143.5, …)`, and its base-256 grammar (src/colorful.js:195) accepts only integers. So the model reads them as no colour (`Base256TokenIff`).

## Model

| member | source | states |
|---|---|---|
| Keywords.Find | src/colorful.js:40-189 | the triple found for a name is that of an entry with that name, and no entry has the name when nothing is found |
| Keywords.LookupFrom | src/colorful.js:40-189 | a hit is an entry of some block from `k` on, and a table name; a miss means no entry from block `k` on has the name |
| Keywords.Lookup | src/colorful.js:40-189 | `CssColorNames[s]`: a hit is an entry of the table, and a non-empty lower-case name other than `transparent`; a miss means no entry has the name |
| Tokens.Base256TokenIff | src/colorful.js:195 | the base-256 grammar accepts exactly the one- to three-digit numbers up to 255 |
| Tokens.Base256TokenValue | src/colorful.js:195 | an accepted base-256 token is a numeral whose value is an integer in [0, 255] |
| Tokens.PercentTokenIff | src/colorful.js:196 | the percent grammar accepts exactly the numerals of value at most 100 whose integer part has at most two digits or is `100` |
| Tokens.PercentTokenForward | src/colorful.js:196 | the forward half of `PercentTokenIff` |
| Tokens.PercentTokenBackward | src/colorful.js:196 | the backward half of `PercentTokenIff` |
| Tokens.FractionTokenIff | src/colorful.js:191-192 | the fraction grammar accepts exactly the numerals of value at most 1 whose integer part is empty, `0` or `1` |
| Tokens.FractionTokenForward | src/colorful.js:191-192 | the forward half of `FractionTokenIff` |
| Tokens.FractionTokenBackward | src/colorful.js:191-192 | the backward half of `FractionTokenIff` |
| Tokens.TokenIsNumeral | src/colorful.js:191-196 | every token of every kind is a non-empty run of digits and points |
| Tokens.TokenRange | src/colorful.js:191-196 | base-256 tokens are integers in [0, 255], percentages lie in [0, 100], fractions in [0, 1] |
| Tokens.OutOfRangeTokens | src/colorful.js:191-196 | `256`, `-1` and `1.5` are no base-256 token; `100.01`, `101` and `-1` are no percentage; `1.5` and `-0.5` are no fraction, so they are rejected rather than clamped |
| Tokens.NumberValueRange | src/colorful.js:326-328 | unary `+` of a numeral lies between its integer part and the next integer, and equals the integer part exactly when the fraction digits are all zeros |
| Text.NatTextValue | src/colorful.js:425 | decimal `toString` reads back as the number it was written from |
| Text.IntTextInjective | src/colorful.js:548 | different integers have different decimal texts |
| Text.NatHexTextValue | src/colorful.js:425 | `toString(16)` reads back with `parseInt(…, 16)` as the number it was written from |
| Text.NatHexTextLength | src/colorful.js:425-427 | `toString(16)` of a number below 16 has one digit, of one below 256 two |
| Text.HexValueToUpper | src/colorful.js:428 | upper-casing hexadecimal digits keeps their value and gives `[A-F\d]` digits |
| Text.LowerHexToLower | src/colorful.js:428 | lower-casing `[a-f\d]` text leaves it unchanged |
| Text.HexValueLeadingZero | src/colorful.js:427 | the `0` that pads `toString(16)` does not change its value |
| Pattern.Take | src/colorful.js:273-283 | what a piece consumes is a prefix of the text that the piece accepts |
| Pattern.Split | src/colorful.js:273-283 | every cut the matcher returns cuts exactly the text into parts each accepted by its piece (soundness) |
| Pattern.Match | src/colorful.js:285-292 | `color.match(rx)`: one captured text per capture group, each accepted by its group |
| Pattern.SplitComplete | src/colorful.js:273-283 | for a separated pattern, the matcher finds every valid cut (completeness) |
| Pattern.SplitIff | src/colorful.js:273-283 | for a separated pattern, the matcher returns a cut exactly when it is a valid cut of the text |
| Pattern.CutUnique | src/colorful.js:273-283 | a separated pattern cuts a text in at most one way |
| Pattern.CutOccurrences | src/colorful.js:273-283 | in a cut text, a character that is no digit, point, hex digit or white space occurs once per literal piece |
| Grammar.BuildColorRx | src/colorful.js:273-283 | `buildColorRx`: an anchored pattern with optional white space at both ends around the prefix; its layout is stated by `HexShape` and `FunctionalShape`, its capture groups by `GroupsOf` |
| Grammar.ChannelValue | src/colorful.js:294-359 | the per-channel conversions of the four helpers (base 16, doubled digit, `+value`, `value * 255 / 100`, `value * 255`); what they yield is stated by `ChannelValueRange` (in [0, 255]), `Base256Integral`, `ShortHexValue` and `HexPairValue` |
| Grammar.Lits | src/colorful.js:282 | the prefix of a grammar is matched character by character |
| Grammar.MatchColor | src/colorful.js:285-292 | a match has three channel texts, each a token of the grammar's channel, and an alpha exactly when the grammar has one, which is a fraction token |
| Grammar.GrammarData | src/colorful.js:294-359 | one grammar's data exist exactly when it matches; they hold three channels and the matched alpha text |
| Grammar.FirstMatch | src/colorful.js:294-359 | the data of the first grammar that matches hold three channels and a fraction token as alpha, if any |
| Grammar.GetHexData | src/colorful.js:294-318 | `getHexData` yields the data of the first of the long lower-case, long upper-case, short lower-case and short upper-case hex grammars that matches |
| Grammar.GetBase256Data | src/colorful.js:320-332 | `getBase256Data` yields the data of `rgb(...)`, else of `rgba(...)`, with base-256 channels |
| Grammar.GetPercentData | src/colorful.js:334-346 | `getPercentData` yields the data of `rgb(...)`, else of `rgba(...)`, with percentages |
| Grammar.GetAgColorData | src/colorful.js:348-359 | `getAgColorData` yields the data of the `AgColor(...)` grammar |
| Grammar.FractionData | src/colorful.js:352-356 | a grammar of fractions yields each captured channel times 255, and its alpha text |
| Grammar.LongHexTokens | src/colorful.js:294-318 | the long hex forms capture hex digit pairs and yield their base-16 values |
| Grammar.ShortHexTokens | src/colorful.js:300-315 | the short hex forms capture single digits, and yield the base-16 value of each digit doubled |
| Grammar.ShortHexValue | src/colorful.js:305-307 | a short hex digit `d` stands for `dd`, 17 times its value |
| Grammar.HexPairValue | src/colorful.js:311-315 | a pair of hex digits has its base-16 value, at most 255 |
| Grammar.FirstMatchAppend | src/colorful.js:396-399 | trying one list of grammars and then another is trying their concatenation: the first match wins |
| Grammar.HexFirst | src/colorful.js:396-399 | the grammars are tried hex first, then the functional notations |
| Grammar.GroupsOf | src/colorful.js:273-283 | a built grammar has capture groups for its three channels and, when it has one, its alpha |
| Grammar.FunctionalShape | src/colorful.js:273-283 | a functional grammar is white space, the name, `(`, one comma-closed block per channel but the last, a `)`-closed last block and white space |
| Grammar.HexShape | src/colorful.js:273-283 | a hex grammar is white space, `#`, three hex groups and white space |
| Grammar.GrammarSeparated | src/colorful.js:273-283 | each of the nine grammar shapes leaves the matcher no choice |
| Grammar.GrammarsWellFormed | src/colorful.js:203-214 | the nine grammars are hex notations of width 1 or 2, or functional notations with a visible name |
| Grammar.ChannelValueRange | src/colorful.js:294-359 | every channel value lies in [0, 255] |
| Grammar.Base256Integral | src/colorful.js:325-329 | a base-256 channel value is an integer |
| Grammar.GrammarDataRange | src/colorful.js:294-359 | the channel data of a well-formed grammar lie in [0, 255] |
| Grammar.FirstMatchRange | src/colorful.js:294-359 | whichever grammar matches first, its channels lie in [0, 255] |
| Grammar.HexCutComplete | src/colorful.js:203-206 | a hex text matches its hex grammar, and its captures are its three digit groups |
| Grammar.HexCutSound | src/colorful.js:203-206 | a text starting with `#` that a hex grammar cuts is a hex text |
| Grammar.HexMatch | src/colorful.js:197-206 | on a text starting with `#`, a hex grammar matches exactly when `#` is followed by 3w digits of its case and then only white space, and then it captures the three digit groups |
| Grammar.HexAccepts | src/colorful.js:203-206 | a hex grammar yields data exactly on its hex texts |
| Grammar.HexData | src/colorful.js:294-318 | the channels of a hex text are the values of its digit groups |
| Grammar.LeadReject | src/colorful.js:273-283 | a text whose first character is visible and differs from the grammar prefix's first does not match |
| Grammar.PercentPieces | src/colorful.js:273-283 | a grammar has one `%` per channel when its channels are percentages, and none otherwise |
| Grammar.MatchPercentSigns | src/colorful.js:285-292 | a text a grammar matches holds exactly as many `%` as its pattern |
| Grammar.FirstMatchPercentSigns | src/colorful.js:396-399 | text any grammar accepts has no `%` or three |
| Grammar.GrammarPrefixes | src/colorful.js:203-214 | no grammar prefix contains a `%` |
| Colors.GetColorData | src/colorful.js:394-399 | the fallback chain over the four helpers yields the data of the first of the nine grammars that matches |
| Colors.ParseSpec | src/colorful.js:362-415 | what `parseColor` yields for each kind of input; `ParseColor` is proved to compute it, and `ParseSpecRange` and `NotAColorInputs` state its range and its rejections |
| Colors.ParseString | src/colorful.js:387-412 | what a string denotes: a table keyword, else `transparent` in any case, else the first grammar match; `ParseKeyword`, `ParseTransparent`, `ParseGrammars` and `ParseStringRange` state each case and the range |
| Colors.ParseColor | src/colorful.js:362-415 | `parseColor` yields exactly the specified raw colour of the input, alpha made a number and 1 when absent |
| Colors.ParseInput | src/colorful.js:362-406 | the dispatch builds a `parsed` object that describes the specified raw colour once its alpha is made a number |
| Colors.ParseItems | src/colorful.js:369-385 | an array or object's values give `rgba(...)` for four of them and `rgb(...)` otherwise, parsed again as a string |
| Colors.ParseText | src/colorful.js:387-406 | a string is a keyword of the table, else `transparent` in any case, else the grammars' first match |
| Colors.ParseKeyword | src/colorful.js:389-390 | a keyword gives its table triple, opaque |
| Colors.ParseTransparent | src/colorful.js:391-392 | `transparent` in any case, when no keyword, gives black with alpha 0 |
| Colors.ParseGrammars | src/colorful.js:393-403 | any other string gives the colour of the grammars' first match |
| Colors.DescribesData | src/colorful.js:401-412 | the `parsed` object built from channel data describes the colour they denote, alpha 1 when absent |
| Colors.ParseStringRange | src/colorful.js:387-412 | every colour a string denotes has its channels in [0, 255] and its alpha in [0, 1] |
| Colors.DataRange | src/colorful.js:394-412 | the grammars' channels lie in [0, 255] and their alpha in [0, 1] |
| Colors.ParseSpecRange | src/colorful.js:362-415 | every raw colour `parseColor` yields is in range, given that existing colours are |
| Colors.Round | src/colorful.js:232-258 | `Nums.round` at precision 0 yields the integer within half of the value, halves rounded up |
| Colors.RawToHex | src/colorful.js:422-429 | a channel in range gives two hex digits whose value is the rounded channel: upper case when `upperCase` is set or `lowerCase` is `false`, lower case otherwise |
| Colors.PaddedHex | src/colorful.js:425-427 | `toString(16)` padded with `0` gives two lower-case digits of the number |
| Colors.RawToBase256 | src/colorful.js:431-433 | a channel in [0, 255] rounds to an integer in [0, 255] |
| Colors.Percent | src/colorful.js:470-476 | a channel in [0, 255] gives a rounded percentage in [0, 100] |
| Colors.RawToPercent | src/colorful.js:470-476 | `rawToPercent` at precision 0 is the integer text of the rounded percentage followed by `%`, without a comma |
| Colors.RgbArray | src/colorful.js:634-636 | three rounded channels, each in [0, 255] for a colour in range |
| Colors.IntTexts | src/colorful.js:548 | the decimal texts of the integers, element by element |
| Colors.PercentTexts | src/colorful.js:558 | three channel percentage texts without commas |
| Colors.ChannelsHexDigits | src/colorful.js:535 | each digit pair of `asHex` holds one rounded channel, in the case the options ask for |
| Colors.HexTriple | src/colorful.js:535 | three digit pairs side by side keep their values and case |
| Colors.PrefixedHex | src/colorful.js:533-535 | the digit pairs keep their meaning behind the `#` prefix |
| Colors.Color.IsColor | src/colorful.js:496-498 | a colour exactly when parsing gave a raw value; `EnsureColor` succeeds exactly then |
| Colors.Color.IsOpaque | src/colorful.js:517-519 | a colour whose alpha is exactly 1; `EnsureOpaque` succeeds exactly then and `OpaqueOrTransparent` relates it to `IsTransparent` |
| Colors.Color.IsTransparent | src/colorful.js:521-523 | a colour whose alpha is below 1; `EnsureTransparent` succeeds exactly then |
| Colors.Color.constructor | src/colorful.js:487-492 | `new Color(value)` keeps the value and the raw colour `parseColor` yields, and is in range |
| Colors.Color.EnsureColor | src/colorful.js:500-503 | succeeds exactly for a colour; fails with the "not a valid colour" error, naming the input |
| Colors.Color.EnsureOpaque | src/colorful.js:505-509 | succeeds exactly for an opaque colour; fails first as `ensureColor` does, then with the "required to be opaque" error naming the alpha |
| Colors.Color.EnsureTransparent | src/colorful.js:511-515 | succeeds exactly for a transparent colour; fails first as `ensureColor` does, then with the "required to be transparent" error |
| Colors.Color.AsHex | src/colorful.js:532-536 | fails exactly when not opaque, with the `ensureOpaque` error; otherwise `#` unless `prefix` is `false`, then six digits of the options' case whose pairs are the rounded channels |
| Colors.Color.AsHexUC | src/colorful.js:538-540 | `asHex` with `upperCase`, so its six digits are upper case |
| Colors.Color.AsHexLC | src/colorful.js:542-544 | `asHex` with `lowerCase`, so its six digits are lower case |
| Colors.Color.AsRGB | src/colorful.js:546-549 | fails exactly when not opaque; otherwise `rgb(` and the rounded channels joined with `, ` |
| Colors.Color.AsPercentRGB | src/colorful.js:556-559 | fails exactly when not opaque; otherwise `rgb(` and the percentage texts joined with `, ` |
| Colors.Color.AsRGBA | src/colorful.js:561-564 | fails exactly when not a colour; otherwise `rgba(` with the rounded channels and the formatted alpha |
| Colors.Color.AsPercentRGBA | src/colorful.js:571-574 | fails exactly when not a colour; otherwise `rgba(` with the percentage texts and the formatted alpha |
| Colors.Color.AsRGBArray | src/colorful.js:581-584 | fails exactly when not opaque; otherwise the rounded channels, each in [0, 255] |
| Colors.Color.AsRGBAArray | src/colorful.js:586-589 | fails exactly when not a colour; otherwise the rounded channels and the exact alpha |
| Colors.Color.Equals | src/colorful.js:597-619 | `equals` of the other input made a colour: both colours, and equal `asRGBA` texts or, with a positive tolerance, channels within it and equal alphas |
| Colors.Color.CompareTo | src/colorful.js:603-618 | the comparison `equals` makes once the other value is a colour |
| Colors.Color.StrictlyEquals | src/colorful.js:625-628 | both are colours and their `asPercentRGBA` texts agree |
| Colors.RgbText | src/colorful.js:546-549 | the text of `asRGB`; `RgbTextIff` shows it determines the rounded channels |
| Colors.RgbaText | src/colorful.js:561-564 | the text of `asRGBA`; `RgbaTextSplit` shows it determines the rounded channels and the alpha text |
| Colors.PercentRgbaText | src/colorful.js:571-574 | the text of `asPercentRGBA`; `PercentRgbaSplit` shows it determines the percentage texts and the alpha text |
| Colors.RawEquals | src/colorful.js:597-619 | what `equals` decides on two raw values; `EqualsIff` characterises it on the channels |
| Colors.RawStrictlyEquals | src/colorful.js:625-628 | what `strictlyEquals` decides on two raw values; `StrictlyEqualsIff` characterises it on the percentages |
| Equality.RgbTextIff | src/colorful.js:546-549 | two `asRGB` texts agree exactly when the rounded channels do |
| Equality.PercentRgbTextIff | src/colorful.js:556-559 | two `asPercentRGB` texts agree exactly when the rounded percentages do |
| Equality.RgbaTextSplit | src/colorful.js:561-564 | two `asRGBA` texts agree exactly when the rounded channels and the alpha texts do, for any formatter |
| Equality.RgbaTextIff | src/colorful.js:561-564 | two `asRGBA` texts agree exactly when the rounded channels and the alphas do, for two alphas the formatter does not print alike |
| Equality.Slack | src/colorful.js:599 | the tolerance is never negative, and is the given one when that is positive |
| Equality.EqualsIff | src/colorful.js:597-619 | for two alphas the formatter does not print alike: two colours are equal exactly when their alphas are and each rounded channel lies within the tolerance (none unless positive) of the other's, bounds included |
| Equality.EqualsNeedsColors | src/colorful.js:597-628 | neither comparison holds unless both sides are colours |
| Equality.EqualsReflexive | src/colorful.js:597-619 | every colour equals itself at any tolerance |
| Equality.EqualsSymmetric | src/colorful.js:597-619 | `equals` does not depend on which colour asks |
| Equality.ToleranceExample | src/colorful.js:606-615 | a red and a red 5 darker are equal at tolerance 5 but not at 4 |
| Equality.PercentRgbaSplit | src/colorful.js:571-574 | two `asPercentRGBA` texts agree exactly when the percentage texts and the alpha texts do, for any formatter |
| Equality.PercentRgbaIff | src/colorful.js:571-574 | two `asPercentRGBA` texts agree exactly when the percentage texts and the alphas do, for two alphas the formatter does not print alike |
| Equality.PercentTextsIff | src/colorful.js:470-476 | the percentage texts agree exactly when the rounded percentages do |
| Equality.StrictlyEqualsIff | src/colorful.js:625-628 | for two alphas the formatter does not print alike: two colours are strictly equal exactly when their rounded percentages and alphas are |
| Equality.StrictlyEqualsRounded | src/colorful.js:597-628 | strictly equal colours whose channels round alike are equal at every tolerance |
| Equality.EqualsAlikeAlphas | src/colorful.js:597-628 | two colours whose alphas print alike are equal when their channels round alike and strictly equal when their percentages do, whatever the alphas |
| Properties.NotKeyword | src/colorful.js:40-189 | a string not starting with a lower-case letter is no keyword |
| Properties.NotFunctional | src/colorful.js:207-214 | text starting with `#` fails every functional notation |
| Properties.HexNoAlpha | src/colorful.js:203-206 | the hex notations carry no alpha |
| Properties.HashNotNamed | src/colorful.js:389-392 | a string starting with `#` is neither a keyword nor `transparent` |
| Properties.HashGrammars | src/colorful.js:394-399 | on a string starting with `#`, only the hex grammars can match, and they give no alpha |
| Properties.HashParse | src/colorful.js:387-412 | a string starting with `#` is a colour only through a hex notation, and then it is opaque |
| Properties.LongHexData | src/colorful.js:294-318 | the channels of a seven-character hex text are its three digit pairs in base 16 |
| Properties.AsHexText | src/colorful.js:532-536 | an `asHex` text with `#` has seven characters and is a hex text of its case, whose pairs are the rounded channels |
| Properties.HexRoundData | src/colorful.js:294-318 | the hex grammars read an `asHex` text with `#` as the rounded channels |
| Properties.HexRoundTrip | src/colorful.js:532-544 | parsing `asHex` output with `#` gives the rounded channels, opaque |
| Properties.HexRoundTripExact | src/colorful.js:532-544 | a colour with integer channels reads back from `asHex` unchanged |
| Properties.ShortHexData | src/colorful.js:294-318 | on `#09A`, only the upper-case short form matches, giving [0, 153, 170] |
| Properties.ShortHexExample | spec/color.spec.js:39 | `#09A` is the opaque colour [0, 153, 170] |
| Properties.MixedCaseData | src/colorful.js:197-206 | no hex grammar accepts a text with both a lower-case and an upper-case hex letter after `#` |
| Properties.MixedCaseRejected | src/colorful.js:294-318 | a text starting with `#` that holds both a lower-case and an upper-case hex letter is no colour |
| Properties.PercentMixing | src/colorful.js:209-212 | a colour string holds no `%` or exactly one per channel, so percentages and plain numbers do not mix |
| Properties.GrammarsPercentSigns | src/colorful.js:394-399 | whichever grammar accepts a text, the text holds no `%` or three |
| Properties.TransparentNoPercent | src/colorful.js:391-392 | no spelling of `transparent` holds a `%` |
| Properties.KeywordNoPercent | src/colorful.js:40-189 | no keyword holds a `%` |
| Properties.NotAColorInputs | src/colorful.js:362-415 | other values, arrays of any length other than 3 or 4, and objects without `r`, `g` and `b` are no colour |
| Properties.TransparentAnyCase | src/colorful.js:391-392 | `transparent` in any case is black with alpha 0 |
| Properties.OpaqueOrTransparent | src/colorful.js:517-523 | a colour in range is opaque or transparent, and never both |
| Properties.RoundExamples | src/colorful.js:235 | `Math.round` takes 254.4999 to 254 and 254.5 to 255, and also rounds halves up below zero |

## Left out

- Loader: the UMD wrapper and the use of underscore (src/colorful.js:1-34). Its helpers are written natively.
- Table lookups through the prototype chain (`CssColorNames["constructor"]`): the table is a finite list of its own entries.
- Floating point: the model computes on exact reals.
  - `_decimalAdjust` with a precision other than 0 is not modelled.
  - Neither is `toDecimalNotation`. The alpha text of `asRGBA` and `asPercentRGBA` comes from an abstract formatter `fmt`.
  - `rawToFraction`, `asAgColor` and `_asAgColorArray` are not modelled, because they produce only such text.
- Equality.RgbaTextIff: holds only for two alphas that print differently unless equal. `toDecimalNotation` prints alphas that need more than 20 fractional digits alike (src/colorful.js:455-463), and for those `RgbaTextSplit` is what holds.
- Equality.EqualsIff: holds only for two alphas that print differently unless equal. For alphas that print alike, such as 1e-21 and 2e-21, `equals` ignores the alpha difference (`EqualsAlikeAlphas`).
- Equality.PercentRgbaIff: holds only for two alphas that print differently unless equal; otherwise `PercentRgbaSplit` is what holds.
- Equality.StrictlyEqualsIff: holds only for two alphas that print differently unless equal. For alphas that print alike, `strictlyEquals` ignores the alpha difference (`EqualsAlikeAlphas`).
- Colors.RawToPercent: only precision 0 (and the default) is modelled.
- Colors.Color.AsPercentRGB: the `precision` option is not modelled; the text is that of precision 0.
- Colors.Color.AsPercentRGBA: the `precision` option is not modelled; the text is that of precision 0.
- Number-to-string conversion of array elements and object values: they are given to the model as the strings `join` makes of them.
- `rxOptionalAlpha` (src/colorful.js:193) is not used by the code.
- `toLowerCase` beyond ASCII: only ASCII letters are folded. No other character lower-cases onto a letter of `transparent`, so the comparison with `transparent` is decided the same way.
- Whole-string examples for the functional notations (such as `rgb(256, 0, 0)`) and lookups of named keywords (such as `red`) are not stated. The general lemmas cover them: `OutOfRangeTokens` for values out of range, `PercentMixing` for mixed percentages, `GetColorData` and `HexFirst` for the order of the grammars, and `EqualsNeedsColors` for comparisons with something that is no colour.
- Colors.Color.constructor: requires an existing colour passed to it to be in range. Every colour the constructor builds is in range, so the requirement holds for every colour of the library.
- Colors.Color.Equals: requires an existing colour passed as the other value to be in range, for the same reason. It models `new Color(otherColor)` by the raw colour that construction would give, not by allocating a new object.
- Colors.Color.StrictlyEquals: the same requirement and modelling as `Equals`.
