/**
 * Anchored colour grammars as sequences of pieces (the regular expressions
 * built by `buildColorRx`, src/colorful.js:273-283), a deterministic matcher
 * for them, and its agreement with the declarative reading of a regular
 * expression: a string matches when it can be cut into consecutive parts,
 * one per piece, each of which the piece accepts.
 */
module Pattern {
  import opened Wrappers
  import opened Text
  import opened Tokens

  datatype Piece =
    | Ws                              // `\s*`
    | Lit(c: char)                    // one literal character
    | Hex(width: nat, upper: bool)    // `([a-f\d]{width})`, or `([A-F\d]{width})` when upper
    | Num(kind: NumberKind)           // a captured numeric token

  predicate HexClass(upper: bool, c: char) {
    if upper then IsUpperHexDigit(c) else IsLowerHexDigit(c)
  }

  /** The pieces that are capture groups. */
  predicate IsCapture(p: Piece) {
    p.Hex? || p.Num?
  }

  /** The texts a single piece accepts. */
  predicate FitsPiece(p: Piece, t: string) {
    match p
    case Ws => forall i :: 0 <= i < |t| ==> IsSpace(t[i])
    case Lit(c) => t == [c]
    case Hex(w, u) => |t| == w && forall i :: 0 <= i < |t| ==> HexClass(u, t[i])
    case Num(k) => IsToken(k, t)
  }

  /** `f` cuts a text into one part per piece, each accepted by its piece. */
  predicate Fits(ps: seq<Piece>, f: seq<string>)
    decreases |ps|
  {
    |ps| == |f| && (ps == [] || (FitsPiece(ps[0], f[0]) && Fits(ps[1..], f[1..])))
  }

  /** The text a cut is made of. */
  function Concat(f: seq<string>): string
    decreases |f|
  {
    if f == [] then "" else f[0] + Concat(f[1..])
  }

  /** The parts of a cut that fall to capture groups, in order. */
  function Captured(ps: seq<Piece>, f: seq<string>): seq<string>
    requires |ps| == |f|
    decreases |ps|
  {
    if ps == [] then []
    else (if IsCapture(ps[0]) then [f[0]] else []) + Captured(ps[1..], f[1..])
  }

  /** The capture groups of a pattern, in order. */
  function CaptureGroups(ps: seq<Piece>): seq<Piece>
    decreases |ps|
  {
    if ps == [] then [] else (if IsCapture(ps[0]) then [ps[0]] else []) + CaptureGroups(ps[1..])
  }

  // ---------------------------------------------------------------------
  // The matcher

  /**
   * How much of `s` a piece consumes: white space and numeric tokens take
   * the longest run of their characters, literals and hex groups their
   * fixed width.
   */
  function Take(p: Piece, s: string): (n: Option<nat>)
    ensures n.Some? ==> n.value <= |s| && FitsPiece(p, s[..n.value])
  {
    match p
    case Ws => Some(Span(s, IsSpace))
    case Lit(c) => if |s| > 0 && s[0] == c then Some(1) else None
    case Hex(w, u) =>
      if w <= |s| && forall i :: 0 <= i < w ==> HexClass(u, s[i]) then Some(w) else None
    case Num(k) =>
      var n := Span(s, IsNumeralChar);
      if IsToken(k, s[..n]) then Some(n) else None
  }

  /** Matches the whole of `s` against `ps`; every cut it returns is a valid cut of `s`. */
  function Split(ps: seq<Piece>, s: string): (r: Option<seq<string>>)
    ensures r.Some? ==> Fits(ps, r.value) && Concat(r.value) == s
    decreases |ps|
  {
    if ps == [] then (if s == [] then Some([]) else None)
    else
      match Take(ps[0], s)
      case None => None
      case Some(n) =>
        match Split(ps[1..], s[n..])
        case None => None
        case Some(f) =>
          assert s == s[..n] + s[n..];
          Some([s[..n]] + f)
  }

  /**
   * `s.match(rx)` for an anchored pattern: the captured texts, one per
   * capture group, each accepted by its group.
   */
  function Match(ps: seq<Piece>, s: string): (r: Option<seq<string>>)
    ensures r.Some? ==> |r.value| == |CaptureGroups(ps)|
    ensures r.Some? ==> forall i :: 0 <= i < |r.value| ==> FitsPiece(CaptureGroups(ps)[i], r.value[i])
  {
    match Split(ps, s)
    case None => None
    case Some(f) =>
      CapturedCount(ps, f);
      assert forall i :: 0 <= i < |CaptureGroups(ps)| ==> FitsPiece(CaptureGroups(ps)[i], Captured(ps, f)[i]) by {
        forall i | 0 <= i < |CaptureGroups(ps)| {
          CapturedFit(ps, f, i);
        }
      }
      Some(Captured(ps, f))
  }

  // ---------------------------------------------------------------------
  // Patterns whose cuts are unique

  /** Every text the piece accepts starts with a character that is not white space. */
  predicate Solid(p: Piece) {
    match p
    case Ws => false
    case Lit(c) => !IsSpace(c)
    case Hex(w, _) => w > 0
    case Num(_) => true
  }

  predicate StopsNumeral(p: Piece) {
    p.Lit? && !IsNumeralChar(p.c)
  }

  /** What follows a numeric token cannot start with a digit or a point. */
  predicate NumeralStop(next: seq<Piece>) {
    next == [] || StopsNumeral(next[0])
    || (next[0] == Ws && (|next| == 1 || StopsNumeral(next[1])))
  }

  predicate Guarded(p: Piece, next: seq<Piece>) {
    match p
    case Ws => next == [] || Solid(next[0])
    case Num(_) => NumeralStop(next)
    case _ => true
  }

  /**
   * Every white space piece is followed by a piece that cannot start with
   * white space, and every numeric token by something that cannot continue
   * it. For such patterns the longest runs the matcher takes are the only
   * possible cut.
   */
  predicate Separated(ps: seq<Piece>)
    decreases |ps|
  {
    ps == [] || (Guarded(ps[0], ps[1..]) && Separated(ps[1..]))
  }

  // ---------------------------------------------------------------------
  // Lemmas

  lemma {:induction false} CapturedCount(ps: seq<Piece>, f: seq<string>)
    requires |ps| == |f|
    ensures |Captured(ps, f)| == |CaptureGroups(ps)|
    decreases |ps|
  {
    if ps != [] {
      CapturedCount(ps[1..], f[1..]);
    }
  }

  /** Each captured part is accepted by its capture group. */
  lemma {:induction false} CapturedFit(ps: seq<Piece>, f: seq<string>, i: nat)
    requires Fits(ps, f) && i < |CaptureGroups(ps)|
    ensures |Captured(ps, f)| == |CaptureGroups(ps)|
    ensures FitsPiece(CaptureGroups(ps)[i], Captured(ps, f)[i])
    decreases |ps|
  {
    CapturedCount(ps, f);
    CapturedCount(ps[1..], f[1..]);
    if IsCapture(ps[0]) && i > 0 {
      CapturedFit(ps[1..], f[1..], i - 1);
    } else if !IsCapture(ps[0]) {
      CapturedFit(ps[1..], f[1..], i);
    }
  }

  lemma {:induction false} CaptureGroupsAppend(a: seq<Piece>, b: seq<Piece>)
    ensures CaptureGroups(a + b) == CaptureGroups(a) + CaptureGroups(b)
    decreases |a|
  {
    if a != [] {
      assert (a + b)[0] == a[0] && (a + b)[1..] == a[1..] + b;
      CaptureGroupsAppend(a[1..], b);
      var h := if IsCapture(a[0]) then [a[0]] else [];
      calc {
        CaptureGroups(a + b);
        h + CaptureGroups(a[1..] + b);
        h + (CaptureGroups(a[1..]) + CaptureGroups(b));
        (h + CaptureGroups(a[1..])) + CaptureGroups(b);
      }
    } else {
      assert a + b == b;
    }
  }

  /** Appending after a literal piece keeps a pattern separated. */
  lemma {:induction false} SeparatedAppend(a: seq<Piece>, b: seq<Piece>)
    requires Separated(a) && Separated(b) && a != [] && a[|a| - 1].Lit?
    ensures Separated(a + b)
    decreases |a|
  {
    assert (a + b)[1..] == a[1..] + b;
    if |a| > 1 {
      SeparatedAppend(a[1..], b);
    }
  }

  lemma ConcatHead(f: seq<string>)
    requires f != [] && f[0] != []
    ensures Concat(f) != [] && Concat(f)[0] == f[0][0]
  {
  }

  lemma ConcatSkip(f: seq<string>)
    requires f != [] && f[0] == []
    ensures Concat(f) == Concat(f[1..])
  {
  }

  /** A text cut by a pattern that starts with a solid piece does not start with white space. */
  lemma LeadsSolid(ps: seq<Piece>, f: seq<string>)
    requires Fits(ps, f) && (ps == [] || Solid(ps[0]))
    ensures Concat(f) == [] || !IsSpace(Concat(f)[0])
  {
    if ps != [] {
      match ps[0]
      case Lit(c) => ConcatHead(f);
      case Hex(w, u) => ConcatHead(f);
      case Num(k) => TokenIsNumeral(k, f[0]); ConcatHead(f);
    }
  }

  lemma LeadsStopped(ps: seq<Piece>, f: seq<string>)
    requires Fits(ps, f) && ps != [] && StopsNumeral(ps[0])
    ensures Concat(f) != [] && !IsNumeralChar(Concat(f)[0])
  {
    ConcatHead(f);
  }

  /** A text cut by a pattern that stops numerals does not start with a digit or a point. */
  lemma LeadsNonNumeral(ps: seq<Piece>, f: seq<string>)
    requires Fits(ps, f) && NumeralStop(ps)
    ensures Concat(f) == [] || !IsNumeralChar(Concat(f)[0])
  {
    if ps != [] && StopsNumeral(ps[0]) {
      LeadsStopped(ps, f);
    } else if ps != [] {
      if f[0] != [] {
        ConcatHead(f);
      } else {
        ConcatSkip(f);
        if |ps| > 1 {
          LeadsStopped(ps[1..], f[1..]);
        }
      }
    }
  }

  /** In a separated pattern, each piece consumes exactly its own part of a valid cut. */
  lemma TakeExact(p: Piece, t: string, next: seq<Piece>, g: seq<string>)
    requires FitsPiece(p, t) && Guarded(p, next) && Fits(next, g)
    ensures Take(p, t + Concat(g)) == Some(|t|)
  {
    var r := Concat(g);
    assert (t + r)[..|t|] == t;
    match p
    case Ws =>
      LeadsSolid(next, g);
      SpanPrefix(t, r, IsSpace);
    case Lit(c) =>
    case Hex(w, u) =>
      assert forall i :: 0 <= i < w ==> (t + r)[i] == t[i];
    case Num(k) =>
      TokenIsNumeral(k, t);
      LeadsNonNumeral(next, g);
      SpanPrefix(t, r, IsNumeralChar);
  }

  /** Completeness: the matcher finds every valid cut of a separated pattern. */
  lemma {:induction false} SplitComplete(ps: seq<Piece>, f: seq<string>)
    requires Separated(ps) && Fits(ps, f)
    ensures Split(ps, Concat(f)) == Some(f)
    decreases |ps|
  {
    if ps != [] {
      var s, rest := Concat(f), Concat(f[1..]);
      SplitComplete(ps[1..], f[1..]);
      TakeExact(ps[0], f[0], ps[1..], f[1..]);
      assert s[|f[0]|..] == rest;
      assert s[..|f[0]|] == f[0];
      assert [f[0]] + f[1..] == f;
    }
  }

  /** For a separated pattern, `Split` finds a cut exactly when one exists. */
  lemma SplitIff(ps: seq<Piece>, s: string, f: seq<string>)
    requires Separated(ps)
    ensures Split(ps, s) == Some(f) <==> Fits(ps, f) && Concat(f) == s
  {
    if Fits(ps, f) && Concat(f) == s {
      SplitComplete(ps, f);
    }
  }

  /** A separated pattern cuts a text in at most one way. */
  lemma CutUnique(ps: seq<Piece>, f: seq<string>, g: seq<string>)
    requires Separated(ps) && Fits(ps, f) && Fits(ps, g) && Concat(f) == Concat(g)
    ensures f == g
  {
    SplitComplete(ps, f);
    SplitComplete(ps, g);
  }

  // ---------------------------------------------------------------------
  // Cuts of concatenated patterns

  lemma {:induction false} ConcatAppend(f: seq<string>, g: seq<string>)
    ensures Concat(f + g) == Concat(f) + Concat(g)
    decreases |f|
  {
    if f == [] {
      assert f + g == g;
    } else {
      assert (f + g)[1..] == f[1..] + g;
      ConcatAppend(f[1..], g);
    }
  }

  /** A cut of `a + b` is a cut of `a` followed by a cut of `b`. */
  lemma {:induction false} FitsAppend(a: seq<Piece>, b: seq<Piece>, f: seq<string>, g: seq<string>)
    requires |a| == |f| && |b| == |g|
    ensures Fits(a + b, f + g) <==> Fits(a, f) && Fits(b, g)
    decreases |a|
  {
    if a == [] {
      assert a + b == b && f + g == g;
    } else {
      assert (a + b)[1..] == a[1..] + b && (f + g)[1..] == f[1..] + g;
      FitsAppend(a[1..], b, f[1..], g);
    }
  }

  lemma {:induction false} CapturedAppend(a: seq<Piece>, b: seq<Piece>, f: seq<string>, g: seq<string>)
    requires |a| == |f| && |b| == |g|
    ensures Captured(a + b, f + g) == Captured(a, f) + Captured(b, g)
    decreases |a|
  {
    if a == [] {
      assert a + b == b && f + g == g;
    } else {
      assert (a + b)[1..] == a[1..] + b && (f + g)[1..] == f[1..] + g;
      CapturedAppend(a[1..], b, f[1..], g);
      var h := if IsCapture(a[0]) then [f[0]] else [];
      calc {
        Captured(a + b, f + g);
        h + Captured(a[1..] + b, f[1..] + g);
        h + (Captured(a[1..], f[1..]) + Captured(b, g));
        (h + Captured(a[1..], f[1..])) + Captured(b, g);
      }
    }
  }

  lemma Single(p: Piece, t: string)
    ensures Fits([p], [t]) <==> FitsPiece(p, t)
    ensures Concat([t]) == t
    ensures Captured([p], [t]) == if IsCapture(p) then [t] else []
  {
    assert [t][1..] == [];
  }

  /** A cut fits when each part is accepted by its own piece. */
  lemma {:induction false} FitsIff(ps: seq<Piece>, f: seq<string>)
    ensures Fits(ps, f) <==> |ps| == |f| && forall i :: 0 <= i < |ps| ==> FitsPiece(ps[i], f[i])
    decreases |ps|
  {
    if ps != [] && |ps| == |f| {
      FitsIff(ps[1..], f[1..]);
      assert forall i :: 1 <= i < |ps| ==> ps[1..][i - 1] == ps[i] && f[1..][i - 1] == f[i];
    }
  }

  lemma Concat6(f: seq<string>)
    requires |f| == 6
    ensures Concat(f) == f[0] + f[1] + f[2] + f[3] + f[4] + f[5]
  {
    assert Concat(f[5..]) == f[5];
    assert Concat(f[4..]) == f[4] + f[5];
    assert Concat(f[3..]) == f[3] + f[4] + f[5];
    assert Concat(f[2..]) == f[2] + f[3] + f[4] + f[5];
    assert Concat(f[1..]) == f[1] + f[2] + f[3] + f[4] + f[5];
  }

  // ---------------------------------------------------------------------
  // Literal characters of a cut

  /** How many pieces of `ps` are the literal `c`. */
  function LitCount(ps: seq<Piece>, c: char): nat
    decreases |ps|
  {
    if ps == [] then 0 else (if ps[0] == Lit(c) then 1 else 0) + LitCount(ps[1..], c)
  }

  lemma {:induction false} LitCountAppend(a: seq<Piece>, b: seq<Piece>, c: char)
    ensures LitCount(a + b, c) == LitCount(a, c) + LitCount(b, c)
    decreases |a|
  {
    if a == [] {
      assert a + b == b;
    } else {
      assert (a + b)[1..] == a[1..] + b;
      LitCountAppend(a[1..], b, c);
    }
  }

  /** A character that no white space, hex digit or numeral is occurs only where a literal puts it. */
  predicate PlainChar(c: char) {
    !IsSpace(c) && !IsHexDigit(c) && !IsNumeralChar(c)
  }

  lemma PieceOccurrences(p: Piece, t: string, c: char)
    requires FitsPiece(p, t) && PlainChar(c)
    ensures Occurrences(c, t) == if p == Lit(c) then 1 else 0
  {
    match p
    case Ws => OccurrencesNone(c, t);
    case Lit(d) =>
    case Hex(w, u) => OccurrencesNone(c, t);
    case Num(k) => TokenIsNumeral(k, t); OccurrencesNone(c, t);
  }

  /** In a cut text, a plain character occurs once per literal piece of it. */
  lemma {:induction false} CutOccurrences(ps: seq<Piece>, f: seq<string>, c: char)
    requires Fits(ps, f) && PlainChar(c)
    ensures Occurrences(c, Concat(f)) == LitCount(ps, c)
    decreases |ps|
  {
    if ps != [] {
      PieceOccurrences(ps[0], f[0], c);
      CutOccurrences(ps[1..], f[1..], c);
      OccurrencesAppend(c, f[0], Concat(f[1..]));
    }
  }
}

