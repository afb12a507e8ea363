/**
 * The content formatter of `displayContent`: the text of a loaded file is split on
 * empty lines ("\n\n"), every piece is trimmed, empty pieces are dropped, and each
 * survivor is wrapped in a paragraph element; the elements are concatenated in order.
 * The three scripts carry the same pipeline.
 */
module Paragraphs {

  /** The separator `split` is called with: one empty line. */
  const Separator: string := "\n\n"

  /** ECMAScript WhiteSpace and LineTerminator code points: what `String.prototype.trim` removes. */
  predicate IsSpace(c: char) {
    c == '\t' || c == '\n' || c == '\U{000B}' || c == '\U{000C}' || c == '\r' || c == ' '
    || c == '\U{00A0}' || c == '\U{1680}' || ('\U{2000}' <= c <= '\U{200A}')
    || c == '\U{2028}' || c == '\U{2029}' || c == '\U{202F}' || c == '\U{205F}'
    || c == '\U{3000}' || c == '\U{FEFF}'
  }

  ghost predicate AllSpace(s: string) {
    forall i :: 0 <= i < |s| ==> IsSpace(s[i])
  }

  /** True if the separator occurs nowhere inside `s`. */
  ghost predicate NoSeparator(s: string) {
    forall i :: 0 <= i < |s| - 1 ==> !(s[i] == '\n' && s[i + 1] == '\n')
  }

  /** Leading white space removed: the longest suffix of `s` that does not start with white space. */
  function TrimStart(s: string): (r: string)
    ensures |r| <= |s| && r == s[|s| - |r|..]
    ensures forall i :: 0 <= i < |s| - |r| ==> IsSpace(s[i])
    ensures r == [] || !IsSpace(r[0])
    decreases |s|
  {
    if |s| > 0 && IsSpace(s[0]) then TrimStart(s[1..]) else s
  }

  /** Trailing white space removed: the longest prefix of `s` that does not end with white space. */
  function TrimEnd(s: string): (r: string)
    ensures |r| <= |s| && r == s[..|r|]
    ensures forall i :: |r| <= i < |s| ==> IsSpace(s[i])
    ensures r == [] || !IsSpace(r[|r| - 1])
    decreases |s|
  {
    if |s| > 0 && IsSpace(s[|s| - 1]) then TrimEnd(s[..|s| - 1]) else s
  }

  /** `String.prototype.trim`. */
  function Trim(s: string): (r: string)
    ensures r == [] <==> AllSpace(s)
    ensures r == [] || (!IsSpace(r[0]) && !IsSpace(r[|r| - 1]))
  {
    var t := TrimStart(s);
    var r := TrimEnd(t);
    assert r != [] ==> r[0] == t[0];
    r
  }

  /** Trimming only cuts off ends: the result is a slice of `s` with nothing but white space
      before and after it. */
  lemma TrimCutsEnds(s: string)
    ensures exists i, j :: 0 <= i <= j <= |s| && Trim(s) == s[i..j]
                           && (forall k :: 0 <= k < i ==> IsSpace(s[k]))
                           && (forall k :: j <= k < |s| ==> IsSpace(s[k]))
  {
    var t := TrimStart(s);
    var r := TrimEnd(t);
    var i, j := |s| - |t|, |s| - |t| + |r|;
    assert t == s[i..] && r == t[..|r|];
    forall k | j <= k < |s|
      ensures IsSpace(s[k])
    {
      assert s[k] == t[k - i];
    }
    assert Trim(s) == s[i..j];
  }

  /** `s.split("\n\n")`: the pieces between successive separators, found left to right. */
  function Split(s: string): (pieces: seq<string>)
    ensures |pieces| >= 1
    ensures |pieces[0]| <= |s| && pieces[0] == s[..|pieces[0]|]
    decreases |s|
  {
    if |s| < 2 then [s]
    else if s[..2] == Separator then [""] + Split(s[2..])
    else
      var rest := Split(s[1..]);
      [[s[0]] + rest[0]] + rest[1..]
  }

  /** `pieces.join("\n\n")`, the inverse of Split. */
  function Join(pieces: seq<string>): string {
    if pieces == [] then ""
    else if |pieces| == 1 then pieces[0]
    else pieces[0] + Separator + Join(pieces[1..])
  }

  /** `.map((paragraph) => paragraph.trim())` */
  function TrimAll(pieces: seq<string>): seq<string> {
    if pieces == [] then [] else [Trim(pieces[0])] + TrimAll(pieces[1..])
  }

  /** `.filter((paragraph) => paragraph.length > 0)` */
  function NonEmpty(ts: seq<string>): seq<string> {
    if ts == [] then [] else (if ts[0] == [] then [] else [ts[0]]) + NonEmpty(ts[1..])
  }

  /** One paragraph element. */
  function Wrap(p: string): string {
    "<p>" + p + "</p>"
  }

  /** `.map((paragraph) => `<p>${paragraph}</p>`).join("")` */
  function WrapAll(ps: seq<string>): string {
    if ps == [] then "" else Wrap(ps[0]) + WrapAll(ps[1..])
  }

  /** The paragraphs `displayContent` keeps, in file order. */
  function ParagraphsOf(content: string): seq<string> {
    NonEmpty(TrimAll(Split(content)))
  }

  /** The markup `displayContent` installs as the content element's innerHTML. */
  function FormatParagraphs(content: string): string {
    WrapAll(ParagraphsOf(content))
  }

  // ---------------------------------------------------------------------------
  // Reference definition: what each separator-delimited piece contributes.

  /** The contribution of one piece: its trimmed text in a paragraph element, nothing if blank. */
  function Block(piece: string): (r: string)
    ensures r == [] <==> AllSpace(piece)
    ensures r != [] ==> r == Wrap(Trim(piece))
  {
    if Trim(piece) == [] then [] else Wrap(Trim(piece))
  }

  function Render(pieces: seq<string>): string {
    if pieces == [] then [] else Block(pieces[0]) + Render(pieces[1..])
  }

  /** The number of pieces that are not blank. */
  ghost function CountNonBlank(pieces: seq<string>): nat {
    if pieces == [] then 0 else (if AllSpace(pieces[0]) then 0 else 1) + CountNonBlank(pieces[1..])
  }

  // ---------------------------------------------------------------------------
  // Split and Join

  lemma {:induction false} JoinCons(c: char, rest: seq<string>)
    requires |rest| >= 1
    ensures Join([[c] + rest[0]] + rest[1..]) == [c] + Join(rest)
  {
    var ps := [[c] + rest[0]] + rest[1..];
    assert ps[1..] == rest[1..];
  }

  /** Gluing the pieces back together gives the original text. */
  lemma {:induction false} JoinSplit(s: string)
    ensures Join(Split(s)) == s
    decreases |s|
  {
    if |s| < 2 {
    } else if s[..2] == Separator {
      JoinSplit(s[2..]);
      var rest := Split(s[2..]);
      assert Split(s) == [""] + rest;
      assert ([""] + rest)[1..] == rest;
      assert s == Separator + s[2..];
    } else {
      JoinSplit(s[1..]);
      JoinCons(s[0], Split(s[1..]));
      assert s == [s[0]] + s[1..];
    }
  }

  /** No piece contains the separator. */
  lemma {:induction false} SplitHasNoSeparator(s: string)
    ensures forall i :: 0 <= i < |Split(s)| ==> NoSeparator(Split(s)[i])
    decreases |s|
  {
    if |s| < 2 {
    } else if s[..2] == Separator {
      SplitHasNoSeparator(s[2..]);
      var rest := Split(s[2..]);
      assert Split(s) == [""] + rest;
      forall i | 0 <= i < |Split(s)| ensures NoSeparator(Split(s)[i]) {
        if i > 0 { assert Split(s)[i] == rest[i - 1]; }
      }
    } else {
      SplitHasNoSeparator(s[1..]);
      var rest := Split(s[1..]);
      var first := [s[0]] + rest[0];
      assert Split(s) == [first] + rest[1..];
      assert NoSeparator(rest[0]);
      forall i | 0 <= i < |Split(s)| ensures NoSeparator(Split(s)[i]) {
        if i == 0 {
          forall j | 0 <= j < |first| - 1 ensures !(first[j] == '\n' && first[j + 1] == '\n') {
            if j == 0 {
              assert first[1] == rest[0][0] == s[1..][0] == s[1];
              assert s[..2] == [s[0], s[1]];
            } else {
              assert first[j] == rest[0][j - 1] && first[j + 1] == rest[0][j];
            }
          }
        } else {
          assert Split(s)[i] == rest[i];
        }
      }
    }
  }

  /** A text without the separator is one piece. */
  lemma {:induction false} SplitWithoutSeparator(p: string)
    requires NoSeparator(p)
    ensures Split(p) == [p]
    decreases |p|
  {
    if |p| >= 2 {
      assert p[..2] == [p[0], p[1]];
      forall j | 0 <= j < |p[1..]| - 1 ensures !(p[1..][j] == '\n' && p[1..][j + 1] == '\n') {
        assert p[1..][j] == p[j + 1] && p[1..][j + 1] == p[j + 2];
      }
      SplitWithoutSeparator(p[1..]);
      assert p == [p[0]] + p[1..];
    }
  }

  /** A piece that holds no separator and does not end in a newline is cut off at the separator after it. */
  lemma {:induction false} SplitAfterPiece(p: string, u: string)
    requires NoSeparator(p)
    requires p == [] || p[|p| - 1] != '\n'
    ensures Split(p + Separator + u) == [p] + Split(u)
    decreases |p|
  {
    var s := p + Separator + u;
    if p == [] {
      assert s == Separator + u;
      assert s[..2] == Separator && s[2..] == u;
    } else {
      assert s[..2] == [s[0], s[1]];
      assert s[0] == p[0];
      assert |p| >= 2 ==> s[1] == p[1];
      var p' := p[1..];
      forall j | 0 <= j < |p'| - 1 ensures !(p'[j] == '\n' && p'[j + 1] == '\n') {
        assert p'[j] == p[j + 1] && p'[j + 1] == p[j + 2];
      }
      assert p' == [] || p'[|p'| - 1] == p[|p| - 1];
      SplitAfterPiece(p', u);
      assert s[1..] == p' + Separator + u;
      assert p == [p[0]] + p';
      assert ([p'] + Split(u))[1..] == Split(u);
    }
  }

  /** Splitting the joined pieces gives them back, when no piece holds the separator and no
      piece but the last ends in a newline (otherwise the separator would be found earlier). */
  lemma {:induction false} SplitJoin(ps: seq<string>)
    requires |ps| >= 1
    requires forall i :: 0 <= i < |ps| ==> NoSeparator(ps[i])
    requires forall i :: 0 <= i < |ps| - 1 ==> ps[i] == [] || ps[i][|ps[i]| - 1] != '\n'
    ensures Split(Join(ps)) == ps
  {
    if |ps| == 1 {
      SplitWithoutSeparator(ps[0]);
    } else {
      SplitJoin(ps[1..]);
      SplitAfterPiece(ps[0], Join(ps[1..]));
      assert ps == [ps[0]] + ps[1..];
    }
  }

  // ---------------------------------------------------------------------------
  // The pipeline against the reference definition

  lemma {:induction false} PipelineIsRender(pieces: seq<string>)
    ensures WrapAll(NonEmpty(TrimAll(pieces))) == Render(pieces)
  {
    if pieces != [] {
      PipelineIsRender(pieces[1..]);
      var t := TrimAll(pieces);
      assert t[0] == Trim(pieces[0]) && t[1..] == TrimAll(pieces[1..]);
      var rest := NonEmpty(t[1..]);
      if t[0] != [] {
        assert NonEmpty(t) == [t[0]] + rest;
        assert ([t[0]] + rest)[1..] == rest;
      } else {
        assert NonEmpty(t) == rest;
      }
    }
  }

  /** The formatter emits, in file order, one trimmed paragraph element per separator-delimited
      piece that is not blank; blank pieces contribute nothing. */
  lemma FormatIsPerPiece(content: string)
    ensures FormatParagraphs(content) == Render(Split(content))
    ensures forall i :: 0 <= i < |Split(content)| && AllSpace(Split(content)[i]) ==> Block(Split(content)[i]) == []
  {
    PipelineIsRender(Split(content));
  }

  /** The filter keeps one paragraph per piece that is not blank. */
  lemma {:induction false} KeptCount(pieces: seq<string>)
    ensures |NonEmpty(TrimAll(pieces))| == CountNonBlank(pieces)
  {
    if pieces != [] {
      KeptCount(pieces[1..]);
      var t := TrimAll(pieces);
      assert t[0] == Trim(pieces[0]) && t[1..] == TrimAll(pieces[1..]);
    }
  }

  /** Every paragraph the filter keeps is non-empty and already trimmed. */
  lemma {:induction false} KeptTrimmed(pieces: seq<string>)
    ensures forall p :: p in NonEmpty(TrimAll(pieces)) ==> p != [] && Trim(p) == p
  {
    if pieces != [] {
      KeptTrimmed(pieces[1..]);
      var t := TrimAll(pieces);
      var rest := NonEmpty(TrimAll(pieces[1..]));
      assert t[0] == Trim(pieces[0]) && t[1..] == TrimAll(pieces[1..]);
      if t[0] == [] {
        assert NonEmpty(t) == rest;
      } else {
        TrimmedIsFixed(t[0]);
        assert NonEmpty(t) == [t[0]] + rest;
      }
    }
  }

  lemma KeptPieces(pieces: seq<string>)
    ensures |NonEmpty(TrimAll(pieces))| == CountNonBlank(pieces)
    ensures forall p :: p in NonEmpty(TrimAll(pieces)) ==> p != [] && Trim(p) == p
  {
    KeptCount(pieces);
    KeptTrimmed(pieces);
  }

  /** Trimming text that neither starts nor ends with white space changes nothing. */
  lemma TrimmedIsFixed(s: string)
    requires s == [] || (!IsSpace(s[0]) && !IsSpace(s[|s| - 1]))
    ensures Trim(s) == s
  {
    assert TrimStart(s) == s;
  }

  /** As many paragraphs as pieces that are not blank, each non-empty and already trimmed. */
  lemma ParagraphCount(content: string)
    ensures |ParagraphsOf(content)| == CountNonBlank(Split(content))
    ensures forall p :: p in ParagraphsOf(content) ==> p != [] && Trim(p) == p
  {
    KeptPieces(Split(content));
  }

  /** A file made of trimmed, non-empty paragraphs separated by empty lines comes back as exactly
      those paragraphs, in order, each in its own paragraph element. */
  lemma {:induction false} FormatOfJoinedParagraphs(ps: seq<string>)
    requires forall i :: 0 <= i < |ps| ==>
      ps[i] != [] && !IsSpace(ps[i][0]) && !IsSpace(ps[i][|ps[i]| - 1]) && NoSeparator(ps[i])
    ensures ParagraphsOf(Join(ps)) == ps
    ensures FormatParagraphs(Join(ps)) == WrapAll(ps)
  {
    if ps == [] {
      assert Split("") == [""];
      assert TrimAll([""]) == [""];
    } else {
      SplitJoin(ps);
      KeepsTrimmed(ps);
    }
  }

  lemma {:induction false} KeepsTrimmed(ps: seq<string>)
    requires forall i :: 0 <= i < |ps| ==> ps[i] != [] && !IsSpace(ps[i][0]) && !IsSpace(ps[i][|ps[i]| - 1])
    ensures NonEmpty(TrimAll(ps)) == ps
  {
    if ps != [] {
      TrimmedIsFixed(ps[0]);
      KeepsTrimmed(ps[1..]);
      var t := TrimAll(ps);
      assert t[0] == ps[0] && t[1..] == TrimAll(ps[1..]);
      assert NonEmpty(t) == [ps[0]] + NonEmpty(t[1..]);
      assert ps == [ps[0]] + ps[1..];
    }
  }
}
