/** The text normalization of apps/api/pdi/ingestion/extraction.py, on text that is already in
    Unicode form NFKC. */
module Normalization {
  /** What Python strips and what `\s` matches. */
  predicate Space(c: char) {
    || '\t' <= c <= '\r'
    || '\U{1C}' <= c <= ' '
    || c == '\U{85}' || c == '\U{A0}' || c == '\U{1680}'
    || '\U{2000}' <= c <= '\U{200A}'
    || c == '\U{2028}' || c == '\U{2029}' || c == '\U{202F}' || c == '\U{205F}' || c == '\U{3000}'
  }

  lemma SpaceIs(c: char)
    ensures Space(c) <==>
              c in {'\t', '\n', '\U{0B}', '\U{0C}', '\r', '\U{1C}', '\U{1D}', '\U{1E}', '\U{1F}', ' ', '\U{85}', '\U{A0}',
                    '\U{1680}', '\U{2000}', '\U{2001}', '\U{2002}', '\U{2003}', '\U{2004}', '\U{2005}', '\U{2006}',
                    '\U{2007}', '\U{2008}', '\U{2009}', '\U{200A}', '\U{2028}', '\U{2029}', '\U{202F}', '\U{205F}', '\U{3000}'}
  {
    if Space(c) {
      assert c as int in {9, 10, 11, 12, 13, 28, 29, 30, 31, 32, 0x85, 0xA0, 0x1680, 0x2028, 0x2029, 0x202F, 0x205F, 0x3000}
             || 0x2000 <= c as int <= 0x200A;
    }
  }

  // ---------- the steps ----------

  function ReplaceCrLf(s: string): string {
    if s == "" then ""
    else if |s| >= 2 && s[0] == '\r' && s[1] == '\n' then "\n" + ReplaceCrLf(s[2..])
    else [s[0]] + ReplaceCrLf(s[1..])
  }

  function ReplaceCr(s: string): string {
    if s == "" then "" else [if s[0] == '\r' then '\n' else s[0]] + ReplaceCr(s[1..])
  }

  function Split(s: string): (lines: seq<string>)
    ensures lines != []
  {
    if s == "" then [""]
    else
      var rest := Split(s[1..]);
      if s[0] == '\n' then [""] + rest else [[s[0]] + rest[0]] + rest[1..]
  }

  function RStrip(s: string): string {
    if s != "" && Space(s[|s| - 1]) then RStrip(s[..|s| - 1]) else s
  }

  function LStrip(s: string): string {
    if s != "" && Space(s[0]) then LStrip(s[1..]) else s
  }

  function Join(lines: seq<string>): string
    requires lines != []
  {
    if |lines| == 1 then RStrip(lines[0]) else RStrip(lines[0]) + "\n" + Join(lines[1..])
  }

  /** Trailing white space of every line goes. */
  function StripLines(s: string): string { Join(Split(s)) }

  function LeadingNewlines(s: string): (n: nat)
    ensures n <= |s| && (forall i :: 0 <= i < n ==> s[i] == '\n') && (n < |s| ==> s[n] != '\n')
  {
    if s == "" || s[0] != '\n' then 0 else 1 + LeadingNewlines(s[1..])
  }

  /** Three newlines or more become two. */
  function Collapse(s: string): string
    decreases |s|
  {
    if s == "" then ""
    else if s[0] != '\n' then [s[0]] + Collapse(s[1..])
    else
      var n := LeadingNewlines(s);
      (if n >= 3 then "\n\n" else s[..n]) + Collapse(s[n..])
  }

  function NormalizeText(s: string): string {
    RStrip(LStrip(Collapse(StripLines(ReplaceCr(ReplaceCrLf(s))))))
  }

  /** The characters that are not white space, in order. */
  function Ink(s: string): string {
    if s == "" then "" else (if Space(s[0]) then "" else [s[0]]) + Ink(s[1..])
  }

  // ---------- normal text ----------

  predicate NoReturns(s: string) { '\r' !in s }

  /** White space, though no newline, that ends a line. */
  predicate TrailingAt(s: string, i: nat)
    requires i < |s|
  {
    Space(s[i]) && s[i] != '\n' && (i + 1 == |s| || s[i + 1] == '\n')
  }

  predicate LinesTrimmed(s: string) { forall i: nat :: i < |s| ==> !TrailingAt(s, i) }

  predicate TripleAt(s: string, i: nat) {
    i + 2 < |s| && s[i] == '\n' && s[i + 1] == '\n' && s[i + 2] == '\n'
  }

  predicate NoTripleNewline(s: string) { forall i: nat :: i < |s| ==> !TripleAt(s, i) }

  predicate Trimmed(s: string) { s != "" ==> !Space(s[0]) && !Space(s[|s| - 1]) }

  predicate Normal(s: string) { NoReturns(s) && LinesTrimmed(s) && NoTripleNewline(s) && Trimmed(s) }

  lemma LineEndsAreSpace()
    ensures Space('\n') && Space('\r') && Space(' ')
  {
  }

  // ---------- one more character in front ----------

  lemma InkFront(c: char, t: string)
    ensures Ink([c] + t) == (if Space(c) then "" else [c]) + Ink(t)
  {
  }

  lemma NoReturnsFront(c: char, t: string)
    ensures NoReturns([c] + t) <==> c != '\r' && NoReturns(t)
  {
  }

  lemma LinesTrimmedFront(c: char, t: string)
    ensures LinesTrimmed([c] + t) <==>
              LinesTrimmed(t) && !(c != '\n' && Space(c) && (t == "" || t[0] == '\n'))
  {
    hide Space;
    var s := [c] + t;
    forall i: nat | i < |t| ensures TrailingAt(s, i + 1) == TrailingAt(t, i) {
    }
    assert TrailingAt(s, 0) == (c != '\n' && Space(c) && (t == "" || t[0] == '\n'));
    if LinesTrimmed(t) && !TrailingAt(s, 0) {
      forall i: nat | i < |s| ensures !TrailingAt(s, i) {
        if i > 0 { assert TrailingAt(s, i - 1 + 1) == TrailingAt(t, i - 1); }
      }
    }
  }

  lemma NoTripleFront(c: char, t: string)
    ensures NoTripleNewline([c] + t) <==> NoTripleNewline(t) && !(c == '\n' && StartsWithTwo(t))
  {
    var s := [c] + t;
    forall i: nat ensures TripleAt(s, i + 1) == TripleAt(t, i) {
    }
    assert TripleAt(s, 0) == (c == '\n' && StartsWithTwo(t));
    if NoTripleNewline(t) && !TripleAt(s, 0) {
      forall i: nat ensures !TripleAt(s, i) {
        if i > 0 { assert TripleAt(s, i - 1 + 1) == TripleAt(t, i - 1); }
      }
    }
  }

  lemma FrontAndRest(s: string)
    requires s != ""
    ensures [s[0]] + s[1..] == s
  {
  }

  // ---------- ink ----------

  lemma NoInk()
    ensures Ink("") == ""
  {
  }

  lemma {:induction false} InkConcat(a: string, b: string)
    ensures Ink(a + b) == Ink(a) + Ink(b)
  {
    hide Space, Ink;
    if a == "" {
      NoInk();
      assert a + b == b;
    } else {
      InkConcat(a[1..], b);
      InkFront(a[0], a[1..]);
      InkFront(a[0], a[1..] + b);
      FrontAndRest(a);
      assert [a[0]] + (a[1..] + b) == a + b;
    }
  }

  lemma {:induction false} ReturnsReplaced(s: string)
    ensures NoReturns(ReplaceCr(s)) && Ink(ReplaceCr(s)) == Ink(s)
    ensures NoReturns(s) ==> ReplaceCr(s) == s
  {
    hide Space;
    LineEndsAreSpace();
    if s != "" {
      ReturnsReplaced(s[1..]);
      InkFront(if s[0] == '\r' then '\n' else s[0], ReplaceCr(s[1..]));
    }
  }

  lemma {:induction false} CrLfReplaced(s: string)
    ensures Ink(ReplaceCrLf(s)) == Ink(s)
    ensures NoReturns(s) ==> ReplaceCrLf(s) == s
  {
    hide Space;
    LineEndsAreSpace();
    if s == "" {
    } else if |s| >= 2 && s[0] == '\r' && s[1] == '\n' {
      CrLfReplaced(s[2..]);
      assert s[1..][1..] == s[2..];
      InkFront('\n', ReplaceCrLf(s[2..]));
    } else {
      CrLfReplaced(s[1..]);
      InkFront(s[0], ReplaceCrLf(s[1..]));
    }
  }

  // ---------- stripping lines ----------

  lemma RStripFront(c: char, s: string)
    ensures RStrip([c] + s) == if Space(c) && RStrip(s) == "" then "" else [c] + RStrip(s)
  {
    hide Space;
    if s != "" {
      var t := [c] + s;
      assert t[|t| - 1] == s[|s| - 1];
      if Space(s[|s| - 1]) {
        RStripFront(c, s[..|s| - 1]);
        assert t[..|t| - 1] == [c] + s[..|s| - 1];
      }
    }
  }

  /** Stripping lines, one character at a time from the front. */
  lemma StripLinesFront(s: string)
    requires s != ""
    ensures var rest := StripLines(s[1..]);
            StripLines(s) == if s[0] != '\n' && Space(s[0]) && (rest == "" || rest[0] == '\n') then rest else [s[0]] + rest
  {
    hide Space;
    var lines, rest := Split(s), Split(s[1..]);
    if s[0] == '\n' {
      assert lines[1..] == rest;
    } else {
      RStripFront(s[0], rest[0]);
      FirstLine(rest[0]);
      FirstLineHasNoNewline(s[1..]);
      assert lines[1..] == rest[1..];
    }
  }

  lemma FirstLine(line: string)
    ensures RStrip(line) <= line
  {
  }

  lemma {:induction false} FirstLineHasNoNewline(s: string)
    ensures '\n' !in Split(s)[0]
  {
    if s != "" { FirstLineHasNoNewline(s[1..]); }
  }

  lemma {:induction false} LinesStripped(s: string)
    ensures LinesTrimmed(StripLines(s)) && Ink(StripLines(s)) == Ink(s)
    ensures NoReturns(s) ==> NoReturns(StripLines(s))
    ensures LinesTrimmed(s) ==> StripLines(s) == s
  {
    hide Space, StripLines;
    if s == "" {
      assert StripLines("") == "" by { EmptyLine(); }
    } else {
      var rest := StripLines(s[1..]);
      LinesStripped(s[1..]);
      StripLinesFront(s);
      LinesTrimmedFront(s[0], rest);
      LinesTrimmedFront(s[0], s[1..]);
      InkFront(s[0], rest);
      FrontAndRest(s);
    }
  }

  lemma EmptyLine()
    ensures StripLines("") == ""
  {
  }

  // ---------- collapsing ----------

  predicate StartsWithTwo(s: string) { |s| >= 2 && s[0] == '\n' && s[1] == '\n' }

  lemma CollapseAfterNewlines(s: string)
    ensures Collapse(s) != "" && Collapse(s)[0] == '\n' ==> s != "" && s[0] == '\n'
  {
  }

  lemma CollapseRun(s: string)
    requires LeadingNewlines(s) > 0
    ensures Collapse(s) == (if LeadingNewlines(s) == 1 then "\n" else "\n\n") + Collapse(s[LeadingNewlines(s)..])
  {
  }

  lemma CollapseOther(s: string)
    requires s != "" && s[0] != '\n'
    ensures Collapse(s) == [s[0]] + Collapse(s[1..])
  {
  }

  lemma CollapseFront(s: string)
    requires s != ""
    ensures var rest := Collapse(s[1..]);
            Collapse(s) == if s[0] == '\n' && StartsWithTwo(rest) then rest else [s[0]] + rest
  {
    hide Collapse, Space;
    if s[0] != '\n' {
      CollapseOther(s);
    } else {
      var t := s[1..];
      var m := LeadingNewlines(t);
      CollapseRun(s);
      assert s[m + 1..] == t[m..];
      CollapseAfterNewlines(t[m..]);
      if m == 0 {
        assert t[m..] == t;
      } else {
        CollapseRun(t);
      }
    }
  }

  lemma {:induction false} Collapsed(s: string)
    ensures NoTripleNewline(Collapse(s)) && Ink(Collapse(s)) == Ink(s)
    ensures NoReturns(s) ==> NoReturns(Collapse(s))
    ensures LinesTrimmed(s) ==> LinesTrimmed(Collapse(s))
    ensures NoTripleNewline(s) ==> Collapse(s) == s
    ensures s != "" ==> Collapse(s) != "" && Collapse(s)[0] == s[0]
  {
    if s != "" {
      hide Space, Collapse, LinesTrimmed, NoTripleNewline, NoReturns, Ink;
      var rest := Collapse(s[1..]);
      Collapsed(s[1..]);
      CollapseFront(s);
      LineEndsAreSpace();
      FrontAndRest(s);
      InkFront(s[0], rest);
      InkFront(s[0], s[1..]);
      NoReturnsFront(s[0], rest);
      NoReturnsFront(s[0], s[1..]);
      LinesTrimmedFront(s[0], rest);
      LinesTrimmedFront(s[0], s[1..]);
      NoTripleFront(s[0], rest);
      NoTripleFront(s[0], s[1..]);
      CollapseEmpty();
    }
  }

  lemma CollapseEmpty()
    ensures Collapse("") == ""
  {
  }

  // ---------- stripping the ends ----------

  lemma {:induction false} RightStripped(s: string)
    ensures Ink(RStrip(s)) == Ink(s) && RStrip(s) <= s
    ensures RStrip(s) != "" ==> !Space(RStrip(s)[|RStrip(s)| - 1])
  {
    hide Space, Ink;
    NoInk();
    if s != "" && Space(s[|s| - 1]) {
      var last := |s| - 1;
      RightStripped(s[..last]);
      InkConcat(s[..last], [s[last]]);
      InkFront(s[last], "");
      assert [s[last]] + "" == [s[last]];
      assert s == s[..last] + [s[last]];
    }
  }

  lemma {:induction false} LeftStripped(s: string) returns (i: nat)
    ensures i <= |s| && LStrip(s) == s[i..]
    ensures Ink(LStrip(s)) == Ink(s)
    ensures LStrip(s) != "" ==> !Space(LStrip(s)[0])
  {
    hide Space;
    if s != "" && Space(s[0]) {
      var k := LeftStripped(s[1..]);
      i := k + 1;
    } else {
      i := 0;
    }
  }

  lemma SliceStaysNormal(s: string, i: nat, j: nat)
    requires i <= j <= |s| && NoReturns(s) && LinesTrimmed(s) && NoTripleNewline(s) && Trimmed(s[i..j])
    ensures Normal(s[i..j])
  {
    hide Space;
    var t := s[i..j];
    forall k: nat | k < |t| ensures !TrailingAt(t, k) {
      assert t[k] == s[i + k] && !TrailingAt(s, i + k);
    }
    forall k: nat ensures !TripleAt(t, k) {
      assert !TripleAt(s, i + k);
    }
  }

  // ---------- results ----------

  lemma StrippedEnds(s: string)
    requires NoReturns(s) && LinesTrimmed(s) && NoTripleNewline(s)
    ensures Normal(RStrip(LStrip(s))) && Ink(RStrip(LStrip(s))) == Ink(s)
  {
    hide Space, NoReturns, LinesTrimmed, NoTripleNewline, Normal, Ink, RStrip, LStrip;
    var i := LeftStripped(s);
    var left := LStrip(s);
    RightStripped(left);
    var right := RStrip(left);
    assert right == s[i..i + |right|];
    assert right != "" ==> right[0] == left[0];
    SliceStaysNormal(s, i, i + |right|);
  }

  lemma NormalizeIsNormal(s: string)
    ensures Normal(NormalizeText(s)) && Ink(NormalizeText(s)) == Ink(s)
  {
    hide Space, NoReturns, LinesTrimmed, NoTripleNewline, Normal, Ink, RStrip, LStrip, Collapse, StripLines;
    CrLfReplaced(s);
    ReturnsReplaced(ReplaceCrLf(s));
    LinesStripped(ReplaceCr(ReplaceCrLf(s)));
    Collapsed(StripLines(ReplaceCr(ReplaceCrLf(s))));
    StrippedEnds(Collapse(StripLines(ReplaceCr(ReplaceCrLf(s)))));
  }

  /** Main result: exactly the normal texts are left alone. */
  lemma FixedIffNormal(s: string)
    ensures NormalizeText(s) == s <==> Normal(s)
  {
    hide Space, LinesTrimmed, NoTripleNewline, NoReturns, Collapse, StripLines, Ink, ReplaceCr, ReplaceCrLf;
    NormalizeIsNormal(s);
    if Normal(s) {
      CrLfReplaced(s);
      ReturnsReplaced(s);
      LinesStripped(s);
      Collapsed(s);
    }
  }

  /** Main result: normalizing again changes nothing. */
  lemma NormalizeIsIdempotent(s: string)
    ensures NormalizeText(NormalizeText(s)) == NormalizeText(s)
  {
    NormalizeIsNormal(s);
    FixedIffNormal(NormalizeText(s));
  }

  // ---------- pages ----------

  /** Pages joined by a blank line. */
  function Joined(pages: seq<string>): string {
    if pages == [] then "" else if |pages| == 1 then pages[0] else pages[0] + "\n\n" + Joined(pages[1..])
  }

  predicate NormalPages(pages: seq<string>) {
    forall p :: p in pages ==> p != "" && Normal(p)
  }

  lemma ConcatIsNormal(a: string, b: string)
    requires a != "" && b != "" && Normal(a) && Normal(b)
    ensures Normal(a + "\n\n" + b)
  {
    hide Space;
    var t := a + "\n\n" + b;
    LineEndsAreSpace();
    var n := |a| + 2;
    forall i: nat | i < |t| ensures !TrailingAt(t, i) {
      if i < |a| {
        assert !TrailingAt(a, i);
      } else if i >= n {
        assert !TrailingAt(b, i - n);
      }
    }
    forall i: nat ensures !TripleAt(t, i) {
      if i + 2 < |a| {
        assert !TripleAt(a, i);
      } else if i < |a| {
        assert t[|a| - 1] == a[|a| - 1] != '\n';
      } else if i < n {
        assert t[n] == b[0] != '\n';
      } else {
        assert !TripleAt(b, i - n);
      }
    }
  }

  lemma EmptyIsNormal()
    ensures Normal("")
  {
  }

  /** Main result: joining non-empty normalized pages gives a normalized text. */
  lemma {:induction false} JoinedPagesStay(pages: seq<string>)
    requires NormalPages(pages)
    ensures NormalizeText(Joined(pages)) == Joined(pages) && Normal(Joined(pages))
    ensures pages != [] ==> Joined(pages) != ""
  {
    hide Space, Normal, NormalizeText;
    EmptyIsNormal();
    if |pages| > 1 {
      assert pages[0] in pages && forall p :: p in pages[1..] ==> p in pages;
      JoinedPagesStay(pages[1..]);
      ConcatIsNormal(pages[0], Joined(pages[1..]));
    }
    FixedIffNormal(Joined(pages));
  }
}
