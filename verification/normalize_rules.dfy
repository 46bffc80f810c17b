/** What normalization may not tell apart, and that this decides it: single replacements, in any order and
    anywhere in a text, that every text reaches its normal form by. */
module NormalizationRules {
  import opened Normalization

  // ---------- the replacements ----------

  predicate EndsInReturn(x: string) { x != "" && x[|x| - 1] == '\r' }

  /** A return and newline is one line end, and so is a return alone. */
  predicate LineEndReplaced(s: string, t: string, x: string, y: string) {
    && t == x + "\n" + y && !EndsInReturn(x)
    && (s == x + "\r\n" + y || (s == x + "\r" + y && (y == "" || y[0] != '\n')))
  }

  /** White space before a line end, and a newline after two, does not count. */
  predicate LineReplaced(s: string, t: string, x: string, y: string) {
    || (t == x + "\n" + y && exists c :: c in s && Space(c) && c != '\n' && s == x + [c] + "\n" + y)
    || (t == x + "\n\n" + y && s == x + "\n\n\n" + y)
  }

  /** White space at either end does not count. */
  predicate EndDropped(s: string, t: string) {
    s != "" && ((Space(s[0]) && t == s[1..]) || (Space(s[|s| - 1]) && t == s[..|s| - 1]))
  }

  ghost predicate Replaces(s: string, t: string) {
    || (exists x, y :: LineEndReplaced(s, t, x, y))
    || (NoReturns(s) && EndDropped(s, t))
    || (NoReturns(s) && exists x, y :: LineReplaced(s, t, x, y))
  }

  // ---------- each replacement is immaterial ----------

  lemma {:induction false} ReturnsConcat(a: string, b: string)
    ensures ReplaceCr(a + b) == ReplaceCr(a) + ReplaceCr(b)
  {
    if a == "" {
      assert a + b == b;
    } else {
      ReturnsConcat(a[1..], b);
      assert (a + b)[1..] == a[1..] + b;
    }
  }

  lemma {:induction false} CrLfConcat(a: string, b: string)
    requires !EndsInReturn(a)
    ensures ReplaceCrLf(a + b) == ReplaceCrLf(a) + ReplaceCrLf(b)
    decreases |a|
  {
    hide ReplaceCrLf;
    NoCrLf();
    if a == "" {
      assert a + b == b;
    } else if |a| >= 2 && a[0] == '\r' && a[1] == '\n' {
      CrLfConcat(a[2..], b);
      assert (a + b)[2..] == a[2..] + b;
      CrLfFirst(a);
      CrLfFirst(a + b);
      assert "\n" + (ReplaceCrLf(a[2..]) + ReplaceCrLf(b)) == "\n" + ReplaceCrLf(a[2..]) + ReplaceCrLf(b);
    } else {
      CrLfConcat(a[1..], b);
      assert (a + b)[1..] == a[1..] + b;
      assert |a| == 1 ==> a[0] != '\r';
      CrLfLater(a);
      CrLfLater(a + b);
      assert [a[0]] + (ReplaceCrLf(a[1..]) + ReplaceCrLf(b)) == [a[0]] + ReplaceCrLf(a[1..]) + ReplaceCrLf(b);
    }
  }

  lemma NoCrLf()
    ensures ReplaceCrLf("") == ""
  {
  }

  lemma CrLfFirst(s: string)
    requires |s| >= 2 && s[0] == '\r' && s[1] == '\n'
    ensures ReplaceCrLf(s) == "\n" + ReplaceCrLf(s[2..])
  {
  }

  lemma CrLfLater(s: string)
    requires s != "" && !(|s| >= 2 && s[0] == '\r' && s[1] == '\n')
    ensures ReplaceCrLf(s) == [s[0]] + ReplaceCrLf(s[1..])
  {
  }

  lemma LineEndIsImmaterial(s: string, t: string, x: string, y: string)
    requires LineEndReplaced(s, t, x, y)
    ensures NormalizeText(s) == NormalizeText(t)
  {
    hide ReplaceCrLf, ReplaceCr, StripLines, Collapse, LStrip, RStrip;
    assert t == x + ("\n" + y);
    CrLfConcat(x, "\n" + y);
    OneLineEnd(y);
    if s == x + "\r\n" + y {
      assert s == x + ("\r\n" + y);
      CrLfConcat(x, "\r\n" + y);
    } else {
      assert s == x + ("\r" + y);
      CrLfConcat(x, "\r" + y);
      ReturnsConcat(ReplaceCrLf(x), "\r" + ReplaceCrLf(y));
      ReturnsConcat(ReplaceCrLf(x), "\n" + ReplaceCrLf(y));
    }
  }

  lemma OneLineEnd(y: string)
    ensures ReplaceCrLf("\n" + y) == ReplaceCrLf("\r\n" + y) == "\n" + ReplaceCrLf(y)
    ensures y == "" || y[0] != '\n' ==> ReplaceCrLf("\r" + y) == "\r" + ReplaceCrLf(y)
    ensures ReplaceCr("\r" + ReplaceCrLf(y)) == ReplaceCr("\n" + ReplaceCrLf(y))
  {
    assert ("\n" + y)[1..] == y && ("\r\n" + y)[2..] == y && ("\r" + y)[1..] == y;
    assert ("\r" + ReplaceCrLf(y))[1..] == ReplaceCrLf(y) == ("\n" + ReplaceCrLf(y))[1..];
  }

  lemma {:induction false} SameStripped(x: string, u: string, v: string)
    requires StripLines(u) == StripLines(v)
    ensures StripLines(x + u) == StripLines(x + v)
  {
    hide StripLines, Space;
    if x == "" {
      assert x + u == u && x + v == v;
    } else {
      SameStripped(x[1..], u, v);
      StripLinesFront(x + u);
      StripLinesFront(x + v);
      assert (x + u)[1..] == x[1..] + u && (x + v)[1..] == x[1..] + v;
    }
  }

  lemma {:induction false} StrippedAtNewline(x: string, y: string)
    ensures StripLines(x + "\n" + y) == StripLines(x) + "\n" + StripLines(y)
  {
    hide StripLines, Space;
    StripLinesFront(x + "\n" + y);
    if x == "" {
      EmptyLine();
      assert x + "\n" + y == "\n" + y && ("\n" + y)[1..] == y;
    } else {
      StrippedAtNewline(x[1..], y);
      StripLinesFront(x);
      assert (x + "\n" + y)[1..] == x[1..] + "\n" + y;
    }
  }

  lemma {:induction false} SameCollapsed(x: string, u: string, v: string)
    requires Collapse(u) == Collapse(v)
    ensures Collapse(x + u) == Collapse(x + v)
  {
    hide Collapse;
    if x == "" {
      assert x + u == u && x + v == v;
    } else {
      SameCollapsed(x[1..], u, v);
      CollapseFront(x + u);
      CollapseFront(x + v);
      assert (x + u)[1..] == x[1..] + u && (x + v)[1..] == x[1..] + v;
    }
  }

  lemma ThreeAreTwo(y: string)
    ensures Collapse("\n\n\n" + y) == Collapse("\n\n" + y)
  {
    hide Collapse;
    CollapseFront("\n\n\n" + y);
    CollapseFront("\n\n" + y);
    CollapseFront("\n" + y);
    assert ("\n\n\n" + y)[1..] == "\n\n" + y && ("\n\n" + y)[1..] == "\n" + y;
  }

  lemma BlankIsImmaterial(x: string, y: string)
    ensures Collapse(StripLines(x + "\n\n\n" + y)) == Collapse(StripLines(x + "\n\n" + y))
  {
    hide StripLines, Collapse;
    var p, q := StripLines(x), StripLines(y);
    Blank(x, y);
    ThreeAreTwo(q);
    SameCollapsed(p, "\n\n\n" + q, "\n\n" + q);
    assert p + ("\n\n\n" + q) == p + "\n\n\n" + q && p + ("\n\n" + q) == p + "\n\n" + q;
  }

  lemma TrailingIsImmaterial(x: string, c: char, y: string)
    requires Space(c) && c != '\n'
    ensures StripLines(x + [c] + "\n" + y) == StripLines(x + "\n" + y)
  {
    hide Space, StripLines;
    var u, v := [c] + "\n" + y, "\n" + y;
    StripLinesFront(u);
    StripLinesFront(v);
    assert u[1..] == v && u[0] == c;
    SameStripped(x, u, v);
    assert x + u == x + [c] + "\n" + y && x + v == x + "\n" + y;
  }

  lemma LineIsImmaterial(s: string, t: string, x: string, y: string)
    requires NoReturns(s) && LineReplaced(s, t, x, y)
    ensures NormalizeText(s) == NormalizeText(t)
  {
    LinesHaveNoReturns(s, t, x, y);
    hide Space, StripLines, Collapse, NormalizeText, LStrip, RStrip, NoReturns;
    WithoutReturns(s);
    WithoutReturns(t);
    if t == x + "\n\n" + y && s == x + "\n\n\n" + y {
      BlankIsImmaterial(x, y);
    } else {
      var c :| c in s && Space(c) && c != '\n' && s == x + [c] + "\n" + y;
      TrailingIsImmaterial(x, c, y);
    }
  }

  lemma LinesHaveNoReturns(s: string, t: string, x: string, y: string)
    requires NoReturns(s) && LineReplaced(s, t, x, y)
    ensures NoReturns(t)
  {
    hide Space;
    assert forall c :: c in x || c in y ==> c in s;
  }

  /** Without returns, normalizing starts with the lines. */
  lemma WithoutReturns(s: string)
    ensures NoReturns(s) ==> NormalizeText(s) == RStrip(LStrip(Collapse(StripLines(s))))
  {
    hide Space, ReplaceCrLf, ReplaceCr, StripLines, Collapse, LStrip, RStrip;
    if NoReturns(s) {
      CrLfReplaced(s);
      ReturnsReplaced(s);
    }
  }

  lemma Blank(x: string, y: string)
    ensures StripLines(x + "\n\n" + y) == StripLines(x) + "\n\n" + StripLines(y)
    ensures StripLines(x + "\n\n\n" + y) == StripLines(x) + "\n\n\n" + StripLines(y)
  {
    hide StripLines;
    EmptyLine();
    StrippedAtNewline(x, "\n" + y);
    StrippedAtNewline("", y);
    StrippedAtNewline(x, "\n\n" + y);
    StrippedAtNewline("", "\n" + y);
    assert x + "\n" + ("\n" + y) == x + "\n\n" + y && x + "\n" + ("\n\n" + y) == x + "\n\n\n" + y;
    assert "" + "\n" + y == "\n" + y && "" + "\n" + ("\n" + y) == "\n\n" + y;
  }

  lemma {:induction false} NewlineCollapsed(z: string)
    ensures Collapse(z + "\n") == Collapse(z) || Collapse(z + "\n") == Collapse(z) + "\n"
  {
    hide Collapse;
    CollapseEmpty();
    CollapseFront(z + "\n");
    if z == "" {
      assert z + "\n" == "\n" && "\n"[1..] == "";
    } else {
      NewlineCollapsed(z[1..]);
      CollapseFront(z);
      assert (z + "\n")[1..] == z[1..] + "\n";
    }
  }

  lemma {:induction false} NewlineStripped(w: string)
    ensures RStrip(LStrip(w + "\n")) == RStrip(LStrip(w))
  {
    hide Space;
    LineEndsAreSpace();
    if w == "" {
      assert w + "\n" == "\n" && LStrip("\n") == LStrip("\n"[1..]) == "";
    } else if Space(w[0]) {
      NewlineStripped(w[1..]);
      assert (w + "\n")[1..] == w[1..] + "\n";
    } else {
      assert LStrip(w + "\n") == w + "\n" && (w + "\n")[..|w|] == w;
    }
  }

  lemma EndIsImmaterial(s: string, t: string)
    requires NoReturns(s) && EndDropped(s, t)
    ensures NormalizeText(s) == NormalizeText(t)
  {
    hide Space, ReplaceCrLf, ReplaceCr, StripLines, Collapse, LStrip, RStrip;
    WithoutReturns(s);
    WithoutReturns(t);
    if Space(s[0]) && t == s[1..] {
      FrontIsImmaterial(s);
    } else {
      var c := s[|s| - 1];
      assert s == t + [c];
      EmptyLine();
      if c == '\n' {
        StrippedAtNewline(t, "");
        assert t + "\n" + "" == s && StripLines(t) + "\n" + "" == StripLines(t) + "\n";
        NewlineCollapsed(StripLines(t));
        NewlineStripped(Collapse(StripLines(t)));
      } else {
        StripLinesFront([c]);
        assert [c][1..] == "";
        SameStripped(t, [c], "");
        assert t + "" == t;
      }
    }
  }

  lemma FrontIsImmaterial(s: string)
    requires s != "" && Space(s[0])
    ensures LStrip(Collapse(StripLines(s))) == LStrip(Collapse(StripLines(s[1..])))
  {
    hide Space, StripLines, Collapse;
    StripLinesFront(s);
    if StripLines(s) != StripLines(s[1..]) {
      CollapseFront(StripLines(s));
      assert StripLines(s)[1..] == StripLines(s[1..]);
      var rest := Collapse(StripLines(s[1..]));
      assert ([s[0]] + rest)[1..] == rest;
    }
  }

  /** Main result: no replacement changes what a text is normalized to. */
  lemma ReplacementsAreImmaterial(s: string, t: string)
    requires Replaces(s, t)
    ensures NormalizeText(s) == NormalizeText(t)
  {
    hide NormalizeText, LineEndReplaced, LineReplaced, EndDropped, NoReturns;
    if x, y :| LineEndReplaced(s, t, x, y) {
      LineEndIsImmaterial(s, t, x, y);
    } else if NoReturns(s) && EndDropped(s, t) {
      EndIsImmaterial(s, t);
    } else {
      var x, y :| LineReplaced(s, t, x, y);
      LineIsImmaterial(s, t, x, y);
    }
  }

  // ---------- every text reaches its normal form ----------

  /** A text that is not normal has a replacement, which leaves fewer returns or as many and a shorter text. */
  lemma NextReplacement(s: string) returns (t: string)
    requires !Normal(s)
    ensures Replaces(s, t)
    ensures multiset(t)['\r'] < multiset(s)['\r'] || (multiset(t)['\r'] == multiset(s)['\r'] && |t| < |s|)
  {
    if !NoReturns(s) {
      t := FirstReturn(s);
    } else {
      t := LaterReplacement(s);
      NoneCounted(s);
      NoneCounted(t);
    }
  }

  lemma NoneCounted(s: string)
    requires NoReturns(s)
    ensures multiset(s)['\r'] == 0
  {
    assert '\r' !in multiset(s);
  }

  lemma FirstReturn(s: string) returns (t: string)
    requires !NoReturns(s)
    ensures Replaces(s, t) && multiset(t)['\r'] < multiset(s)['\r']
  {
    hide Replaces;
    var i :| 0 <= i < |s| && s[i] == '\r' && forall k :: 0 <= k < i ==> s[k] != '\r' by { LeastReturn(s); }
    var x := s[..i];
    if i + 1 < |s| && s[i + 1] == '\n' {
      var y := s[i + 2..];
      assert s == x + "\r\n" + y;
      t := LineEndReplacement(s, x, "\r\n", y);
    } else {
      var y := s[i + 1..];
      assert s == x + "\r" + y;
      t := LineEndReplacement(s, x, "\r", y);
    }
  }

  lemma LineEndReplacement(s: string, x: string, end: string, y: string) returns (t: string)
    requires s == x + end + y && !EndsInReturn(x)
    requires end == "\r\n" || (end == "\r" && (y == "" || y[0] != '\n'))
    ensures Replaces(s, t) && multiset(t)['\r'] < multiset(s)['\r']
  {
    t := x + "\n" + y;
    assert LineEndReplaced(s, t, x, y);
    assert multiset(s) == multiset(x) + multiset(end) + multiset(y);
    assert multiset(t) == multiset(x) + multiset("\n") + multiset(y);
    assert multiset("\n") == multiset{'\n'};
    assert end == ['\r', '\n'] || end == ['\r'];
    assert multiset(end)['\r'] == 1;
  }

  lemma {:induction false} LeastReturn(s: string)
    requires !NoReturns(s)
    ensures exists i :: 0 <= i < |s| && s[i] == '\r' && forall k :: 0 <= k < i ==> s[k] != '\r'
  {
    if s[0] == '\r' {
    } else {
      LeastReturn(s[1..]);
      var i :| 0 <= i < |s[1..]| && s[1..][i] == '\r' && forall k :: 0 <= k < i ==> s[1..][k] != '\r';
      forall k | 0 <= k < i + 1 ensures s[k] != '\r' {
        if k > 0 { assert s[1..][k - 1] != '\r'; }
      }
      assert s[i + 1] == '\r';
    }
  }

  lemma LaterReplacement(s: string) returns (t: string)
    requires NoReturns(s) && !Normal(s)
    ensures Replaces(s, t) && |t| < |s| && NoReturns(t)
  {
    hide Space, Replaces;
    if i: nat :| i < |s| && TrailingAt(s, i) {
      t := TrailingReplacement(s, i);
    } else if i: nat :| TripleAt(s, i) {
      t := TripleReplacement(s, i);
    } else {
      t := if Space(s[0]) then s[1..] else s[..|s| - 1];
      EndReplacement(s, t);
    }
  }

  lemma EndReplacement(s: string, t: string)
    requires NoReturns(s) && EndDropped(s, t)
    ensures Replaces(s, t) && NoReturns(t)
  {
    hide Space, LineReplaced, LineEndReplaced;
    assert forall c :: c in t ==> c in s;
  }

  lemma TrailingReplacement(s: string, i: nat) returns (t: string)
    requires NoReturns(s) && i < |s| && TrailingAt(s, i)
    ensures Replaces(s, t) && |t| < |s| && NoReturns(t)
  {
    hide Space;
    if i + 1 == |s| {
      t := s[..i];
      EndReplacement(s, t);
    } else {
      var x, y := s[..i], s[i + 2..];
      t := x + "\n" + y;
      assert s == x + [s[i]] + "\n" + y && s[i] in s;
      LineReplacement(s, t, x, y);
    }
  }

  lemma TripleReplacement(s: string, i: nat) returns (t: string)
    requires NoReturns(s) && TripleAt(s, i)
    ensures Replaces(s, t) && |t| < |s| && NoReturns(t)
  {
    var x, y := s[..i], s[i + 3..];
    t := x + "\n\n" + y;
    assert s == x + "\n\n\n" + y;
    LineReplacement(s, t, x, y);
  }

  lemma LineReplacement(s: string, t: string, x: string, y: string)
    requires NoReturns(s) && LineReplaced(s, t, x, y)
    ensures Replaces(s, t) && NoReturns(t)
  {
    hide Space, LineEndReplaced, EndDropped;
    assert forall c :: c in x || c in y ==> c in s;
  }

  /** Main result: normalizing is the only function that leaves normal texts alone and takes no notice of
      the replacements. */
  lemma {:induction false} NormalizeIsUnique(f: string -> string, s: string)
    requires forall t :: Normal(t) ==> f(t) == t
    requires forall t, u :: Replaces(t, u) ==> f(t) == f(u)
    ensures f(s) == NormalizeText(s)
    decreases multiset(s)['\r'], |s|
  {
    hide Normal, Replaces, NormalizeText;
    if Normal(s) {
      FixedIffNormal(s);
    } else {
      var t := NextReplacement(s);
      NormalizeIsUnique(f, t);
      ReplacementsAreImmaterial(s, t);
    }
  }
}
