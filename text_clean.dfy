/** The display-text normaliser `clean_display_text`: collapse runs of spaces,
    shorten blank-line runs, then trim both ends.

    Whitespace is the ASCII set space, tab, line feed, carriage return,
    vertical tab and form feed; it stands for both the regular-expression
    class `\s` and the set trimmed by `str.strip()`. */
module TextClean {

  predicate IsWs(c: char) {
    c == ' ' || c == '\t' || c == '\n' || c == '\r' || c == '\U{B}' || c == '\U{C}'
  }

  predicate AllWs(s: string) {
    forall i | 0 <= i < |s| :: IsWs(s[i])
  }

  /** No two adjacent spaces. */
  predicate NoDoubleSpace(s: string) {
    forall i | 0 <= i < |s| - 1 :: !(s[i] == ' ' && s[i + 1] == ' ')
  }

  function NewlineCount(s: string): nat {
    if s == [] then 0 else (if s[0] == '\n' then 1 else 0) + NewlineCount(s[1..])
  }

  /** No stretch of whitespace holds three line feeds; equivalently, every
      maximal whitespace run has at most two. */
  predicate NoBlankTriple(s: string) {
    forall i, j | 0 <= i <= j <= |s| :: BlankWindowShort(s, i, j)
  }

  /** The window `s[i..j]`, if it is all whitespace, holds fewer than three line feeds. */
  predicate BlankWindowShort(s: string, i: nat, j: nat)
    requires i <= j <= |s|
  {
    AllWs(s[i..j]) ==> NewlineCount(s[i..j]) < 3
  }

  /** The non-whitespace characters of `s`, in order. */
  function NonWs(s: string): string {
    if s == [] then [] else (if IsWs(s[0]) then [] else [s[0]]) + NonWs(s[1..])
  }

  /** The characters of `s` other than the space, in order. */
  function Unspaced(s: string): string {
    if s == [] then [] else (if s[0] == ' ' then [] else [s[0]]) + Unspaced(s[1..])
  }

  // ---------------------------------------------------------------------------
  // Facts about the counting and filtering functions

  lemma {:induction false} NewlineCountConcat(a: string, b: string)
    ensures NewlineCount(a + b) == NewlineCount(a) + NewlineCount(b)
  {
    if a == [] {
      assert a + b == b;
    } else {
      assert (a + b)[1..] == a[1..] + b;
      NewlineCountConcat(a[1..], b);
    }
  }

  lemma NewlineCountSplit(s: string, k: nat)
    requires k <= |s|
    ensures NewlineCount(s) == NewlineCount(s[..k]) + NewlineCount(s[k..])
  {
    assert s == s[..k] + s[k..];
    NewlineCountConcat(s[..k], s[k..]);
  }

  /** A window inside another window holds no more line feeds. */
  lemma NewlineCountWindow(s: string, i: nat, j: nat, k: nat, l: nat)
    requires k <= i <= j <= l <= |s|
    ensures NewlineCount(s[i..j]) <= NewlineCount(s[k..l])
  {
    assert s[k..l] == s[k..i] + s[i..j] + s[j..l];
    NewlineCountConcat(s[k..i] + s[i..j], s[j..l]);
    NewlineCountConcat(s[k..i], s[i..j]);
  }

  lemma {:induction false} NewlineAt(s: string, i: nat)
    requires i < |s| && s[i] == '\n'
    ensures NewlineCount(s) > 0
  {
    if i > 0 {
      NewlineAt(s[1..], i - 1);
    }
  }

  lemma {:induction false} NonWsConcat(a: string, b: string)
    ensures NonWs(a + b) == NonWs(a) + NonWs(b)
  {
    if a == [] {
      assert a + b == b;
    } else {
      assert (a + b)[1..] == a[1..] + b;
      NonWsConcat(a[1..], b);
    }
  }

  lemma {:induction false} NonWsOfWs(s: string)
    requires AllWs(s)
    ensures NonWs(s) == []
  {
    if s != [] {
      NonWsOfWs(s[1..]);
    }
  }

  lemma {:induction false} UnspacedConcat(a: string, b: string)
    ensures Unspaced(a + b) == Unspaced(a) + Unspaced(b)
  {
    if a == [] {
      assert a + b == b;
    } else {
      assert (a + b)[1..] == a[1..] + b;
      UnspacedConcat(a[1..], b);
    }
  }

  /** Dropping spaces first does not change the non-whitespace characters. */
  lemma {:induction false} NonWsOfUnspaced(s: string)
    ensures NonWs(Unspaced(s)) == NonWs(s)
  {
    if s != [] {
      NonWsOfUnspaced(s[1..]);
      NonWsConcat(if s[0] == ' ' then [] else [s[0]], Unspaced(s[1..]));
    }
  }

  lemma NoDoubleSpaceSlice(s: string, a: nat, b: nat)
    requires NoDoubleSpace(s) && a <= b <= |s|
    ensures NoDoubleSpace(s[a..b])
  {
    forall i | 0 <= i < b - a - 1
      ensures !(s[a..b][i] == ' ' && s[a..b][i + 1] == ' ')
    {
      assert s[a..b][i] == s[a + i] && s[a..b][i + 1] == s[a + i + 1];
    }
  }

  /** Two space-free-at-the-seam pieces join without a double space. */
  lemma NoDoubleSpaceConcat(a: string, b: string)
    requires NoDoubleSpace(a) && NoDoubleSpace(b)
    requires a == [] || b == [] || a[|a| - 1] != ' ' || b[0] != ' '
    ensures NoDoubleSpace(a + b)
  {
    var s := a + b;
    forall i | 0 <= i < |s| - 1
      ensures !(s[i] == ' ' && s[i + 1] == ' ')
    {
      if i + 1 < |a| {
        assert s[i] == a[i] && s[i + 1] == a[i + 1];
      } else if i >= |a| {
        assert s[i] == b[i - |a|] && s[i + 1] == b[i + 1 - |a|];
      } else {
        assert s[i] == a[|a| - 1] && s[i + 1] == b[0];
      }
    }
  }

  lemma NoBlankTripleSlice(s: string, a: nat, b: nat)
    requires NoBlankTriple(s) && a <= b <= |s|
    ensures NoBlankTriple(s[a..b])
  {
    var t := s[a..b];
    forall i, j | 0 <= i <= j <= |t|
      ensures BlankWindowShort(t, i, j)
    {
      assert forall k | 0 <= k < j - i :: t[i..j][k] == s[a + i..a + j][k];
      assert t[i..j] == s[a + i..a + j];
      assert BlankWindowShort(s, a + i, a + j);
    }
  }

  lemma WsAt(s: string, i: nat, j: nat, k: nat)
    requires i <= k < j <= |s| && AllWs(s[i..j])
    ensures IsWs(s[k])
  {
    assert s[i..j][k - i] == s[k];
  }

  /** Two pieces that meet at a non-whitespace character keep every
      whitespace stretch on one side of the seam. */
  lemma NoBlankTripleConcat(a: string, b: string)
    requires NoBlankTriple(a) && NoBlankTriple(b)
    requires a == [] || b == [] || !IsWs(a[|a| - 1]) || !IsWs(b[0])
    ensures NoBlankTriple(a + b)
  {
    var s := a + b;
    forall i, j | 0 <= i <= j <= |s|
      ensures BlankWindowShort(s, i, j)
    {
      if j <= |a| {
        assert s[i..j] == a[i..j];
        assert BlankWindowShort(a, i, j);
      } else if i >= |a| {
        assert s[i..j] == b[i - |a|..j - |a|];
        assert BlankWindowShort(b, i - |a|, j - |a|);
      } else if AllWs(s[i..j]) {
        WsAt(s, i, j, |a| - 1);
        WsAt(s, i, j, |a|);
        assert false;
      }
    }
  }

  lemma NoBlankTripleOfEmpty()
    ensures NoBlankTriple([])
  {
    forall i, j | 0 <= i <= j <= 0 ensures BlankWindowShort([], i, j) { }
  }

  /** A whitespace string with fewer than three line feeds has no window with three. */
  lemma NoBlankTripleOfShortWs(w: string)
    requires NewlineCount(w) < 3
    ensures NoBlankTriple(w)
  {
    forall i, j | 0 <= i <= j <= |w|
      ensures BlankWindowShort(w, i, j)
    {
      NewlineCountWindow(w, i, j, 0, |w|);
      assert w[0..|w|] == w;
    }
  }

  // ---------------------------------------------------------------------------
  // Runs

  /** Length of the run of spaces that starts `s`. */
  function SpaceRunLength(s: string): (n: nat)
    ensures n <= |s|
    ensures forall i | 0 <= i < n :: s[i] == ' '
    ensures n < |s| ==> s[n] != ' '
  {
    if s != [] && s[0] == ' ' then 1 + SpaceRunLength(s[1..]) else 0
  }

  /** Length of the run of whitespace that starts `s`. */
  function WsRunLength(s: string): (n: nat)
    ensures n <= |s|
    ensures AllWs(s[..n])
    ensures n < |s| ==> !IsWs(s[n])
  {
    if s != [] && IsWs(s[0]) then
      var m := WsRunLength(s[1..]);
      assert s[..1 + m] == [s[0]] + s[1..][..m];
      1 + m
    else 0
  }

  // ---------------------------------------------------------------------------
  // Step 1: re.sub(r' +', ' ', text)

  /** Every maximal run of spaces becomes a single space; nothing else changes. */
  function CollapseSpaces(s: string): (r: string)
    ensures |r| <= |s|
    ensures s != [] ==> r != [] && r[0] == s[0]
    ensures NoDoubleSpace(r)
    decreases |s|
  {
    if s == [] then []
    else if s[0] == ' ' then
      var n := SpaceRunLength(s);
      var rest := CollapseSpaces(s[n..]);
      NoDoubleSpaceConcat([' '], rest);
      [' '] + rest
    else
      var rest := CollapseSpaces(s[1..]);
      NoDoubleSpaceConcat([s[0]], rest);
      [s[0]] + rest
  }

  /** Collapsing removes spaces only: every other character survives, in order. */
  lemma {:induction false} CollapseSpacesRemovesOnlySpaces(s: string)
    ensures Unspaced(CollapseSpaces(s)) == Unspaced(s)
    decreases |s|
  {
    if s != [] {
      if s[0] == ' ' {
        var n := SpaceRunLength(s);
        CollapseSpacesRemovesOnlySpaces(s[n..]);
        UnspacedConcat([' '], CollapseSpaces(s[n..]));
        assert s == s[..n] + s[n..];
        UnspacedConcat(s[..n], s[n..]);
        UnspacedOfSpaces(s[..n]);
      } else {
        CollapseSpacesRemovesOnlySpaces(s[1..]);
        UnspacedConcat([s[0]], CollapseSpaces(s[1..]));
      }
    }
  }

  lemma {:induction false} UnspacedOfSpaces(s: string)
    requires forall i | 0 <= i < |s| :: s[i] == ' '
    ensures Unspaced(s) == []
  {
    if s != [] {
      UnspacedOfSpaces(s[1..]);
    }
  }

  /** Collapsing changes a text exactly when it has two adjacent spaces. */
  lemma {:induction false} CollapseSpacesFixpoint(s: string)
    ensures CollapseSpaces(s) == s <==> NoDoubleSpace(s)
    decreases |s|
  {
    if s != [] && NoDoubleSpace(s) {
      NoDoubleSpaceSlice(s, 1, |s|);
      if s[0] == ' ' {
        assert |s| > 1 ==> s[1] != ' ';
        assert SpaceRunLength(s) == 1;
      }
      CollapseSpacesFixpoint(s[1..]);
    }
  }


  /** No two spaces meet where `a` and `b` are joined. */
  predicate SpaceSeam(a: string, b: string) {
    a == [] || b == [] || a[|a| - 1] != ' ' || b[0] != ' '
  }

  lemma {:induction false} SpaceRunLengthConcat(a: string, b: string)
    requires a != [] && SpaceSeam(a, b)
    ensures SpaceRunLength(a + b) == SpaceRunLength(a)
    decreases |a|
  {
    assert (a + b)[1..] == a[1..] + b;
    if a[0] == ' ' && |a| > 1 {
      SpaceRunLengthConcat(a[1..], b);
    }
  }

  /** How many characters the first step of `CollapseSpaces` consumes. */
  function CollapseStep(s: string): (n: nat)
    requires s != []
    ensures 1 <= n <= |s|
  {
    if s[0] == ' ' then SpaceRunLength(s) else 1
  }

  lemma CollapseSpacesUnfold(s: string)
    requires s != []
    ensures CollapseSpaces(s) == [s[0]] + CollapseSpaces(s[CollapseStep(s)..])
  {
  }

  lemma CollapseStepConcat(a: string, b: string)
    requires a != [] && SpaceSeam(a, b)
    ensures (a + b)[0] == a[0] && CollapseStep(a + b) == CollapseStep(a)
  {
    if a[0] == ' ' {
      SpaceRunLengthConcat(a, b);
    }
  }

  /** Collapsing works piece by piece across a seam where no two spaces meet. */
  lemma {:induction false} CollapseSpacesConcat(a: string, b: string)
    requires SpaceSeam(a, b)
    ensures CollapseSpaces(a + b) == CollapseSpaces(a) + CollapseSpaces(b)
    decreases |a|
  {
    if a == [] {
      assert a + b == b;
    } else {
      var n := CollapseStep(a);
      CollapseStepConcat(a, b);
      CollapseSpacesUnfold(a + b);
      CollapseSpacesUnfold(a);
      SliceOfConcat(a, b, n);
      CollapseSpacesConcat(a[n..], b);
      JoinStep(CollapseSpaces(a + b), [a[0]], CollapseSpaces(a[n..] + b),
               CollapseSpaces(a[n..]), CollapseSpaces(b), CollapseSpaces(a));
    }
  }

  /** A run of spaces, however long, becomes one space. */
  lemma CollapseSpacesOfRun(s: string)
    requires s != [] && forall i | 0 <= i < |s| :: s[i] == ' '
    ensures CollapseSpaces(s) == " "
  {
    assert SpaceRunLength(s) == |s|;
  }

  /** A space in front of a space is dropped. */
  lemma CollapseSpacesLeadingRepeat(t: string)
    requires t != [] && t[0] == ' '
    ensures CollapseSpaces(" " + t) == CollapseSpaces(t)
  {
    var n := CollapseStep(t);
    SpaceRunOfCons(t);
    CollapseSpacesUnfold(" " + t);
    CollapseSpacesUnfold(t);
    assert (" " + t)[1 + n..] == t[n..];
  }

  lemma SpaceRunOfCons(t: string)
    requires t != [] && t[0] == ' '
    ensures (" " + t)[0] == ' ' && CollapseStep(" " + t) == 1 + CollapseStep(t)
  {
    assert (" " + t)[1..] == t;
  }

  /** Two adjacent spaces collapse exactly as one space does: a run of
      spaces leaves one space, not none. */
  lemma {:induction false} CollapseSpacesDropsRepeat(a: string, b: string)
    ensures CollapseSpaces(a + "  " + b) == CollapseSpaces(a + " " + b)
    decreases |a|
  {
    if a == [] {
      assert a + "  " + b == " " + (" " + b);
      assert a + " " + b == " " + b;
      CollapseSpacesLeadingRepeat(" " + b);
    } else {
      var a' := a[1..];
      assert a + "  " + b == [a[0]] + (a' + "  " + b);
      assert a + " " + b == [a[0]] + (a' + " " + b);
      CollapseSpacesDropsRepeat(a', b);
      if a[0] != ' ' {
        assert (a + "  " + b)[1..] == a' + "  " + b;
        assert (a + " " + b)[1..] == a' + " " + b;
      } else if a' == [] || a'[0] == ' ' {
        assert (a' + "  " + b)[0] == ' ' && (a' + " " + b)[0] == ' ';
        CollapseSpacesLeadingRepeat(a' + "  " + b);
        CollapseSpacesLeadingRepeat(a' + " " + b);
      } else {
        CollapseSpacesConcat([a[0]], a' + "  " + b);
        CollapseSpacesConcat([a[0]], a' + " " + b);
      }
    }
  }

  /** Collapsing a whitespace text leaves a whitespace text. */
  lemma {:induction false} CollapseSpacesKeepsWs(s: string)
    requires AllWs(s)
    ensures AllWs(CollapseSpaces(s))
    decreases |s|
  {
    if s != [] {
      var n := if s[0] == ' ' then SpaceRunLength(s) else 1;
      assert AllWs(s[n..]);
      CollapseSpacesKeepsWs(s[n..]);
    }
  }

  /** A text ending in a non-space character still ends in it once collapsed. */
  lemma CollapseSpacesLast(s: string)
    requires s != [] && s[|s| - 1] != ' '
    ensures CollapseSpaces(s) != [] && CollapseSpaces(s)[|CollapseSpaces(s)| - 1] == s[|s| - 1]
  {
    var c := s[|s| - 1];
    assert s == s[..|s| - 1] + [c];
    CollapseSpacesConcat(s[..|s| - 1], [c]);
    assert CollapseSpaces([c]) == [c];
  }

  lemma {:induction false} NewlineCountOfUnspaced(s: string)
    ensures NewlineCount(Unspaced(s)) == NewlineCount(s)
  {
    if s != [] {
      NewlineCountOfUnspaced(s[1..]);
      NewlineCountConcat(if s[0] == ' ' then [] else [s[0]], Unspaced(s[1..]));
    }
  }

  /** Collapsing keeps every line feed. */
  lemma CollapseSpacesKeepsNewlines(s: string)
    ensures NewlineCount(CollapseSpaces(s)) == NewlineCount(s)
  {
    CollapseSpacesRemovesOnlySpaces(s);
    NewlineCountOfUnspaced(s);
    NewlineCountOfUnspaced(CollapseSpaces(s));
  }

  // ---------------------------------------------------------------------------
  // Step 2: re.sub(r'\n\s*\n\s*\n+', '\n\n', text)
  //
  // Under leftmost, non-overlapping matching with greedy, backtracking
  // quantifiers, a match can only start at the first line feed of a maximal
  // whitespace run and ends just after that run's last line feed, and it
  // exists exactly when the run holds at least three line feeds.

  /** Index of the first line feed of `w`. */
  function FirstNewline(w: string): (k: nat)
    requires NewlineCount(w) > 0
    ensures k < |w| && w[k] == '\n'
    ensures NewlineCount(w[..k]) == 0
  {
    if w[0] == '\n' then 0
    else
      var k := FirstNewline(w[1..]);
      assert w[..k + 1][1..] == w[1..][..k];
      k + 1
  }

  /** Index of the last line feed of `w`. */
  function LastNewline(w: string): (k: nat)
    requires NewlineCount(w) > 0
    ensures k < |w| && w[k] == '\n'
    ensures NewlineCount(w[k + 1..]) == 0
  {
    if w[0] == '\n' && NewlineCount(w[1..]) == 0 then 0
    else
      var k := LastNewline(w[1..]);
      assert w[k + 2..] == w[1..][k + 1..];
      k + 1
  }

  /** With two line feeds or more, the first comes before the last. */
  lemma FirstBeforeLast(w: string)
    requires NewlineCount(w) >= 2
    ensures FirstNewline(w) < LastNewline(w)
  {
    var f, l := FirstNewline(w), LastNewline(w);
    if l < f {
      NewlineAt(w[..f], l);
      assert false;
    }
    NewlinesBetween(w, f, l);
  }

  lemma SplitThree(w: string, i: nat, j: nat)
    requires i <= j <= |w|
    ensures w == w[..i] + (w[i..j] + w[j..])
  {
    assert w[i..] == w[i..j] + w[j..];
    assert w == w[..i] + w[i..];
  }

  /** A line feed at `f` with none before it and none after `l`: with two
      line feeds or more, `l` lies beyond `f`. */
  lemma NewlinesBetween(w: string, f: nat, l: nat)
    requires f <= l < |w| && w[f] == '\n'
    requires NewlineCount(w[..f]) == 0 && NewlineCount(w[l + 1..]) == 0
    requires NewlineCount(w) >= 2
    ensures f < l
  {
    var a, m, b := w[..f], w[f..l + 1], w[l + 1..];
    SplitThree(w, f, l + 1);
    NewlineCountConcat(a, m + b);
    NewlineCountConcat(m, b);
    assert m[0] == '\n' && m[1..] == w[f + 1..l + 1];
    assert NewlineCount(w[f + 1..l + 1]) > 0;
  }

  /** `w` with the span from the line feed at `f` to the line feed at `l`
      replaced by `"\n\n"`. */
  function Rewrite(w: string, f: nat, l: nat): string
    requires f <= l < |w|
  {
    w[..f] + "\n\n" + w[l + 1..]
  }

  lemma RewriteShape(w: string, f: nat, l: nat)
    requires f < l < |w|
    ensures NewlineCount(Rewrite(w, f, l)) == NewlineCount(w[..f]) + 2 + NewlineCount(w[l + 1..])
    ensures |Rewrite(w, f, l)| == |w| - (l - f - 1)
    ensures AllWs(w) ==> AllWs(Rewrite(w, f, l))
  {
    NewlineCountConcat(w[..f] + "\n\n", w[l + 1..]);
    NewlineCountConcat(w[..f], "\n\n");
    assert AllWs(w) ==> AllWs(w[..f]) && AllWs(w[l + 1..]);
  }

  /** The effect of the substitution on one maximal whitespace run `w`. */
  function ShortenRun(w: string): (r: string)
    ensures NewlineCount(w) < 3 ==> r == w
    ensures NewlineCount(w) >= 3 ==> NewlineCount(r) == 2
    ensures |r| <= |w|
    ensures w != [] ==> r != []
    ensures AllWs(w) ==> AllWs(r)
  {
    if NewlineCount(w) >= 3 then
      var f, l := FirstNewline(w), LastNewline(w);
      FirstBeforeLast(w);
      RewriteShape(w, f, l);
      Rewrite(w, f, l)
    else w
  }

  /** Two line feeds with none before them are the same one. */
  lemma FirstNewlineIndexUnique(w: string, a: nat, b: nat)
    requires a < |w| && w[a] == '\n' && NewlineCount(w[..a]) == 0
    requires b < |w| && w[b] == '\n' && NewlineCount(w[..b]) == 0
    ensures a == b
  {
    if a < b {
      NewlineAt(w[..b], a);
      assert false;
    }
    if b < a {
      NewlineAt(w[..a], b);
      assert false;
    }
  }

  /** Two line feeds with none after them are the same one. */
  lemma LastNewlineIndexUnique(w: string, a: nat, b: nat)
    requires a < |w| && w[a] == '\n' && NewlineCount(w[a + 1..]) == 0
    requires b < |w| && w[b] == '\n' && NewlineCount(w[b + 1..]) == 0
    ensures a == b
  {
    if a < b {
      NewlineAt(w[a + 1..], b - a - 1);
      assert false;
    }
    if b < a {
      NewlineAt(w[b + 1..], a - b - 1);
      assert false;
    }
  }

  /** A line feed with none before it is the first one. */
  lemma FirstNewlineUnique(w: string, k: nat)
    requires k < |w| && w[k] == '\n' && NewlineCount(w[..k]) == 0
    ensures NewlineCount(w) > 0 && FirstNewline(w) == k
  {
    NewlineAt(w, k);
    FirstNewlineIndexUnique(w, FirstNewline(w), k);
  }

  /** A line feed with none after it is the last one. */
  lemma LastNewlineUnique(w: string, k: nat)
    requires k < |w| && w[k] == '\n' && NewlineCount(w[k + 1..]) == 0
    ensures NewlineCount(w) > 0 && LastNewline(w) == k
  {
    NewlineAt(w, k);
    LastNewlineIndexUnique(w, LastNewline(w), k);
  }

  /** Only the span from the first to the last line feed is rewritten:
      the whitespace before the first line feed stays. */
  lemma ShortenRunKeepsLead(w: string)
    requires NewlineCount(w) >= 3
    ensures NewlineCount(ShortenRun(w)) > 0
    ensures FirstNewline(ShortenRun(w)) == FirstNewline(w)
    ensures ShortenRun(w)[..FirstNewline(w)] == w[..FirstNewline(w)]
  {
    ShortenRunIsRewrite(w);
    RewriteKeepsLead(w, FirstNewline(w), LastNewline(w), ShortenRun(w));
  }

  /** Only the span from the first to the last line feed is rewritten: it
      becomes exactly two line feeds at the place of the first one, followed
      by the whitespace after the last line feed, unchanged. */
  lemma ShortenRunKeepsTail(w: string)
    requires NewlineCount(w) >= 3
    ensures FirstNewline(w) + 2 <= |ShortenRun(w)|
    ensures ShortenRun(w)[FirstNewline(w)..FirstNewline(w) + 2] == "\n\n"
    ensures ShortenRun(w)[FirstNewline(w) + 2..] == w[LastNewline(w) + 1..]
    ensures NewlineCount(ShortenRun(w)[FirstNewline(w) + 2..]) == 0
  {
    ShortenRunIsRewrite(w);
    RewriteKeepsTail(w, FirstNewline(w), LastNewline(w), ShortenRun(w));
  }

  lemma ShortenRunIsRewrite(w: string)
    requires NewlineCount(w) >= 3
    ensures FirstNewline(w) < LastNewline(w)
    ensures ShortenRun(w) == Rewrite(w, FirstNewline(w), LastNewline(w))
  {
    FirstBeforeLast(w);
  }

  lemma RewriteKeepsLead(w: string, f: nat, l: nat, r: string)
    requires f < l < |w| && w[f] == '\n' && NewlineCount(w[..f]) == 0
    requires r == Rewrite(w, f, l)
    ensures NewlineCount(r) > 0 && FirstNewline(r) == f && r[..f] == w[..f]
  {
    assert r[..f] == w[..f];
    FirstNewlineUnique(r, f);
  }

  lemma RewriteKeepsTail(w: string, f: nat, l: nat, r: string)
    requires f < l < |w|
    requires r == Rewrite(w, f, l)
    ensures f + 2 <= |r| && r[f..f + 2] == "\n\n" && r[f + 2..] == w[l + 1..]
  {
    assert r[f..f + 2] == "\n\n";
    assert r[f + 2..] == w[l + 1..];
  }

  lemma ShortenRunKeepsNoDoubleSpace(w: string)
    requires NoDoubleSpace(w)
    ensures NoDoubleSpace(ShortenRun(w))
  {
    if NewlineCount(w) >= 3 {
      var f, l := FirstNewline(w), LastNewline(w);
      FirstBeforeLast(w);
      NoDoubleSpaceSlice(w, 0, f);
      NoDoubleSpaceSlice(w, l + 1, |w|);
      assert w[0..f] == w[..f];
      NoDoubleSpaceConcat(w[..f], "\n\n");
      NoDoubleSpaceConcat(w[..f] + "\n\n", w[l + 1..]);
    }
  }

  /** Shortens every maximal whitespace run that holds three line feeds or more. */
  function ShortenBlankRuns(s: string): (r: string)
    ensures |r| <= |s|
    ensures s != [] && !IsWs(s[0]) ==> r != [] && r[0] == s[0]
    decreases |s|
  {
    if s == [] then []
    else if !IsWs(s[0]) then [s[0]] + ShortenBlankRuns(s[1..])
    else
      var n := WsRunLength(s);
      ShortenRun(s[..n]) + ShortenBlankRuns(s[n..])
  }

  /** After shortening, no whitespace stretch holds three line feeds. */
  lemma {:induction false} ShortenBlankRunsLeavesNoTriple(s: string)
    ensures NoBlankTriple(ShortenBlankRuns(s))
    decreases |s|
  {
    if s == [] {
      NoBlankTripleOfEmpty();
    } else if !IsWs(s[0]) {
      ShortenBlankRunsLeavesNoTriple(s[1..]);
      NoBlankTripleOfShortWs([s[0]]);
      NoBlankTripleConcat([s[0]], ShortenBlankRuns(s[1..]));
    } else {
      var n := WsRunLength(s);
      var w := ShortenRun(s[..n]);
      ShortenBlankRunsLeavesNoTriple(s[n..]);
      NoBlankTripleOfShortWs(w);
      NoBlankTripleConcat(w, ShortenBlankRuns(s[n..]));
    }
  }

  lemma {:induction false} ShortenBlankRunsKeepsNoDoubleSpace(s: string)
    requires NoDoubleSpace(s)
    ensures NoDoubleSpace(ShortenBlankRuns(s))
    decreases |s|
  {
    if s == [] {
    } else if !IsWs(s[0]) {
      NoDoubleSpaceSlice(s, 1, |s|);
      ShortenBlankRunsKeepsNoDoubleSpace(s[1..]);
      NoDoubleSpaceConcat([s[0]], ShortenBlankRuns(s[1..]));
    } else {
      var n := WsRunLength(s);
      NoDoubleSpaceSlice(s, 0, n);
      NoDoubleSpaceSlice(s, n, |s|);
      assert s[0..n] == s[..n];
      ShortenRunKeepsNoDoubleSpace(s[..n]);
      ShortenBlankRunsKeepsNoDoubleSpace(s[n..]);
      NoDoubleSpaceConcat(ShortenRun(s[..n]), ShortenBlankRuns(s[n..]));
    }
  }

  /** Shortening rewrites whitespace only: the other characters survive, in order. */
  lemma {:induction false} ShortenBlankRunsKeepsNonWs(s: string)
    ensures NonWs(ShortenBlankRuns(s)) == NonWs(s)
    decreases |s|
  {
    if s == [] {
    } else if !IsWs(s[0]) {
      ShortenBlankRunsKeepsNonWs(s[1..]);
      NonWsConcat([s[0]], ShortenBlankRuns(s[1..]));
    } else {
      var n := WsRunLength(s);
      ShortenBlankRunsKeepsNonWs(s[n..]);
      NonWsOfRunStep(s, n, ShortenRun(s[..n]), ShortenBlankRuns(s[n..]));
    }
  }

  lemma NonWsOfRunStep(s: string, n: nat, run: string, rest: string)
    requires n <= |s| && AllWs(s[..n]) && AllWs(run)
    requires NonWs(rest) == NonWs(s[n..])
    ensures NonWs(run + rest) == NonWs(s)
  {
    NonWsConcat(run, rest);
    NonWsOfWs(run);
    assert s == s[..n] + s[n..];
    NonWsConcat(s[..n], s[n..]);
    NonWsOfWs(s[..n]);
  }

  /** A text none of whose whitespace stretches holds three line feeds is
      left as it is. */
  lemma {:induction false} ShortenBlankRunsKeepsShortRuns(s: string)
    requires NoBlankTriple(s)
    ensures ShortenBlankRuns(s) == s
    decreases |s|
  {
    if s != [] {
      if !IsWs(s[0]) {
        NoBlankTripleSlice(s, 1, |s|);
        assert s[1..|s|] == s[1..];
        ShortenBlankRunsKeepsShortRuns(s[1..]);
        assert s == [s[0]] + s[1..];
      } else {
        var n := WsRunLength(s);
        assert BlankWindowShort(s, 0, n);
        assert s[0..n] == s[..n];
        assert NewlineCount(s[..n]) < 3;
        NoBlankTripleSlice(s, n, |s|);
        assert s[n..|s|] == s[n..];
        ShortenBlankRunsKeepsShortRuns(s[n..]);
        assert s == s[..n] + s[n..];
      }
    }
  }

  /** Shortening changes a text exactly when some whitespace stretch holds
      three line feeds. */
  lemma ShortenBlankRunsFixpoint(s: string)
    ensures ShortenBlankRuns(s) == s <==> NoBlankTriple(s)
  {
    ShortenBlankRunsLeavesNoTriple(s);
    if NoBlankTriple(s) {
      ShortenBlankRunsKeepsShortRuns(s);
    }
  }


  /** No two whitespace characters meet where `a` and `b` are joined. */
  predicate WsSeam(a: string, b: string) {
    a == [] || b == [] || !IsWs(a[|a| - 1]) || !IsWs(b[0])
  }

  lemma {:induction false} WsRunLengthConcat(a: string, b: string)
    requires a != [] && WsSeam(a, b)
    ensures WsRunLength(a + b) == WsRunLength(a)
    decreases |a|
  {
    assert (a + b)[1..] == a[1..] + b;
    if IsWs(a[0]) && |a| > 1 {
      WsRunLengthConcat(a[1..], b);
    }
  }

  /** How many characters the first step of `ShortenBlankRuns` consumes. */
  function BlankStep(s: string): (n: nat)
    requires s != []
    ensures 1 <= n <= |s|
  {
    if IsWs(s[0]) then WsRunLength(s) else 1
  }

  lemma ShortenBlankRunsUnfold(s: string)
    requires s != []
    ensures ShortenBlankRuns(s) == ShortenRun(s[..BlankStep(s)]) + ShortenBlankRuns(s[BlankStep(s)..])
  {
    if !IsWs(s[0]) {
      assert s[..1] == [s[0]];
      assert NewlineCount([s[0]]) == 0;
    }
  }

  lemma BlankStepConcat(a: string, b: string)
    requires a != [] && WsSeam(a, b)
    ensures BlankStep(a + b) == BlankStep(a)
  {
    assert (a + b)[0] == a[0];
    if IsWs(a[0]) {
      WsRunLengthConcat(a, b);
    }
  }

  /** The substitution works piece by piece across a seam where no two
      whitespace characters meet. */
  lemma {:induction false} ShortenBlankRunsConcat(a: string, b: string)
    requires WsSeam(a, b)
    ensures ShortenBlankRuns(a + b) == ShortenBlankRuns(a) + ShortenBlankRuns(b)
    decreases |a|
  {
    if a == [] {
      assert a + b == b;
    } else {
      var n := BlankStep(a);
      BlankStepConcat(a, b);
      ShortenBlankRunsUnfold(a + b);
      ShortenBlankRunsUnfold(a);
      SliceOfConcat(a, b, n);
      ShortenBlankRunsConcat(a[n..], b);
      JoinStep(ShortenBlankRuns(a + b), ShortenRun(a[..n]), ShortenBlankRuns(a[n..] + b),
               ShortenBlankRuns(a[n..]), ShortenBlankRuns(b), ShortenBlankRuns(a));
    }
  }

  lemma SliceOfConcat(a: string, b: string, n: nat)
    requires n <= |a|
    ensures (a + b)[..n] == a[..n] && (a + b)[n..] == a[n..] + b
    ensures a[n..] == [] || a[n..][|a[n..]| - 1] == a[|a| - 1]
  {
  }

  lemma JoinThree(whole: string, ra: string, rwb: string, rw: string, rb: string, sw: string)
    requires whole == ra + rwb && rwb == rw + rb && rw == sw
    ensures whole == ra + sw + rb
  {
  }

  lemma JoinStep(whole: string, head: string, restAll: string, restA: string, restB: string, partA: string)
    requires whole == head + restAll && restAll == restA + restB && partA == head + restA
    ensures whole == partA + restB
  {
  }

  /** A text that is one whitespace run is shortened as that run. */
  lemma ShortenBlankRunsOfRun(w: string)
    requires w != [] && AllWs(w)
    ensures ShortenBlankRuns(w) == ShortenRun(w)
  {
    assert WsRunLength(w) == |w|;
    assert w[..|w|] == w;
  }

  /** Every maximal whitespace run is shortened on its own, whatever the
      rest of the text holds: a run with at most two line feeds stays as it
      is even next to a long one, and no run disappears. */
  lemma ShortenBlankRunsInnerRun(a: string, w: string, b: string)
    requires a == [] || !IsWs(a[|a| - 1])
    requires b == [] || !IsWs(b[0])
    requires AllWs(w)
    ensures ShortenBlankRuns(a + w + b) == ShortenBlankRuns(a) + ShortenRun(w) + ShortenBlankRuns(b)
  {
    if w == [] {
      ShortenBlankRunsNoRun(a, w, b);
    } else {
      ShortenBlankRunsOneRun(a, w, b);
    }
  }

  lemma ShortenBlankRunsNoRun(a: string, w: string, b: string)
    requires WsSeam(a, b) && w == []
    ensures ShortenBlankRuns(a + w + b) == ShortenBlankRuns(a) + ShortenRun(w) + ShortenBlankRuns(b)
  {
    assert a + w + b == a + b;
    assert ShortenRun(w) == [];
    ShortenBlankRunsConcat(a, b);
    JoinThree(ShortenBlankRuns(a + b), ShortenBlankRuns(a), ShortenBlankRuns(b),
              [], ShortenBlankRuns(b), []);
  }

  lemma ShortenBlankRunsOneRun(a: string, w: string, b: string)
    requires a == [] || !IsWs(a[|a| - 1])
    requires b == [] || !IsWs(b[0])
    requires AllWs(w) && w != []
    ensures ShortenBlankRuns(a + w + b) == ShortenBlankRuns(a) + ShortenRun(w) + ShortenBlankRuns(b)
  {
    assert a + w + b == a + (w + b);
    ShortenBlankRunsConcat(w, b);
    assert (w + b)[0] == w[0];
    ShortenBlankRunsConcat(a, w + b);
    ShortenBlankRunsOfRun(w);
    JoinThree(ShortenBlankRuns(a + (w + b)), ShortenBlankRuns(a), ShortenBlankRuns(w + b),
              ShortenBlankRuns(w), ShortenBlankRuns(b), ShortenRun(w));
  }

  /** A text ending in a non-whitespace character still ends in it once shortened. */
  lemma ShortenBlankRunsLast(s: string)
    requires s != [] && !IsWs(s[|s| - 1])
    ensures ShortenBlankRuns(s) != [] && ShortenBlankRuns(s)[|ShortenBlankRuns(s)| - 1] == s[|s| - 1]
  {
    var c := s[|s| - 1];
    assert s == s[..|s| - 1] + [c];
    ShortenBlankRunsConcat(s[..|s| - 1], [c]);
    assert ShortenBlankRuns([c]) == [c];
  }

  // ---------------------------------------------------------------------------
  // Step 3: str.strip()

  /** `s` without its trailing whitespace. */
  function StripTrailing(s: string): (r: string)
    ensures |r| <= |s| && r == s[..|r|]
    ensures AllWs(s[|r|..])
    ensures r == [] || !IsWs(r[|r| - 1])
  {
    if s != [] && IsWs(s[|s| - 1]) then
      var r := StripTrailing(s[..|s| - 1]);
      assert s[|r|..] == s[..|s| - 1][|r|..] + [s[|s| - 1]];
      r
    else s
  }

  /** `s` without its leading and trailing whitespace. */
  function Strip(s: string): (r: string)
    ensures WsRunLength(s) + |r| <= |s|
    ensures r == s[WsRunLength(s)..WsRunLength(s) + |r|]
    ensures AllWs(s[WsRunLength(s) + |r|..])
    ensures r == [] || (!IsWs(r[0]) && !IsWs(r[|r| - 1]))
    ensures r == [] <==> AllWs(s)
  {
    var n := WsRunLength(s);
    var r := StripTrailing(s[n..]);
    assert r != [] ==> r[0] == s[n];
    assert s[n..][|r|..] == s[n + |r|..];
    assert r == [] ==> s == s[..n] + s[n..];
    r
  }

  /** Stripping changes a text exactly when it starts or ends with whitespace. */
  lemma StripFixpoint(s: string)
    ensures Strip(s) == s <==> (s == [] || (!IsWs(s[0]) && !IsWs(s[|s| - 1])))
  {
    if s != [] && !IsWs(s[0]) && !IsWs(s[|s| - 1]) {
      assert WsRunLength(s) == 0;
    }
  }

  lemma StripKeepsNoDoubleSpace(s: string)
    requires NoDoubleSpace(s)
    ensures NoDoubleSpace(Strip(s))
  {
    var n := WsRunLength(s);
    NoDoubleSpaceSlice(s, n, n + |Strip(s)|);
  }

  lemma StripKeepsNoBlankTriple(s: string)
    requires NoBlankTriple(s)
    ensures NoBlankTriple(Strip(s))
  {
    var n := WsRunLength(s);
    NoBlankTripleSlice(s, n, n + |Strip(s)|);
  }

  lemma StripKeepsNonWs(s: string)
    ensures NonWs(Strip(s)) == NonWs(s)
  {
    var n := WsRunLength(s);
    var r := Strip(s);
    SplitAround(s, n, n + |r|);
    NonWsOfPadded(s[..n], s[n..n + |r|], s[n + |r|..]);
  }

  lemma SplitAround(s: string, i: nat, j: nat)
    requires i <= j <= |s|
    ensures s == s[..i] + s[i..j] + s[j..]
  {
    assert s[..j] == s[..i] + s[i..j];
    assert s == s[..j] + s[j..];
  }

  lemma NonWsOfPadded(a: string, r: string, b: string)
    requires AllWs(a) && AllWs(b)
    ensures NonWs(a + r + b) == NonWs(r)
  {
    NonWsConcat(a + r, b);
    NonWsConcat(a, r);
    NonWsOfWs(a);
    NonWsOfWs(b);
  }

  // ---------------------------------------------------------------------------
  // clean_display_text

  /** The three steps in order; the empty text is returned as it is. */
  function CleanDisplayText(text: string): (r: string)
    ensures text == [] ==> r == []
    ensures r == [] || (!IsWs(r[0]) && !IsWs(r[|r| - 1]))
    ensures |r| <= |text|
  {
    if text == [] then text
    else Strip(ShortenBlankRuns(CollapseSpaces(text)))
  }

  /** The cleaned text never holds two adjacent spaces. */
  lemma CleanDisplayTextNoDoubleSpace(text: string)
    ensures NoDoubleSpace(CleanDisplayText(text))
  {
    if text != [] {
      ShortenBlankRunsKeepsNoDoubleSpace(CollapseSpaces(text));
      StripKeepsNoDoubleSpace(ShortenBlankRuns(CollapseSpaces(text)));
    }
  }

  /** No whitespace stretch of the cleaned text holds three line feeds. */
  lemma CleanDisplayTextNoBlankTriple(text: string)
    ensures NoBlankTriple(CleanDisplayText(text))
  {
    if text != [] {
      ShortenBlankRunsLeavesNoTriple(CollapseSpaces(text));
      StripKeepsNoBlankTriple(ShortenBlankRuns(CollapseSpaces(text)));
    } else {
      NoBlankTripleOfEmpty();
    }
  }

  /** Cleaning rewrites whitespace only: the other characters survive, in order. */
  lemma CleanDisplayTextKeepsNonWs(text: string)
    ensures NonWs(CleanDisplayText(text)) == NonWs(text)
  {
    if text != [] {
      var c := CollapseSpaces(text);
      StripKeepsNonWs(ShortenBlankRuns(c));
      ShortenBlankRunsKeepsNonWs(c);
      CollapseSpacesRemovesOnlySpaces(text);
      NonWsOfUnspaced(c);
      NonWsOfUnspaced(text);
    }
  }

  /** Cleaning twice is cleaning once. */
  lemma CleanDisplayTextIdempotent(text: string)
    ensures CleanDisplayText(CleanDisplayText(text)) == CleanDisplayText(text)
  {
    var r := CleanDisplayText(text);
    if r != [] {
      CleanDisplayTextNoDoubleSpace(text);
      CleanDisplayTextNoBlankTriple(text);
      CleanDisplayTextOfClean(r);
    }
  }

  /** A text that already has the three properties of a cleaned text is
      left as it is. */
  lemma CleanDisplayTextOfClean(r: string)
    requires r != [] && !IsWs(r[0]) && !IsWs(r[|r| - 1])
    requires NoDoubleSpace(r) && NoBlankTriple(r)
    ensures CleanDisplayText(r) == r
  {
    CollapseSpacesFixpoint(r);
    ShortenBlankRunsFixpoint(r);
    StripFixpoint(r);
    CleanDisplayTextUnfold(r);
  }

  /** A whitespace run after the first two steps: still whitespace, present
      whenever the run was, with its line feeds capped at two. */
  lemma CollapsedRunShape(w: string)
    requires AllWs(w)
    ensures var r := ShortenRun(CollapseSpaces(w));
            AllWs(r) && (w != [] ==> r != [])
            && NewlineCount(r) == (if NewlineCount(w) < 3 then NewlineCount(w) else 2)
  {
    CollapseSpacesKeepsWs(w);
    CollapseSpacesKeepsNewlines(w);
  }

  /** Cleaning works run by run: a whitespace run between two words or
      paragraphs is not removed but replaced by its collapsed, shortened form,
      and the text on either side is cleaned on its own. */
  lemma CleanDisplayTextInnerRun(a: string, w: string, b: string)
    requires a != [] && !IsWs(a[|a| - 1])
    requires b != [] && !IsWs(b[0])
    requires AllWs(w)
    ensures CleanDisplayText(a + w + b) == CleanDisplayText(a) + ShortenRun(CollapseSpaces(w)) + CleanDisplayText(b)
  {
    var ca, cw, cb := CollapseSpaces(a), CollapseSpaces(w), CollapseSpaces(b);
    ShortenCollapsedInnerRun(a, w, b);
    CollapsedRunShape(w);
    CollapseSpacesLast(a);
    ShortenBlankRunsLast(ca);
    StripAroundInnerRun(ShortenBlankRuns(ca), ShortenRun(cw), ShortenBlankRuns(cb));
    CleanDisplayTextUnfold(a + w + b);
    CleanDisplayTextUnfold(a);
    CleanDisplayTextUnfold(b);
  }

  /** The first two steps work run by run on a whitespace run between two
      non-whitespace characters. */
  lemma ShortenCollapsedInnerRun(a: string, w: string, b: string)
    requires a != [] && !IsWs(a[|a| - 1])
    requires b != [] && !IsWs(b[0])
    requires AllWs(w)
    ensures ShortenBlankRuns(CollapseSpaces(a + w + b))
            == ShortenBlankRuns(CollapseSpaces(a)) + ShortenRun(CollapseSpaces(w)) + ShortenBlankRuns(CollapseSpaces(b))
  {
    CollapseThree(a, w, b);
    CollapseSpacesKeepsWs(w);
    CollapseSpacesLast(a);
    ShortenBlankRunsInnerRun(CollapseSpaces(a), CollapseSpaces(w), CollapseSpaces(b));
  }

  lemma CleanDisplayTextUnfold(t: string)
    requires t != []
    ensures CleanDisplayText(t) == Strip(ShortenBlankRuns(CollapseSpaces(t)))
  {
  }

  /** Collapsing a run between two non-space characters works piece by piece. */
  lemma CollapseThree(a: string, w: string, b: string)
    requires a != [] && a[|a| - 1] != ' ' && b != [] && b[0] != ' '
    ensures CollapseSpaces(a + w + b) == CollapseSpaces(a) + CollapseSpaces(w) + CollapseSpaces(b)
  {
    assert a + w + b == a + (w + b);
    CollapseSpacesConcat(w, b);
    CollapseSpacesConcat(a, w + b);
    JoinThree(CollapseSpaces(a + (w + b)), CollapseSpaces(a), CollapseSpaces(w + b),
              CollapseSpaces(w), CollapseSpaces(b), CollapseSpaces(w));
  }

  /** Stripping a text made of two parts joined by a whitespace run between
      non-whitespace characters removes only the outer whitespace. */
  lemma StripAroundInnerRun(x: string, w: string, y: string)
    requires x != [] && !IsWs(x[|x| - 1])
    requires y != [] && !IsWs(y[0])
    requires AllWs(w)
    ensures Strip(x + w + y) == Strip(x) + w + Strip(y)
  {
    var p, rx := StripLeadOnly(x);
    var ry, q := StripTrailOnly(y);
    var r := rx + w + ry;
    Regroup(x, w, y, p, rx, ry, q);
    assert r[0] == rx[0] && r[|r| - 1] == ry[|ry| - 1];
    StripUnique(x + w + y, p, r, q);
  }

  lemma Regroup(x: string, w: string, y: string, p: string, rx: string, ry: string, q: string)
    requires x == p + rx && y == ry + q
    ensures x + w + y == p + (rx + w + ry) + q
  {
  }

  /** A text ending in non-whitespace loses only its leading whitespace. */
  lemma StripLeadOnly(x: string) returns (p: string, rx: string)
    requires x != [] && !IsWs(x[|x| - 1])
    ensures rx == Strip(x) && x == p + rx && AllWs(p)
    ensures rx != [] && !IsWs(rx[0]) && !IsWs(rx[|rx| - 1])
  {
    var n := WsRunLength(x);
    rx := Strip(x);
    assert n + |rx| == |x|;
    p := x[..n];
    assert x == p + rx;
  }

  /** A text starting with non-whitespace loses only its trailing whitespace. */
  lemma StripTrailOnly(y: string) returns (ry: string, q: string)
    requires y != [] && !IsWs(y[0])
    ensures ry == Strip(y) && y == ry + q && AllWs(q)
    ensures ry != [] && !IsWs(ry[0]) && !IsWs(ry[|ry| - 1])
  {
    assert WsRunLength(y) == 0;
    ry := Strip(y);
    q := y[|ry|..];
    assert y == ry + q;
  }

  /** Stripping gives back the middle of any split into a whitespace prefix,
      a part with non-whitespace ends, and a whitespace suffix. */
  lemma StripUnique(s: string, p: string, r: string, q: string)
    requires s == p + r + q && AllWs(p) && AllWs(q)
    requires r != [] && !IsWs(r[0]) && !IsWs(r[|r| - 1])
    ensures Strip(s) == r
  {
    var n := WsRunLength(s);
    var e := |p| + |r|;
    assert s[|p|] == r[0] && s[e - 1] == r[|r| - 1];
    assert n == |p|;
    var t := Strip(s);
    assert n + |t| == e;
    assert s[|p|..e] == r;
  }
}
