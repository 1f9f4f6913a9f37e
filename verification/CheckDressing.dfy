/** What normalisation makes of a text it changes: the letters' case, back-quotes, the lengths of runs of
    white space and character-set introducers do not count, and nothing else is lost. */
module CheckDressing {
  import opened CheckNormal
  import opened CheckText
  import opened CheckShape
  import opened CheckReaders
  import opened CheckPrint

  // ---- Back-quotes ----

  /** A back-quote anywhere makes no difference. */
  lemma BackquoteVanishes(a: string, b: string)
    ensures Normalize(a + "`" + b) == Normalize(a + b)
  {
    hide Collapse, DropTags, Lower;
    DropBackquotesConcat(a + "`", b);
    DropBackquotesConcat(a, "`");
    DropBackquotesConcat(a, b);
    assert DropBackquotes("`") == "" by { assert "`"[1..] == ""; }
    assert DropBackquotes(a) + "" == DropBackquotes(a);
  }

  // ---- Case ----

  /** The same letter, or the capital of a small one. */
  predicate Recased(c: char, small: char) { c == small || ('a' <= small <= 'z' && c as int + 32 == small as int) }

  lemma {:induction false} CaseIsLowered(s: string, t: string)
    requires |t| == |s| && forall i | 0 <= i < |s| :: Recased(t[i], s[i])
    ensures Lower(DropBackquotes(t)) == Lower(DropBackquotes(s))
  {
    if s != "" {
      CaseIsLowered(s[1..], t[1..]);
      assert Recased(t[0], s[0]);
      assert (s[0] == '`' <==> t[0] == '`') && LowerChar(t[0]) == LowerChar(s[0]);
      var x, y := DropBackquotes(s[1..]), DropBackquotes(t[1..]);
      if s[0] != '`' {
        LowerConcat([s[0]], x);
        LowerConcat([t[0]], y);
      }
    }
  }

  /** Capitals make no difference; so every re-casing of a text that normalisation leaves alone comes back
      to that text. */
  lemma CaseVanishes(s: string, t: string)
    requires |t| == |s| && forall i | 0 <= i < |s| :: Recased(t[i], s[i])
    ensures Normalize(t) == Normalize(s)
    ensures Normal(s) ==> Normalize(t) == s
  {
    hide Collapse, DropTags, Lower, DropBackquotes, Recased, Normal;
    CaseIsLowered(s, t);
    UnchangedIffNormal(s);
  }

  // ---- White space ----

  /** The ASCII characters that Python strips and \s matches. */
  predicate White(c: char) {
    c in {' ', '\t', '\n', '\U{0B}', '\U{0C}', '\r', '\U{1C}', '\U{1D}', '\U{1E}', '\U{1F}'}
  }

  lemma WhiteIsSpace(c: char)
    ensures IsSpace(c) <==> White(c)
  {
  }

  predicate Blank(w: string) { forall i | 0 <= i < |w| :: IsSpace(w[i]) }

  /** The same text but for the lengths of its runs of white space. */
  ghost predicate Respaced(x: string, y: string)
    decreases |x| + |y|
  {
    if x == "" || y == "" then Blank(x) && Blank(y)
    else if IsSpace(x[0]) || IsSpace(y[0]) then IsSpace(x[0]) && IsSpace(y[0]) && Respaced(TrimLeft(x), TrimLeft(y))
    else x[0] == y[0] && Respaced(x[1..], y[1..])
  }

  lemma {:induction false} BlankTrims(w: string)
    ensures Blank(w) <==> TrimLeft(w) == ""
  {
    if w != "" && IsSpace(w[0]) { BlankTrims(w[1..]); }
  }

  lemma {:induction false} TrimLeftConcat(w: string, b: string)
    ensures TrimLeft(w + b) == if Blank(w) then TrimLeft(b) else TrimLeft(w) + b
  {
    if w == "" {
      assert w + b == b;
    } else if IsSpace(w[0]) {
      assert (w + b)[1..] == w[1..] + b;
      TrimLeftConcat(w[1..], b);
      assert Blank(w) <==> Blank(w[1..]);
    }
  }

  lemma {:induction false} RespacedSelf(x: string)
    ensures Respaced(x, x)
    decreases |x|
  {
    if x != "" { if IsSpace(x[0]) { RespacedSelf(TrimLeft(x)); } else { RespacedSelf(x[1..]); } }
  }

  lemma {:induction false} RespacedBack(x: string, y: string)
    requires Respaced(x, y)
    ensures Respaced(y, x)
    decreases |x| + |y|
  {
    if x != "" && y != "" {
      if IsSpace(x[0]) { RespacedBack(TrimLeft(x), TrimLeft(y)); } else { RespacedBack(x[1..], y[1..]); }
    }
  }

  lemma RespacedTrims(x: string, y: string)
    requires Respaced(x, y)
    ensures Respaced(TrimLeft(x), TrimLeft(y))
  {
    if x == "" || y == "" {
      BlankTrims(x);
      BlankTrims(y);
    }
  }

  lemma RunFirst(w: string, v: string, b: string)
    requires w != "" && v != "" && Blank(w) && Blank(v)
    ensures Respaced(w + b, v + b)
  {
    TrimLeftConcat(w, b);
    TrimLeftConcat(v, b);
    RespacedSelf(TrimLeft(b));
  }

  /** Two runs in the same place. */
  lemma {:induction false} RunsAreRespaced(a: string, w: string, v: string, b: string)
    requires w != "" && v != "" && Blank(w) && Blank(v)
    ensures Respaced(a + (w + b), a + (v + b))
    decreases |a|
  {
    hide Blank, Respaced, TrimLeft;
    if a == "" {
      assert a + (w + b) == w + b && a + (v + b) == v + b;
      RunFirst(w, v, b);
    } else if !IsSpace(a[0]) {
      RunsAreRespaced(a[1..], w, v, b);
      HeadsMatch(a[0], a[1..] + (w + b), a[1..] + (v + b));
      assert a + (w + b) == [a[0]] + (a[1..] + (w + b)) && a + (v + b) == [a[0]] + (a[1..] + (v + b));
    } else {
      TrimLeftConcat(a, w + b);
      TrimLeftConcat(a, v + b);
      if Blank(a) {
        RunFirst(w, v, b);
        RespacedTrims(w + b, v + b);
      } else {
        ShorterTrimmed(a);
        RunsAreRespaced(TrimLeft(a), w, v, b);
        TrimsMatch(TrimLeft(a) + (w + b), TrimLeft(a) + (v + b), a + (w + b), a + (v + b));
        return;
      }
      TrimsMatch(TrimLeft(w + b), TrimLeft(v + b), a + (w + b), a + (v + b));
    }
  }

  lemma ShorterTrimmed(a: string)
    requires a != "" && IsSpace(a[0])
    ensures |TrimLeft(a)| < |a|
  {
  }

  lemma TrimsMatch(p: string, q: string, x: string, y: string)
    requires x != "" && y != "" && IsSpace(x[0]) && IsSpace(y[0])
    requires p == TrimLeft(x) && q == TrimLeft(y) && Respaced(p, q)
    ensures Respaced(x, y)
  {
  }

  /** A run without white space is in both texts, and what follows is the same again. */
  lemma {:induction false} RunCarries(x: string, y: string, n: nat)
    requires Respaced(x, y) && n <= |x| && forall i | 0 <= i < n :: !IsSpace(x[i])
    ensures n <= |y| && x[..n] == y[..n] && Respaced(x[n..], y[n..])
    decreases n
  {
    if n == 0 {
      assert x[0..] == x && y[0..] == y;
    } else {
      RunCarries(x[1..], y[1..], n - 1);
      assert x[1..][n - 1..] == x[n..] && y[1..][n - 1..] == y[n..];
      assert x[..n] == [x[0]] + x[1..][..n - 1] && y[..n] == [y[0]] + y[1..][..n - 1];
    }
  }

  /** Texts that differ in runs of white space only have the same words. */
  lemma {:induction false} RespacedWords(x: string, y: string)
    requires Respaced(x, y)
    ensures Words(x) == Words(y)
    decreases |x|
  {
    RespacedTrims(x, y);
    var t, u := TrimLeft(x), TrimLeft(y);
    if t == "" || u == "" {
      BlankTrims(t);
      BlankTrims(u);
      assert t == "" && u == "";
    } else {
      var n := Graph(t);
      RunCarries(t, u, n);
      GraphIs(u, n);
      RespacedWords(t[n..], u[n..]);
    }
  }

  // ---- Introducers under re-spacing ----

  lemma {:induction false} BlankHasNoTag(w: string)
    requires Blank(w)
    ensures DropTags(w) == w
  {
    if w != "" {
      assert !(w[0] == '_');
      BlankHasNoTag(w[1..]);
    }
  }

  lemma {:induction false} DropTagsTrims(x: string)
    ensures TrimLeft(DropTags(x)) == DropTags(TrimLeft(x))
    ensures DropTags(x) == "" <==> x == ""
    ensures x != "" ==> (IsSpace(x[0]) <==> IsSpace(DropTags(x)[0]))
  {
    if x != "" && IsSpace(x[0]) {
      DropTagsTrims(x[1..]);
      assert TagLength(x) == 0;
      assert DropTags(x) == [x[0]] + DropTags(x[1..]) && DropTags(x)[1..] == DropTags(x[1..]);
    }
  }

  /** Blanks and what ends them: the other text has blanks there too, and then the same character. */
  lemma GapCarries(p: string, q: string, n: nat) returns (m: nat)
    requires Respaced(p, q) && n < |p| && !IsSpace(p[n]) && forall i | 0 <= i < n :: IsSpace(p[i])
    ensures m < |q| && q[m] == p[n] && (forall i | 0 <= i < m :: IsSpace(q[i]))
    ensures Respaced(p[n + 1..], q[m + 1..])
  {
    hide Respaced, TrimLeft, IsSpace;
    var t := GapOf(p, n);
    RespacedTrims(p, q);
    var u := TrimLeft(q);
    TrimLeftIsSuffix(q);
    TrimmedIsBlank(q);
    m := |q| - |u|;
    NotTrimmedAway(t, u);
    SameHeads(t, u);
    assert t[0] == p[n] && u[0] == q[m] && t[1..] == p[n + 1..] && u[1..] == q[m + 1..];
  }

  lemma NotTrimmedAway(t: string, u: string)
    requires Respaced(t, u) && t != "" && !IsSpace(t[0])
    ensures u != ""
  {
  }

  /** A tag at the start of one text is a tag at the start of the other. */
  lemma TagCarries(x: string, y: string, j: int, k: int) returns (m: int)
    requires Respaced(x, y) && TagAt(x, 0, j, k)
    ensures TagAt(y, 0, j, m) && Respaced(x[k + 1..], y[m + 1..])
  {
    hide Respaced;
    RunCarries(x, y, j);
    var p, q := x[j..], y[j..];
    var n := GapCarries(p, q, k - j);
    m := j + n;
    assert p[k - j + 1..] == x[k + 1..] && q[n + 1..] == y[m + 1..];
    forall i | 0 <= i < j ensures y[i] == x[i] { assert x[..j][i] == y[..j][i]; }
    forall i | j <= i < m ensures IsSpace(y[i]) { assert q[i - j] == y[i]; }
  }

  lemma RespacedBlank(x: string, y: string)
    requires Respaced(x, y)
    ensures Blank(x) <==> Blank(y)
  {
    RespacedTrims(x, y);
    BlankTrims(x);
    BlankTrims(y);
  }

  lemma {:induction false} TrimmedIsBlank(s: string)
    ensures forall i | 0 <= i < |s| - |TrimLeft(s)| :: IsSpace(s[i])
  {
    if s != "" && IsSpace(s[0]) { TrimmedIsBlank(s[1..]); }
  }

  /** Behind n blanks comes something else. */
  lemma {:induction false} GapOf(s: string, n: nat) returns (t: string)
    requires n < |s| && !IsSpace(s[n]) && forall i | 0 <= i < n :: IsSpace(s[i])
    ensures t == TrimLeft(s) == s[n..]
    decreases n
  {
    if n == 0 { t := s; assert s[0..] == s; }
    else { t := GapOf(s[1..], n - 1); assert s[1..][n - 1..] == s[n..]; }
  }

  lemma {:induction false} RespacedTags(x: string, y: string)
    requires Respaced(x, y)
    ensures Respaced(DropTags(x), DropTags(y))
    decreases |x| + |y|
  {
    hide TagAt, TagLength, DropTags;
    if x == "" || y == "" {
      BlankHasNoTag(x);
      BlankHasNoTag(y);
    } else if IsSpace(x[0]) {
      RespacedTags(TrimLeft(x), TrimLeft(y));
      DropTagsTrims(x);
      DropTagsTrims(y);
    } else {
      HeadTags(x, y);
    }
  }

  lemma {:induction false} HeadTags(x: string, y: string)
    requires Respaced(x, y) && x != "" && y != "" && !IsSpace(x[0])
    ensures Respaced(DropTags(x), DropTags(y))
    decreases |x| + |y|, 0
  {
    hide TagAt, TagLength, DropTags, Respaced;
    DropsHead(x);
    DropsHead(y);
    SameHeads(x, y);
    if TagLength(x) > 0 {
      var k := TagLength(x) - 1;
      var j :| TagAt(x, 0, j, k);
      var m := TagCarries(x, y, j, k);
      TagIsFound(y, j, m);
      TagFits(x, j, k);
      TagFits(y, j, m);
      RespacedTags(x[k + 1..], y[m + 1..]);
      HeadsMatch('\'', DropTags(x[k + 1..]), DropTags(y[m + 1..]));
    } else {
      NoTagCarries(x, y);
      RespacedTags(x[1..], y[1..]);
      HeadsMatch(x[0], DropTags(x[1..]), DropTags(y[1..]));
    }
  }

  lemma SameHeads(x: string, y: string)
    requires Respaced(x, y) && x != "" && y != "" && !IsSpace(x[0])
    ensures x[0] == y[0] && Respaced(x[1..], y[1..])
  {
  }

  lemma TagFits(s: string, j: int, k: int)
    requires TagAt(s, 0, j, k)
    ensures 0 <= k < |s|
  {
  }

  lemma NoTagCarries(x: string, y: string)
    requires Respaced(x, y) && TagLength(x) == 0
    ensures TagLength(y) == 0
  {
    hide TagAt;
    if TagLength(y) > 0 {
      var k := TagLength(y) - 1;
      var j :| TagAt(y, 0, j, k);
      RespacedBack(x, y);
      var m := TagCarries(y, x, j, k);
      TagFits(x, j, m);
      TagIsFound(x, j, m);
    }
  }

  lemma HeadsMatch(c: char, x: string, y: string)
    requires !IsSpace(c) && Respaced(x, y)
    ensures Respaced([c] + x, [c] + y)
  {
    assert ([c] + x)[1..] == x && ([c] + y)[1..] == y;
  }

  lemma AllWhiteIsBlank(w: string)
    requires forall i | 0 <= i < |w| :: White(w[i])
    ensures Blank(w)
  {
    forall i | 0 <= i < |w| ensures IsSpace(w[i]) { WhiteIsSpace(w[i]); }
  }

  /** How long a run of white space is makes no difference, nor of what characters it is. */
  lemma RunLengthVanishes(a: string, w: string, v: string, b: string)
    requires w != "" && v != "" && (forall i | 0 <= i < |w| :: White(w[i])) && forall i | 0 <= i < |v| :: White(v[i])
    ensures Normalize(a + w + b) == Normalize(a + v + b)
  {
    hide Collapse, DropTags, Lower, DropBackquotes, Respaced, Blank, White;
    AllWhiteIsBlank(w);
    AllWhiteIsBlank(v);
    LoweredParts(a, w, b);
    LoweredParts(a, v, b);
    var p, q := Lower(DropBackquotes(a)), Lower(DropBackquotes(b));
    RunsAreRespaced(p, w, v, q);
    assert p + w + q == p + (w + q) && p + v + q == p + (v + q);
    RespacedTags(p + w + q, p + v + q);
    RespacedWords(DropTags(p + w + q), DropTags(p + v + q));
    SameWords(DropTags(p + w + q), DropTags(p + v + q));
  }

  lemma LoweredParts(a: string, w: string, b: string)
    requires Blank(w)
    ensures Lower(DropBackquotes(a + w + b)) == Lower(DropBackquotes(a)) + w + Lower(DropBackquotes(b))
  {
    hide Lower, DropBackquotes;
    DropBackquotesConcat(a + w, b);
    DropBackquotesConcat(a, w);
    LowerConcat(DropBackquotes(a) + DropBackquotes(w), DropBackquotes(b));
    LowerConcat(DropBackquotes(a), DropBackquotes(w));
    BlankIsKept(w);
  }

  lemma {:induction false} BlankIsKept(w: string)
    requires Blank(w)
    ensures Lower(DropBackquotes(w)) == w
  {
    if w != "" {
      BlankIsKept(w[1..]);
      LowerConcat([w[0]], DropBackquotes(w[1..]));
      assert LowerChar(w[0]) == w[0];
    }
  }

  /** White space at either end makes no difference at all. */
  lemma EndsVanish(s: string)
    ensures Normalize(Trim(s)) == Normalize(s)
  {
    hide Normalize, TrimLeft, TrimRight;
    NormalizeLeft(s);
    NormalizeRight(TrimLeft(s));
  }

  // ---- Introducers ----

  /** An introducer written before the quote of a text that has none there is dropped again. */
  lemma {:induction false} TagIsDropped(a: string, w: string, gap: string, b: string)
    requires w != "" && (forall i | 0 <= i < |w| :: IsWord(w[i])) && Blank(gap)
    requires forall i, j :: !TagAt(a + "'" + b, i, j, |a|)
    ensures DropTags(a + "_" + w + gap + "'" + b) == DropTags(a + "'" + b)
    decreases |a|
  {
    hide TagAt, TagLength, DropTags, IsWord, Blank;
    var x, t := a + "'" + b, a + "_" + w + gap + "'" + b;
    if a == "" {
      TagStarts(w, gap, b);
      QuoteStarts(b);
      assert t == "_" + w + gap + "'" + b && x == "'" + b;
    } else {
      SameHeadTag(a, w, gap, b);
      var n := TagLength(x);
      DropsHead(x);
      DropsHead(t);
      var m := if n > 0 then n else 1;
      RestOf(a, w, gap, b, m);
      TagIsDropped(a[m..], w, gap, b);
    }
  }

  lemma RestOf(a: string, w: string, gap: string, b: string, m: nat)
    requires m <= |a| && a != "" && forall i, j :: !TagAt(a + "'" + b, i, j, |a|)
    ensures (a + "'" + b)[m..] == a[m..] + "'" + b
    ensures (a + "_" + w + gap + "'" + b)[m..] == a[m..] + "_" + w + gap + "'" + b
    ensures (a + "'" + b)[0] == (a + "_" + w + gap + "'" + b)[0]
    ensures forall i, j :: !TagAt(a[m..] + "'" + b, i, j, |a[m..]|)
  {
    hide TagAt;
    var x, rest := a + "'" + b, a[m..];
    assert x[m..] == rest + "'" + b;
    forall i, j ensures !TagAt(rest + "'" + b, i, j, |rest|) {
      if TagAt(x[m..], i, j, |rest|) {
        assert x[m..] == x[m..|x|];
        TagShifts(x, m, |x|, i, j, |rest|);
      }
    }
  }

  lemma DropsHead(s: string)
    requires s != ""
    ensures DropTags(s) == if TagLength(s) > 0 then "'" + DropTags(s[TagLength(s)..]) else [s[0]] + DropTags(s[1..])
  {
  }

  lemma TagStarts(w: string, gap: string, b: string)
    requires w != "" && (forall i | 0 <= i < |w| :: IsWord(w[i])) && Blank(gap)
    ensures DropTags("_" + w + gap + "'" + b) == "'" + DropTags(b)
  {
    hide DropTags, TagLength;
    var t := "_" + w + gap + "'" + b;
    var j, k := 1 + |w|, 1 + |w| + |gap|;
    forall i | 0 < i < j ensures IsWord(t[i]) { assert t[i] == w[i - 1]; }
    forall i | j <= i < k ensures IsSpace(t[i]) { assert t[i] == gap[i - j]; }
    assert TagAt(t, 0, j, k);
    TagIsFound(t, j, k);
    DropsHead(t);
    assert t[k + 1..] == b;
  }

  lemma QuoteStarts(b: string)
    ensures DropTags("'" + b) == "'" + DropTags(b)
  {
    hide DropTags;
    DropsHead("'" + b);
    assert ("'" + b)[1..] == b;
  }

  /** Before the place of the introducer both texts have the same tag at the start, and it ends before. */
  lemma SameHeadTag(a: string, w: string, gap: string, b: string)
    requires a != "" && forall i, j :: !TagAt(a + "'" + b, i, j, |a|)
    ensures TagLength(a + "_" + w + gap + "'" + b) == TagLength(a + "'" + b) <= |a|
  {
    hide TagLength;
    var x, t := a + "'" + b, a + "_" + w + gap + "'" + b;
    assert forall i | 0 <= i < |a| :: t[i] == x[i] == a[i];
    assert x[|a|] == '\'' && t[|a|] == '_';
    if TagLength(x) > 0 {
      var k := TagLength(x) - 1;
      var j :| TagAt(x, 0, j, k);
      assert k != |a| && !(k > |a|);
      assert TagAt(t, 0, j, k);
      TagIsFound(t, j, k);
    } else if TagLength(t) > 0 {
      var k := TagLength(t) - 1;
      var j :| TagAt(t, 0, j, k);
      assert !(k >= |a|);
      assert TagAt(x, 0, j, k);
      TagIsFound(x, j, k);
    }
  }

  /** An introducer before a quote that has none makes no difference; so a text that normalisation leaves
      alone comes back when one is written before any of its quotes, and before one quote after another. */
  lemma IntroducerVanishes(a: string, w: string, gap: string, b: string)
    requires w != "" && forall i | 0 <= i < |w| :: 'a' <= w[i] <= 'z' || '0' <= w[i] <= '9'
    requires forall i | 0 <= i < |gap| :: White(gap[i])
    requires Plain(a + "'" + b) && forall i, j :: !TagAt(a + "'" + b, i, j, |a|)
    ensures Normalize(a + "_" + w + gap + "'" + b) == Normalize(a + "'" + b)
    ensures Normal(a + "'" + b) ==> Normalize(a + "_" + w + gap + "'" + b) == a + "'" + b
  {
    hide Collapse, DropTags, Lower, DropBackquotes, Normal, Plain, TagAt;
    AllWhiteIsBlank(gap);
    TagIsDropped(a, w, gap, b);
    DressedIsPlain(a, w, gap, b);
    PlainIsKept(a + "_" + w + gap + "'" + b);
    PlainIsKept(a + "'" + b);
    UnchangedIffNormal(a + "'" + b);
  }

  /** What an unchanged text looks like, character by character: every white character is a single blank
      between two others, there is no back-quote and no capital, and no quote has an introducer. */
  lemma NormalMeans(s: string)
    ensures Normal(s) <==>
            && (forall i | 0 <= i < |s| && White(s[i]) :: s[i] == ' ' && 0 < i < |s| - 1 && s[i + 1] != ' ')
            && (forall i | 0 <= i < |s| :: s[i] != '`' && !('A' <= s[i] <= 'Z'))
            && (forall i, j, k :: !Introducer(s, i, j, k))
  {
    hide White, Introducer, TagAt, IsSpace, Tidy;
    forall i | 0 <= i < |s| ensures IsSpace(s[i]) <==> White(s[i]) { WhiteIsSpace(s[i]); }
    forall i, j, k ensures TagAt(s, i, j, k) <==> Introducer(s, i, j, k) { TagIsIntroducer(s, i, j, k); }
    BlankIsWhite();
    TidyMeans(s);
  }

  /** An underscore and small letters or digits, white space, and a quote. */
  predicate Introducer(s: string, i: int, j: int, k: int) {
    && 0 <= i && i + 1 < j <= k < |s| && s[i] == '_' && s[k] == '\''
    && (forall x | i < x < j :: 'a' <= s[x] <= 'z' || '0' <= s[x] <= '9')
    && (forall x | j <= x < k :: White(s[x]))
  }

  lemma TagIsIntroducer(s: string, i: int, j: int, k: int)
    ensures TagAt(s, i, j, k) <==> Introducer(s, i, j, k)
  {
    hide White;
    forall x | 0 <= x < |s| ensures IsSpace(s[x]) <==> White(s[x]) { WhiteIsSpace(s[x]); }
  }

  lemma BlankIsWhite()
    ensures White(' ')
  {
  }

  lemma TidyMeans(s: string)
    ensures Tidy(s) <==> forall i | 0 <= i < |s| && IsSpace(s[i]) :: s[i] == ' ' && 0 < i < |s| - 1 && s[i + 1] != ' '
  {
    if Tidy(s) {
      forall i | 0 <= i < |s| && IsSpace(s[i]) ensures s[i] == ' ' && 0 < i < |s| - 1 && s[i + 1] != ' ' {
        var n := i + 1;
        assert !(IsSpace(s[n - 1]) && IsSpace(s[n]));
      }
    }
  }

  lemma DressedIsPlain(a: string, w: string, gap: string, b: string)
    requires Plain(a + "'" + b) && (forall i | 0 <= i < |w| :: IsWord(w[i])) && Blank(gap)
    ensures Plain(a + "_" + w + gap + "'" + b)
  {
    var s := a + "'" + b;
    forall i | 0 <= i < |a| ensures a[i] != '`' && !('A' <= a[i] <= 'Z') { assert s[i] == a[i]; }
    forall i | 0 <= i < |b| ensures b[i] != '`' && !('A' <= b[i] <= 'Z') { assert s[|a| + 1 + i] == b[i]; }
    PlainConcat(a, "_");
    PlainConcat(a + "_", w);
    PlainConcat(a + "_" + w, gap);
    PlainConcat(a + "_" + w + gap, "'");
    PlainConcat(a + "_" + w + gap + "'", b);
  }

  lemma PlainConcat(a: string, b: string)
    requires Plain(a) && Plain(b)
    ensures Plain(a + b)
  {
  }

  // ---- Shapes ----

  /** Texts that normalise alike have the same shape, with the keyword dropped or not. */
  lemma SameNormalSameShape(s: string, t: string, keyword: bool)
    requires Normalize(s) == Normalize(t)
    ensures ShapeOf(s, keyword) == ShapeOf(t, keyword)
  {
    SameExpression(s, t, keyword);
  }

  /** A printed tree reads back however its text is written: in capitals, with back-quotes, spread over
      lines, with introducers, in any combination that normalises to the print. */
  lemma DressedPrintReads(t: Shape, text: string)
    requires Printable(t) && Normalize(text) == Print(t)
    ensures BooleanShape(text) == Compacted(t)
  {
    hide Printable, Normalize, Compacted, ShapeOf;
    PrintIsPhrase(t);
    NormalTrim(Print(t));
    SameNormalSameShape(text, Print(t), false);
    ShapeOfPrint(t);
  }

  /** What remains of an atom: its characters without the white space, in order. */
  function Dense(s: string): string {
    if s == "" then "" else (if IsSpace(s[0]) then "" else [s[0]]) + Dense(s[1..])
  }

  lemma {:induction false} DenseConcat(a: string, b: string)
    ensures Dense(a + b) == Dense(a) + Dense(b)
  {
    if a == "" {
      assert a + b == b;
    } else {
      assert (a + b)[1..] == a[1..] + b;
      DenseConcat(a[1..], b);
    }
  }

  lemma {:induction false} DenseOfSolid(s: string)
    requires Spaceless(s)
    ensures Dense(s) == s
  {
    if s != "" { DenseOfSolid(s[1..]); }
  }

  lemma {:induction false} DenseTrims(s: string)
    ensures Dense(TrimLeft(s)) == Dense(s)
  {
    if s != "" && IsSpace(s[0]) { DenseTrims(s[1..]); }
  }

  lemma {:induction false} CompactIsDense(s: string)
    ensures Compact(s) == Dense(s)
    decreases |s|
  {
    hide Dense, Spaceless;
    DenseTrims(s);
    var t := TrimLeft(s);
    if t == "" {
      assert Dense("") == "" by { DenseOfSolid(""); }
    } else {
      var n := Graph(t);
      var rest := t[n..];
      CompactIsDense(rest);
      assert t == t[..n] + rest;
      DenseConcat(t[..n], rest);
      SolidGraph(t);
      DenseOfSolid(t[..n]);
      JoinedFirst(t[..n], Words(rest));
    }
  }

  lemma SolidGraph(t: string)
    requires t != "" && !IsSpace(t[0])
    ensures Spaceless(t[..Graph(t)]) && Graph(t) > 0
  {
  }

  lemma JoinedFirst(w: string, ws: seq<string>)
    ensures Join([w] + ws, "") == w + Join(ws, "")
  {
    if ws != [] { assert ([w] + ws)[1..] == ws; } else { assert [w] + ws == [w]; }
  }

  /** The outbox reader's keyword: in front of a text without that word it changes nothing. */
  lemma KeywordIsDropped(s: string, text: string)
    requires Normal(s) && Free(s) && Normalize(text) in {"check" + s, "check " + s}
    ensures CheckShapeOf(text) == BooleanShape(s)
  {
    hide Normal, Free, ShapeOf, Strip, Normalize;
    NormalTrim(s);
    NoKeyword(s);
    AfterKeyword(s);
    SameExpression(text, s, true);
    ReadersAgree(s);
  }

  lemma AfterKeyword(s: string)
    requires Normal(s)
    ensures DropKeyword("check" + s, true) == s && DropKeyword("check " + s, true) == s
  {
    hide Normal, Normalize, Trim;
    NormalTrim(s);
    BlankFirst(s);
    assert "check " + s == "check" + (" " + s);
    KeywordFirst(s);
    KeywordFirst(" " + s);
  }

  lemma KeywordFirst(s: string)
    ensures DropKeyword("check" + s, true) == Trim(s)
  {
    hide Trim;
    assert ("check" + s)[5..] == s;
  }

  lemma BlankFirst(s: string)
    ensures Trim(" " + s) == Trim(s)
  {
    assert (" " + s)[1..] == s;
  }

  /** The smallest example: capitals keep their operator. */
  lemma CapitalsExample()
    ensures Normalize("A OR B") == "a or b"
  {
    hide Normalize;
    CapitalsNormal("a or b");
    assert forall i | 0 <= i < 6 :: Recased("A OR B"[i], "a or b"[i]);
    CaseVanishes("a or b", "A OR B");
  }

  lemma CapitalsNormal(s: string)
    requires s == "a or b"
    ensures Normal(s)
  {
    assert '_' !in s && '`' !in s;
    assert forall i | 0 <= i < |s| :: IsSpace(s[i]) <==> i in {1, 4};
  }
}
