/** The two migrations' readers compared: their normalisation, and the keyword only one of them drops. */
module CheckReaders {
  import opened CheckNormal
  import opened CheckText
  import opened CheckShape

  // ---- Normalisation ----

  /** `_normalized_sql` of the outbox migration: trim first, and lower before dropping back-quotes. */
  function NormalizeSql(s: string): string { Collapse(DropTags(DropBackquotes(Lower(Trim(s))))) }

  lemma {:induction false} LowerCommutes(s: string)
    ensures DropBackquotes(Lower(s)) == Lower(DropBackquotes(s))
  {
    if s != "" {
      LowerCommutes(s[1..]);
      assert Lower(s)[1..] == Lower(s[1..]);
    }
  }

  lemma {:induction false} LowerConcat(a: string, b: string)
    ensures Lower(a + b) == Lower(a) + Lower(b)
  {
  }

  lemma {:induction false} DropBackquotesConcat(a: string, b: string)
    ensures DropBackquotes(a + b) == DropBackquotes(a) + DropBackquotes(b)
  {
    if a == "" {
      assert a + b == b;
    } else {
      assert (a + b)[1..] == a[1..] + b;
      DropBackquotesConcat(a[1..], b);
    }
  }

  lemma SpaceIsKept(c: char)
    requires IsSpace(c)
    ensures Lower(DropBackquotes([c])) == [c]
  {
    assert [c][1..] == "";
    assert DropBackquotes([c]) == [c] + DropBackquotes("");
  }

  /** A white space behind a text is in none of its tags. */
  lemma TagBefore(s: string, c: char)
    requires IsSpace(c)
    ensures TagLength(s + [c]) == TagLength(s)
  {
    hide TagAt, TagLength;
    var t := s + [c];
    if TagLength(s) > 0 {
      var k := TagLength(s) - 1;
      var j :| TagAt(s, 0, j, k);
      TagWidens(s, c, j, k);
      TagIsFound(t, j, k);
    } else if TagLength(t) > 0 {
      var k := TagLength(t) - 1;
      var j :| TagAt(t, 0, j, k);
      TagNarrows(s, c, j, k);
      TagIsFound(s, j, k);
      assert false;
    }
  }

  lemma TagWidens(s: string, c: char, j: int, k: int)
    requires TagAt(s, 0, j, k)
    ensures TagAt(s + [c], 0, j, k)
  {
  }

  lemma TagNarrows(s: string, c: char, j: int, k: int)
    requires IsSpace(c) && TagAt(s + [c], 0, j, k)
    ensures TagAt(s, 0, j, k)
  {
    assert forall x | 0 <= x < |s| :: (s + [c])[x] == s[x];
    assert (s + [c])[|s|] == c;
  }

  lemma {:induction false} DropTagsBefore(s: string, c: char)
    requires IsSpace(c)
    ensures DropTags(s + [c]) == DropTags(s) + [c]
    decreases |s|
  {
    hide TagLength, IsSpace;
    var t := s + [c];
    TagBefore(s, c);
    if s == "" {
      SpaceHasNoTag(c);
      assert t == [c] && t[1..] == "";
      assert DropTags("") == "";
    } else if TagLength(s) > 0 {
      assert t[TagLength(s)..] == s[TagLength(s)..] + [c];
      DropTagsBefore(s[TagLength(s)..], c);
    } else {
      assert t[1..] == s[1..] + [c];
      DropTagsBefore(s[1..], c);
    }
  }

  lemma SpaceHasNoTag(c: char)
    requires IsSpace(c)
    ensures TagLength([c]) == 0
  {
  }

  lemma DropTagsBehind(s: string, c: char)
    requires IsSpace(c)
    ensures DropTags([c] + s) == [c] + DropTags(s)
  {
    var t := [c] + s;
    assert t[1..] == s && t[0] == c && c != '_';
    assert TagLength(t) == 0;
  }

  lemma {:induction false} WordsBefore(s: string, c: char)
    requires IsSpace(c)
    ensures Collapse(s + [c]) == Collapse(s)
    decreases |s|
  {
    hide Collapse, Words;
    var t := TrimLeft(s);
    var n := Graph(t);
    if t == "" {
      AllSpace(s, c);
    } else if n < |t| {
      CollapseWord(t, n);
      assert (t + [c])[..n] == t[..n] && (t + [c])[n + 1..] == t[n + 1..] + [c];
      CollapseWord(t + [c], n);
      WordsBefore(t[n + 1..], c);
      TrimmedBefore(s, c);
    } else {
      OnlyWord(t);
      TrimmedBefore(s, c);
      assert (t + [c])[..n] == t && (t + [c])[n + 1..] == "";
      CollapseWord(t + [c], n);
      NothingCollapses();
    }
  }

  lemma NothingCollapses()
    ensures Collapse("") == ""
  {
  }

  lemma TrimmedBefore(s: string, c: char)
    requires IsSpace(c) && TrimLeft(s) != ""
    ensures Collapse(s) == Collapse(TrimLeft(s))
    ensures Collapse(s + [c]) == Collapse(TrimLeft(s) + [c])
    ensures Spaceless(TrimLeft(s)[..Graph(TrimLeft(s))]) && Graph(TrimLeft(s)) > 0
  {
    hide Collapse, Words;
    TrimmedWords(s);
    SameWords(s, TrimLeft(s));
    TrimLeftBefore(s, c);
    TrimmedWords(s + [c]);
    TrimmedWords(TrimLeft(s) + [c]);
    SameWords(s + [c], TrimLeft(s) + [c]);
  }

  lemma {:induction false} TrimLeftBefore(s: string, c: char)
    requires TrimLeft(s) != ""
    ensures TrimLeft(s + [c]) == TrimLeft(s) + [c]
    ensures TrimLeft(TrimLeft(s) + [c]) == TrimLeft(s) + [c]
  {
    if IsSpace(s[0]) {
      assert (s + [c])[1..] == s[1..] + [c];
      TrimLeftBefore(s[1..], c);
    }
  }

  lemma {:induction false} AllSpace(s: string, c: char)
    requires IsSpace(c) && TrimLeft(s) == ""
    ensures Collapse(s) == "" && Collapse(s + [c]) == ""
  {
    hide Collapse, Words;
    AllTrimmed(s, c);
    TrimmedWords(s);
    TrimmedWords(s + [c]);
    NoWords(s);
    NoWords(s + [c]);
  }

  lemma {:induction false} AllTrimmed(s: string, c: char)
    requires IsSpace(c) && TrimLeft(s) == ""
    ensures TrimLeft(s + [c]) == ""
  {
    if s != "" {
      assert (s + [c])[1..] == s[1..] + [c];
      AllTrimmed(s[1..], c);
    } else {
      assert (s + [c])[1..] == "";
    }
  }

  lemma NoWords(s: string)
    requires Words(s) == []
    ensures Collapse(s) == ""
  {
  }

  lemma NormalizeBefore(s: string, c: char)
    requires IsSpace(c)
    ensures Normalize(s + [c]) == Normalize(s)
  {
    hide IsSpace, Collapse, DropTags, Lower, DropBackquotes;
    DropBackquotesConcat(s, [c]);
    LowerConcat(DropBackquotes(s), DropBackquotes([c]));
    SpaceIsKept(c);
    DropTagsBefore(Lower(DropBackquotes(s)), c);
    WordsBefore(DropTags(Lower(DropBackquotes(s))), c);
  }

  lemma NormalizeBehind(s: string, c: char)
    requires IsSpace(c)
    ensures Normalize([c] + s) == Normalize(s)
  {
    hide IsSpace, Collapse, DropTags, Lower, DropBackquotes;
    DropBackquotesConcat([c], s);
    LowerConcat(DropBackquotes([c]), DropBackquotes(s));
    SpaceIsKept(c);
    var x := Lower(DropBackquotes(s));
    DropTagsBehind(x, c);
    CollapseBehind(DropTags(x), c);
  }

  lemma CollapseBehind(s: string, c: char)
    requires IsSpace(c)
    ensures Collapse([c] + s) == Collapse(s)
  {
    hide Collapse, Words;
    assert ([c] + s)[1..] == s;
    TrimmedWords(s);
    TrimmedWords([c] + s);
    SameWords([c] + s, s);
  }

  lemma {:induction false} NormalizeLeft(s: string)
    ensures Normalize(TrimLeft(s)) == Normalize(s)
  {
    hide Normalize, IsSpace;
    if s != "" && IsSpace(s[0]) {
      NormalizeLeft(s[1..]);
      assert s == [s[0]] + s[1..];
      NormalizeBehind(s[1..], s[0]);
    }
  }

  lemma {:induction false} NormalizeRight(s: string)
    ensures Normalize(TrimRight(s)) == Normalize(s)
  {
    hide Normalize, IsSpace;
    if s != "" && IsSpace(s[|s| - 1]) {
      NormalizeRight(s[..|s| - 1]);
      assert s == s[..|s| - 1] + [s[|s| - 1]];
      NormalizeBefore(s[..|s| - 1], s[|s| - 1]);
    }
  }

  /** The two migrations normalise every text alike. */
  lemma NormalisationsAgree(s: string)
    ensures NormalizeSql(s) == Normalize(s)
  {
    hide Collapse, DropTags, Lower, DropBackquotes, TrimLeft, TrimRight;
    LowerCommutes(Trim(s));
    NormalizeRight(TrimLeft(s));
    NormalizeLeft(s);
  }

  /** One pass of the tag rewriting, from a tag at i whose quote is the last character. */
  lemma {:induction false} LastTag(s: string, i: nat, j: nat)
    requires i < |s| && TagAt(s, i, j, |s| - 1) && forall x | 0 <= x < i :: s[x] != '_' || !TagFrom(s, x)
    ensures DropTags(s) == s[..i] + "'"
  {
    hide *;
    DropTagsUnfolds(s);
    if i == 0 {
      TagIsFound(s, j, |s| - 1);
      assert s[|s|..] == "";
    } else {
      TagFromStart(s);
      TagInRest(s, i, j);
      forall x | 0 <= x < i - 1 ensures s[1..][x] != '_' || !TagFrom(s[1..], x) { TagFromRest(s, x); }
      LastTag(s[1..], i - 1, j - 1);
      assert s[..i] == [s[0]] + s[1..][..i - 1];
    }
  }

  lemma DropTagsUnfolds(s: string)
    requires s != ""
    ensures DropTags("") == ""
    ensures DropTags(s) == if TagLength(s) > 0 then "'" + DropTags(s[TagLength(s)..]) else [s[0]] + DropTags(s[1..])
  {
    hide TagLength;
  }

  ghost predicate TagFrom(s: string, i: int) { exists j, k :: TagAt(s, i, j, k) }

  lemma TagFromStart(s: string)
    requires s != "" && (s[0] != '_' || !TagFrom(s, 0))
    ensures TagLength(s) == 0
  {
    FoundTag(s);
  }

  lemma FoundTag(s: string)
    ensures TagLength(s) > 0 ==> s[0] == '_' && TagFrom(s, 0)
  {
    if TagLength(s) > 0 {
      var j :| TagAt(s, 0, j, TagLength(s) - 1);
    }
  }

  lemma TagInRest(s: string, i: int, j: int)
    requires i > 0 && s != "" && TagAt(s, i, j, |s| - 1)
    ensures TagAt(s[1..], i - 1, j - 1, |s| - 2)
  {
  }

  lemma TagFromRest(s: string, x: int)
    requires s != "" && 0 <= x < |s| - 1 && (s[x + 1] != '_' || !TagFrom(s, x + 1))
    ensures s[1..][x] != '_' || !TagFrom(s[1..], x)
  {
    if TagFrom(s[1..], x) {
      var j, k :| TagAt(s[1..], x, j, k);
      TagShifts(s, 1, |s|, x, j, k);
    }
  }

  /** Normalising is not idempotent: each pass over 'a_b_c' eats one more segment of the literal. */
  lemma NormalizeIsNotIdempotent()
    ensures Normalize("'a_b_c'") == "'a_b'" && Normalize("'a_b'") == "'a'"
  {
    hide *;
    FirstPass("'a_b_c'");
    SecondPass("'a_b'");
    PlainLiterals();
    PlainIsKept("'a_b_c'");
    PlainIsKept("'a_b'");
    TidyIsKept("'a_b'");
    TidyIsKept("'a'");
    NormalizeIs("'a_b_c'");
    NormalizeIs("'a_b'");
  }

  lemma NormalizeIs(s: string)
    ensures Normalize(s) == Collapse(DropTags(Lower(DropBackquotes(s))))
  {
  }

  lemma PlainLiterals()
    ensures Plain("'a_b_c'") && Plain("'a_b'") && Tidy("'a_b'") && Tidy("'a'")
  {
    hide Tidy, Plain;
    SpacelessIsTidy("'a_b'");
    SpacelessIsTidy("'a'");
    LiteralsArePlain();
  }

  lemma LiteralsArePlain()
    ensures Plain("'a_b_c'") && Plain("'a_b'")
  {
  }

  lemma SpacelessIsTidy(s: string)
    requires s in {"'a_b'", "'a'"}
    ensures Tidy(s)
  {
    assert Spaceless(s);
  }

  lemma FirstPass(s: string)
    requires s == "'a_b_c'"
    ensures DropTags(s) == "'a_b'"
  {
    hide DropTags, TagLength;
    assert TagAt(s, 4, 6, 6);
    forall j, k ensures !TagAt(s, 2, j, k) { assert !IsWord(s[4]) && !IsSpace(s[3]) && s[4] != '\''; }
    assert !TagFrom(s, 2);
    LastTag(s, 4, 6);
    assert s[..4] + "'" == "'a_b'";
  }

  lemma SecondPass(s: string)
    requires s == "'a_b'"
    ensures DropTags(s) == "'a'"
  {
    hide DropTags, TagLength;
    assert TagAt(s, 2, 4, 4);
    LastTag(s, 2, 4);
    assert s[..2] + "'" == "'a'";
  }

  // ---- The keyword ----

  /** `_check_shape` of the outbox migration. */
  function CheckShapeOf(sqltext: string): Shape { ShapeOf(sqltext, true) }

  ghost predicate Free(s: string) { forall i: nat :: !OccursAt(s, "check", i) }

  lemma FreeSlice(s: string, a: nat, b: nat)
    requires Free(s) && a <= b <= |s|
    ensures Free(s[a..b])
  {
    forall i: nat ensures !OccursAt(s[a..b], "check", i) {
      assert !OccursAt(s, "check", a + i);
      if i + |"check"| <= b - a { SliceOfSlice(s, a, b, i, |"check"|); }
    }
  }

  lemma SliceOfSlice(s: string, a: nat, b: nat, i: nat, n: nat)
    requires a <= b <= |s| && i + n <= b - a
    ensures s[a..b][i..i + n] == s[a + i..a + i + n]
  {
    var t, u := s[a..b][i..i + n], s[a + i..a + i + n];
    forall k | 0 <= k < n ensures t[k] == u[k] { assert s[a..b][i + k] == s[a + i + k]; }
  }

  lemma {:induction false} FreePieces(s: string, op: string)
    requires Free(s) && IsOperator(op)
    ensures forall k | 0 <= k < |Pieces(s, op)| :: Free(Pieces(s, op)[k])
    decreases |s|
  {
    hide Free, IsOperator, Pieces, FirstTop;
    IsNonempty(op);
    var i := FirstTop(s, op, 0);
    PiecesUnfold(s, op, i);
    if i < |s| {
      assert s[..i] == s[0..i] && s[i + |op|..] == s[i + |op|..|s|];
      FreeSlice(s, 0, i);
      FreeSlice(s, i + |op|, |s|);
      FreePieces(s[i + |op|..], op);
    }
  }

  lemma {:induction false} FreeStrip(s: string)
    requires Normal(s) && Free(s)
    ensures Normal(Strip(s)) && Free(Strip(s))
    decreases |s|
  {
    hide Normal, Free, Strip, Enclosed, Trim, TrimLeft, TrimRight;
    NormalTrim(s);
    StripUnfolds(s, s);
    if Enclosed(s) {
      EnclosedEnds(s);
      NormalSubstring(s, 1, |s| - 1);
      FreeTrim(s, 1, |s| - 1);
      FreeStrip(Trim(s[1..|s| - 1]));
    }
  }

  lemma FreeTrim(s: string, i: nat, j: nat)
    requires Free(s) && i <= j <= |s|
    ensures Free(Trim(s[i..j])) && |Trim(s[i..j])| <= j - i
  {
    hide Free, TrimLeft, TrimRight;
    var l := TrimLeft(s[i..j]);
    var t := TrimRight(l);
    TrimLeftIsSuffix(s[i..j]);
    TrimRightIsPrefix(l);
    SliceOfSlice(s, i, j, j - i - |l|, |l|);
    FreeSlice(s, j - |l|, j);
    assert t == l[0..|t|];
    FreeSlice(l, 0, |t|);
  }

  /** On normal text in which the word "check" never occurs the two readers take the same shape. */
  lemma {:induction false} ReadersAgree(s: string)
    requires Normal(s) && Free(s)
    ensures CheckShapeOf(s) == BooleanShape(s)
    decreases |s|
  {
    hide Normal, Free, Strip, Pieces, Trim, TrimLeft, TrimRight, Normalize, Compact, ShapesOf, Trimmed;
    OperatorsAreOperators();
    NormalTrim(s);
    NoKeyword(s);
    FreeStrip(s);
    var e := Strip(s);
    assert Expression(s, true) == e && Expression(s, false) == e;
    NormalPieces(e, OR);
    NormalPieces(e, AND);
    PartsAreShorter(e, OR);
    PartsAreShorter(e, AND);
    if |Pieces(e, OR)| > 1 {
      PartsAgree(e, OR, |s|);
    } else if |Pieces(e, AND)| > 1 {
      PartsAgree(e, AND, |s|);
    }
  }

  lemma NoKeyword(s: string)
    requires Free(s)
    ensures DropKeyword(s, true) == s
  {
    assert !OccursAt(s, "check", 0);
  }

  lemma {:induction false} PartsAgree(e: string, op: string, bound: nat)
    requires Normal(e) && Free(e) && IsOperator(op) && |e| <= bound && |Pieces(e, op)| > 1
    requires forall k | 0 <= k < |Pieces(e, op)| :: |Pieces(e, op)[k]| < |e|
    ensures ShapesOf(Pieces(e, op), bound, true) == ShapesOf(Pieces(e, op), bound, false)
    decreases |e|, 0
  {
    hide Normal, Free, Pieces, ShapesOf, ShapeOf, IsOperator, CheckShapeOf, BooleanShape;
    var ps := Pieces(e, op);
    NormalPieces(e, op);
    FreePieces(e, op);
    forall k | 0 <= k < |ps| ensures CheckShapeOf(ps[k]) == BooleanShape(ps[k]) { ReadersAgree(ps[k]); }
    EachAgrees(ps, bound);
  }

  lemma EachAgrees(ps: seq<string>, bound: nat)
    requires forall k | 0 <= k < |ps| :: |ps[k]| < bound
    requires forall k | 0 <= k < |ps| :: CheckShapeOf(ps[k]) == BooleanShape(ps[k])
    ensures ShapesOf(ps, bound, true) == ShapesOf(ps, bound, false)
  {
    hide ShapesOf, ShapeOf;
    ShapesAreEach(ps, bound, true);
    ShapesAreEach(ps, bound, false);
    var x, y := ShapesOf(ps, bound, true), ShapesOf(ps, bound, false);
    forall k | 0 <= k < |ps| ensures x[k] == y[k] { assert CheckShapeOf(ps[k]) == BooleanShape(ps[k]); }
  }
}
