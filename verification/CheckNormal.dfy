/** The normalisation every CHECK text passes before it is read: back-quotes dropped, lower case,
    character-set introducers removed, white space collapsed. */
module CheckNormal {

  /** ASCII white space as Python's str methods and \s see it. */
  predicate IsSpace(c: char) { c == ' ' || '\t' <= c <= '\r' || '\U{1C}' <= c <= '\U{1F}' }

  predicate IsWord(c: char) { 'a' <= c <= 'z' || '0' <= c <= '9' }

  function TrimLeft(s: string): (t: string)
    ensures |t| <= |s|
    ensures t != "" ==> !IsSpace(t[0])
    ensures s != "" && !IsSpace(s[0]) ==> t == s
  {
    if s != "" && IsSpace(s[0]) then TrimLeft(s[1..]) else s
  }

  function TrimRight(s: string): (t: string)
    ensures |t| <= |s|
    ensures t != "" ==> s != "" && t[0] == s[0] && !IsSpace(t[|t| - 1])
    ensures s != "" && !IsSpace(s[|s| - 1]) ==> t == s
  {
    if s != "" && IsSpace(s[|s| - 1]) then TrimRight(s[..|s| - 1]) else s
  }

  function Trim(s: string): (t: string)
    ensures |t| <= |s|
    ensures s == "" || (!IsSpace(s[0]) && !IsSpace(s[|s| - 1])) ==> t == s
    ensures t != "" ==> !IsSpace(t[0]) && !IsSpace(t[|t| - 1])
  {
    TrimRight(TrimLeft(s))
  }

  lemma {:induction false} TrimLeftIsSuffix(s: string)
    ensures TrimLeft(s) == s[|s| - |TrimLeft(s)|..]
  {
    if s != "" && IsSpace(s[0]) { TrimLeftIsSuffix(s[1..]); }
  }

  lemma {:induction false} TrimRightIsPrefix(s: string)
    ensures TrimRight(s) == s[..|TrimRight(s)|]
  {
    if s != "" && IsSpace(s[|s| - 1]) { TrimRightIsPrefix(s[..|s| - 1]); }
  }

  lemma TrimIsIdempotent(s: string)
    ensures Trim(Trim(s)) == Trim(s)
  {
  }

  // ---- The four passes ----

  function DropBackquotes(s: string): (t: string)
    ensures |t| <= |s|
    ensures '`' !in s ==> t == s
    ensures |t| == |s| ==> '`' !in s
  {
    if s == "" then "" else if s[0] == '`' then DropBackquotes(s[1..]) else [s[0]] + DropBackquotes(s[1..])
  }

  function LowerChar(c: char): char { if 'A' <= c <= 'Z' then (c as int - 'A' as int + 'a' as int) as char else c }

  function Lower(s: string): (t: string)
    ensures |t| == |s| && forall i | 0 <= i < |s| :: t[i] == LowerChar(s[i])
  {
    if s == "" then "" else [LowerChar(s[0])] + Lower(s[1..])
  }

  function WordRun(s: string): (n: nat)
    ensures n <= |s| && (forall i | 0 <= i < n :: IsWord(s[i])) && (n < |s| ==> !IsWord(s[n]))
  {
    if s != "" && IsWord(s[0]) then 1 + WordRun(s[1..]) else 0
  }

  function SpaceRun(s: string): (n: nat)
    ensures n <= |s| && (forall i | 0 <= i < n :: IsSpace(s[i])) && (n < |s| ==> !IsSpace(s[n]))
  {
    if s != "" && IsSpace(s[0]) then 1 + SpaceRun(s[1..]) else 0
  }

  /** The pattern _[a-z0-9]+\s*' matched at i: the word ends at j and the quote stands at k. */
  predicate TagAt(s: string, i: int, j: int, k: int) {
    && 0 <= i && i + 1 < j <= k < |s| && s[i] == '_' && s[k] == '\''
    && (forall x | i < x < j :: IsWord(s[x])) && (forall x | j <= x < k :: IsSpace(s[x]))
  }

  ghost predicate TagUpTo(s: string, k: int) { exists j :: TagAt(s, 0, j, k) }

  /** The length of the match at the start of s, or 0. */
  function TagLength(s: string): (n: nat)
    ensures n <= |s|
    ensures n > 0 ==> n > 2 && TagUpTo(s, n - 1)
  {
    if s == "" || s[0] != '_' then 0 else
    var j := 1 + WordRun(s[1..]);
    var k := j + SpaceRun(s[j..]);
    if j > 1 && k < |s| && s[k] == '\'' then
      assert forall x | 0 < x < j :: s[x] == s[1..][x - 1];
      assert forall x | j <= x < k :: s[x] == s[j..][x - j];
      assert TagAt(s, 0, j, k);
      k + 1
    else 0
  }

  lemma {:induction false} WordRunIs(s: string, n: nat)
    requires n <= |s| && (forall i | 0 <= i < n :: IsWord(s[i])) && (n < |s| ==> !IsWord(s[n]))
    ensures WordRun(s) == n
  {
    if n > 0 { WordRunIs(s[1..], n - 1); }
  }

  lemma {:induction false} SpaceRunIs(s: string, n: nat)
    requires n <= |s| && (forall i | 0 <= i < n :: IsSpace(s[i])) && (n < |s| ==> !IsSpace(s[n]))
    ensures SpaceRun(s) == n
  {
    if n > 0 { SpaceRunIs(s[1..], n - 1); }
  }

  lemma TagIsFound(s: string, j: int, k: int)
    requires TagAt(s, 0, j, k)
    ensures TagLength(s) == k + 1
  {
    forall i | 0 <= i < j - 1 ensures IsWord(s[1..][i]) { assert IsWord(s[i + 1]); }
    assert !IsWord(s[j]);
    WordRunIs(s[1..], j - 1);
    forall i | 0 <= i < k - j ensures IsSpace(s[j..][i]) { assert IsSpace(s[i + j]); }
    SpaceRunIs(s[j..], k - j);
  }

  function DropTags(s: string): (t: string)
    ensures |t| <= |s|
  {
    if s == "" then ""
    else if TagLength(s) > 0 then "'" + DropTags(s[TagLength(s)..])
    else [s[0]] + DropTags(s[1..])
  }

  function Words(s: string): seq<string>
    decreases |s|
  {
    var t := TrimLeft(s);
    if t == "" then [] else [t[..Graph(t)]] + Words(t[Graph(t)..])
  }

  /** The length of the leading run without white space. */
  function Graph(s: string): (n: nat)
    ensures n <= |s| && (forall i | 0 <= i < n :: !IsSpace(s[i])) && (n < |s| ==> IsSpace(s[n]))
  {
    if s != "" && !IsSpace(s[0]) then 1 + Graph(s[1..]) else 0
  }

  function Join(ws: seq<string>, sep: string): string {
    if ws == [] then "" else if |ws| == 1 then ws[0] else ws[0] + sep + Join(ws[1..], sep)
  }

  function Collapse(s: string): string { Join(Words(s), " ") }

  function Normalize(s: string): string { Collapse(DropTags(Lower(DropBackquotes(s)))) }

  // ---- The texts it leaves unchanged ----

  /** White space only as single blanks between other characters. */
  predicate Tidy(s: string) {
    && (forall i | 0 <= i < |s| && IsSpace(s[i]) :: s[i] == ' ' && 0 < i < |s| - 1)
    && (forall i | 0 < i < |s| :: !(IsSpace(s[i - 1]) && IsSpace(s[i])))
  }

  ghost predicate Untagged(s: string) { forall i, j, k :: !TagAt(s, i, j, k) }

  predicate Plain(s: string) { forall i | 0 <= i < |s| :: s[i] != '`' && !('A' <= s[i] <= 'Z') }

  ghost predicate Normal(s: string) { Tidy(s) && Untagged(s) && Plain(s) }

  lemma {:induction false} UntaggedIsKept(s: string)
    requires Untagged(s)
    ensures DropTags(s) == s
  {
    if s != "" {
      assert !TagUpTo(s, TagLength(s) - 1);
      forall i, j, k ensures !TagAt(s[1..], i, j, k) {
        if TagAt(s[1..], i, j, k) { TagShifts(s, 1, |s|, i, j, k); }
      }
      UntaggedIsKept(s[1..]);
    }
  }

  lemma TagShifts(s: string, a: nat, b: nat, i: int, j: int, k: int)
    requires a <= b <= |s| && TagAt(s[a..b], i, j, k)
    ensures TagAt(s, i + a, j + a, k + a)
  {
    var t := s[a..b];
    forall x | i + a < x < j + a ensures IsWord(s[x]) { assert s[x] == t[x - a]; }
    forall x | j + a <= x < k + a ensures IsSpace(s[x]) { assert s[x] == t[x - a]; }
  }

  lemma {:induction false} KeptIsUntagged(s: string)
    requires |DropTags(s)| == |s|
    ensures Untagged(s)
  {
    if s != "" {
      assert TagLength(s) == 0 && DropTags(s) == [s[0]] + DropTags(s[1..]);
      KeptIsUntagged(s[1..]);
      forall i, j, k ensures !TagAt(s, i, j, k) {
        if i == 0 { if TagAt(s, 0, j, k) { TagIsFound(s, j, k); } } else { TagDrops(s, i, j, k); }
      }
    }
  }

  lemma TagDrops(s: string, i: int, j: int, k: int)
    requires s != "" && i != 0
    ensures TagAt(s, i, j, k) ==> TagAt(s[1..], i - 1, j - 1, k - 1)
  {
  }

  predicate Spaceless(w: string) { forall i | 0 <= i < |w| :: !IsSpace(w[i]) }

  predicate AreWords(ws: seq<string>) { forall k | 0 <= k < |ws| :: ws[k] != "" && Spaceless(ws[k]) }

  lemma {:induction false} GraphIs(s: string, n: nat)
    requires n <= |s| && Spaceless(s[..n]) && (n < |s| ==> IsSpace(s[n]))
    ensures Graph(s) == n
    ensures n > 0 ==> !IsSpace(s[0])
  {
    if n > 0 {
      assert s[..n][0] == s[0];
      assert s[..n][1..] == s[1..][..n - 1];
      GraphIs(s[1..], n - 1);
    }
  }

  lemma FirstWord(s: string, n: nat)
    requires 0 < n < |s| && Spaceless(s[..n]) && IsSpace(s[n])
    ensures Words(s) == [s[..n]] + Words(s[n + 1..])
  {
    hide Spaceless;
    GraphIs(s, n);
    assert s[n..][1..] == s[n + 1..];
    assert TrimLeft(s[n..]) == TrimLeft(s[n + 1..]);
  }

  lemma {:induction false} WordsAreWords(s: string)
    ensures AreWords(Words(s))
    decreases |s|
  {
    var t := TrimLeft(s);
    if t != "" { WordsAreWords(t[Graph(t)..]); }
  }

  /** Collapsing drops leading white space, keeps the first word, and puts one blank before the
      collapsed rest unless that is empty. */
  lemma CollapseUnfolds(s: string) returns (t: string, n: nat)
    ensures t == TrimLeft(s) && n == Graph(t)
    ensures n == |t| ==> Collapse(s) == t
    ensures n < |t| && Collapse(t[n + 1..]) == "" ==> Collapse(s) == t[..n]
    ensures n < |t| && Collapse(t[n + 1..]) != "" ==> Collapse(s) == t[..n] + " " + Collapse(t[n + 1..])
    ensures n < |t| ==> n > 0 && IsSpace(t[n]) && |t[n + 1..]| < |s|
    ensures Spaceless(t[..n])
  {
    hide *;
    t := TrimLeft(s);
    n := Graph(t);
    FirstGraph(s, t, n);
    TrimmedWords(s);
    SameWords(s, t);
    if n < |t| {
      CollapseWord(t, n);
    } else {
      assert t[..n] == t;
      OnlyWord(t);
    }
  }

  lemma FirstGraph(s: string, t: string, n: nat)
    requires t == TrimLeft(s) && n == Graph(t)
    ensures n <= |t| <= |s| && Spaceless(t[..n]) && (n < |t| ==> n > 0 && IsSpace(t[n]))
  {
    if t != "" { assert !IsSpace(t[0]); }
  }

  lemma SameWords(s: string, t: string)
    requires Words(s) == Words(t)
    ensures Collapse(s) == Collapse(t)
  {
  }

  lemma CollapseWord(t: string, n: nat)
    requires 0 < n < |t| && Spaceless(t[..n]) && IsSpace(t[n])
    ensures Collapse(t) == if Collapse(t[n + 1..]) == "" then t[..n] else t[..n] + " " + Collapse(t[n + 1..])
  {
    hide Words, Join, Spaceless, IsSpace;
    FirstWord(t, n);
    WordsAreWords(t[n + 1..]);
    FirstJoined(t[..n], Words(t[n + 1..]));
  }

  lemma TrimmedWords(s: string)
    ensures Words(s) == Words(TrimLeft(s))
    ensures TrimLeft(s) == "" ==> Words(s) == []
  {
    assert TrimLeft(TrimLeft(s)) == TrimLeft(s);
  }

  lemma OnlyWord(t: string)
    requires Graph(t) == |t|
    ensures Collapse(t) == t
  {
    if t == "" { return; }
    assert !IsSpace(t[0]);
    assert t[|t|..] == "" && t[..|t|] == t;
    assert Words("") == [];
  }

  lemma FirstJoined(w: string, ws: seq<string>)
    requires AreWords(ws)
    ensures Join([], " ") == ""
    ensures Join([w] + ws, " ") == if ws == [] then w else w + " " + Join(ws, " ")
    ensures Join(ws, " ") == "" <==> ws == []
    ensures [w] + [] == [w]
  {
    if ws != [] { assert ([w] + ws)[1..] == ws; }
  }

  lemma {:induction false} TidyIsKept(s: string)
    requires Tidy(s)
    ensures Collapse(s) == s
    decreases |s|
  {
    hide Collapse;
    var t, n := CollapseUnfolds(s);
    assert t == s;
    if n < |s| {
      assert !IsSpace(s[n + 1]);
      TidyRest(s, n + 1);
      TidyIsKept(s[n + 1..]);
      assert s == s[..n] + " " + s[n + 1..];
    }
  }

  lemma TidyRest(s: string, n: nat)
    requires Tidy(s) && n < |s| && !IsSpace(s[n])
    ensures Tidy(s[n..])
  {
    forall i | 0 <= i < |s| - n
      ensures IsSpace(s[n..][i]) ==> s[n..][i] == ' ' && 0 < i < |s| - n - 1
      ensures 0 < i ==> !(IsSpace(s[n..][i - 1]) && IsSpace(s[n..][i]))
    {
      if 0 < i { assert s[n..][i - 1] == s[n + i - 1]; }
    }
  }

  lemma {:induction false} JoinedIsTidy(ws: seq<string>)
    requires AreWords(ws)
    ensures Tidy(Join(ws, " "))
    ensures ws != [] ==> Join(ws, " ") != "" && !IsSpace(Join(ws, " ")[0])
  {
    if |ws| > 1 {
      JoinedIsTidy(ws[1..]);
      TidyPair(ws[0], Join(ws[1..], " "));
    }
  }

  lemma TidyPair(w: string, rest: string)
    requires w != "" && Spaceless(w) && rest != "" && !IsSpace(rest[0]) && Tidy(rest)
    ensures Tidy(w + " " + rest)
  {
    var t := w + " " + rest;
    forall i | 0 <= i < |t|
      ensures IsSpace(t[i]) ==> t[i] == ' ' && 0 < i < |t| - 1
      ensures 0 < i ==> !(IsSpace(t[i - 1]) && IsSpace(t[i]))
    {
      if i > |w| {
        assert t[i] == rest[i - |w| - 1];
        if i > |w| + 1 { assert t[i - 1] == rest[i - |w| - 2]; }
      } else if i > 0 {
        assert t[i - 1] == w[i - 1];
      }
    }
  }

  /** Normalisation leaves a text unchanged exactly when it is Normal, a condition that can be read
      off character by character. */
  lemma UnchangedIffNormal(s: string)
    ensures Normalize(s) == s <==> Normal(s)
  {
    if Normal(s) {
      PlainIsKept(s);
      UntaggedIsKept(s);
      TidyIsKept(s);
    }
    if Normalize(s) == s { UnchangedIsNormal(s); }
  }

  lemma PlainIsKept(s: string)
    requires Plain(s)
    ensures Lower(DropBackquotes(s)) == s
  {
    assert '`' !in s;
  }

  lemma {:induction false} CollapseShortens(s: string)
    ensures |Collapse(s)| <= |s|
    decreases |s|
  {
    hide Collapse;
    var t, n := CollapseUnfolds(s);
    if n < |t| { CollapseShortens(t[n + 1..]); }
  }

  /** The recursion of the shape readers, which normalise every part again, is on shorter texts. */
  lemma NormalizeShortens(s: string)
    ensures |Normalize(s)| <= |s|
  {
    CollapseShortens(DropTags(Lower(DropBackquotes(s))));
  }

  lemma UnchangedIsNormal(s: string)
    requires Normalize(s) == s
    ensures Normal(s)
  {
    hide Words, Join, TagLength, Tidy;
    var b := DropBackquotes(s);
    var l := Lower(b);
    var t := DropTags(l);
    CollapseShortens(t);
    assert b == s;
    KeptIsUntagged(l);
    UntaggedIsKept(l);
    WordsAreWords(l);
    JoinedIsTidy(Words(l));
    CollapseKeepsPlain(l);
    PlainIsKept(s);
  }

  lemma PlainParts(s: string, m: nat, n: nat)
    requires Plain(s) && m + n <= |s|
    ensures Plain(s[m..]) && Plain(s[m..][..n]) && (m + n < |s| ==> Plain(s[m..][n + 1..]))
  {
  }

  lemma {:induction false} CollapseKeepsPlain(s: string)
    requires Plain(s)
    ensures Plain(Collapse(s))
    decreases |s|
  {
    hide Collapse;
    var t, n := CollapseUnfolds(s);
    TrimLeftIsSuffix(s);
    PlainParts(s, |s| - |t|, n);
    if n < |t| { CollapseKeepsPlain(t[n + 1..]); }
  }

  lemma NormalSlice(s: string, a: nat, b: nat)
    requires Normal(s) && a <= b <= |s| && (a < b ==> !IsSpace(s[a]) && !IsSpace(s[b - 1]))
    ensures Normal(s[a..b])
  {
    var t := s[a..b];
    assert Tidy(t) by {
      forall x | 0 <= x < |t|
        ensures IsSpace(t[x]) ==> t[x] == ' ' && 0 < x < |t| - 1
        ensures 0 < x ==> !(IsSpace(t[x - 1]) && IsSpace(t[x]))
      {
        assert t[x] == s[a + x];
        if x > 0 { assert t[x - 1] == s[a + x - 1]; }
      }
    }
    forall i, j, k ensures !TagAt(t, i, j, k) {
      if TagAt(t, i, j, k) { TagShifts(s, a, b, i, j, k); assert false; }
    }
  }

  /** Trimmed substrings of an unchanged text are unchanged. */
  lemma NormalSubstring(s: string, i: nat, j: nat)
    requires Normal(s) && i <= j <= |s|
    ensures Normal(Trim(s[i..j]))
  {
    hide Normal, TrimLeft, TrimRight;
    var l := TrimLeft(s[i..j]);
    var t := TrimRight(l);
    TrimLeftIsSuffix(s[i..j]);
    TrimRightIsPrefix(l);
    var a := j - |l|;
    assert l == s[a..j];
    assert t == s[a..a + |t|];
    NormalSlice(s, a, a + |t|);
  }
}
