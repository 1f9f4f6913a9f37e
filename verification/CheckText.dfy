/** The character scanner shared by the CHECK readers: a parenthesis depth and a quote flag, and on
    top of it the removal of enclosing parentheses and the cut at top-level operators. */
module CheckText {
  import opened CheckNormal

  // ---- Scanning ----

  datatype Scan = Scan(depth: int, quoted: bool)

  const START := Scan(0, false)

  function Step(st: Scan, c: char): Scan {
    if c == '\'' then st.(quoted := !st.quoted)
    else if st.quoted then st
    else if c == '(' then st.(depth := st.depth + 1)
    else if c == ')' then st.(depth := st.depth - 1)
    else st
  }

  function After(st: Scan, s: string): Scan {
    if s == "" then st else Step(After(st, s[..|s| - 1]), s[|s| - 1])
  }

  function At(s: string, i: nat): Scan
    requires i <= |s|
  {
    After(START, s[..i])
  }

  lemma {:induction false} AfterConcat(st: Scan, a: string, b: string)
    ensures After(st, a + b) == After(After(st, a), b)
  {
    if b == "" {
      assert a + b == a;
    } else {
      assert (a + b)[..|a + b| - 1] == a + b[..|b| - 1];
      AfterConcat(st, a, b[..|b| - 1]);
    }
  }

  /** Inside more parentheses the scan differs by a constant depth only. */
  lemma {:induction false} AfterDeeper(d: int, st: Scan, s: string)
    ensures After(st.(depth := st.depth + d), s) == After(st, s).(depth := After(st, s).depth + d)
  {
    if s != "" { AfterDeeper(d, st, s[..|s| - 1]); }
  }

  lemma AtStep(s: string, i: nat)
    requires i < |s|
    ensures At(s, i + 1) == Step(At(s, i), s[i])
  {
    assert s[..i + 1][..i] == s[..i];
  }

  lemma AtNext(s: string, i: nat, depth: int, quoted: bool)
    requires i < |s| && At(s, i) == Scan(depth, quoted)
    ensures s[i] == '\'' ==> At(s, i + 1) == Scan(depth, !quoted)
    ensures s[i] == '(' && !quoted ==> At(s, i + 1) == Scan(depth + 1, quoted)
    ensures s[i] == ')' && !quoted ==> At(s, i + 1) == Scan(depth - 1, quoted)
    ensures s[i] != '\'' && (quoted || (s[i] != '(' && s[i] != ')')) ==> At(s, i + 1) == At(s, i)
  {
    AtStep(s, i);
  }

  lemma AtConcat(a: string, b: string, i: nat)
    requires i <= |a| + |b|
    ensures At(a + b, i) == if i <= |a| then At(a, i) else After(After(START, a), b[..i - |a|])
  {
    if i <= |a| {
      assert (a + b)[..i] == a[..i];
    } else {
      assert (a + b)[..i] == a + b[..i - |a|];
      AfterConcat(START, a, b[..i - |a|]);
    }
  }

  // ---- What the scan counts ----

  function QuotesBefore(s: string, i: nat): set<nat>
    requires i <= |s|
  {
    set k: nat | k < i && s[k] == '\''
  }

  /** Behind an even number of quotes. */
  predicate Outside(s: string, i: nat)
    requires i <= |s|
  {
    |QuotesBefore(s, i)| % 2 == 0
  }

  function Unquoted(s: string, c: char, i: nat): set<nat>
    requires i <= |s|
  {
    set k: nat | k < i && s[k] == c && Outside(s, k)
  }

  lemma QuotesNext(s: string, i: nat)
    requires i < |s|
    ensures QuotesBefore(s, i + 1) == QuotesBefore(s, i) + if s[i] == '\'' then {i} else {}
    ensures |QuotesBefore(s, i + 1)| == |QuotesBefore(s, i)| + if s[i] == '\'' then 1 else 0
  {
  }

  lemma UnquotedNext(s: string, c: char, i: nat)
    requires i < |s|
    ensures Unquoted(s, c, i + 1) == Unquoted(s, c, i) + if s[i] == c && Outside(s, i) then {i} else {}
    ensures |Unquoted(s, c, i + 1)| == |Unquoted(s, c, i)| + if s[i] == c && Outside(s, i) then 1 else 0
  {
    hide Outside;
  }

  /** The flag is the parity of the quotes before, and the depth the opening parentheses outside quotes less
      the closing ones. */
  lemma {:induction false} ScanCounts(s: string, i: nat)
    requires i <= |s|
    ensures At(s, i).quoted <==> |QuotesBefore(s, i)| % 2 == 1
    ensures At(s, i).depth == |Unquoted(s, '(', i)| - |Unquoted(s, ')', i)|
  {
    hide At, QuotesBefore, Unquoted, Outside, Step;
    if i == 0 {
      CountsNone(s);
    } else {
      ScanCounts(s, i - 1);
      OutsideIs(s, i - 1);
      QuotesNext(s, i - 1);
      UnquotedNext(s, '(', i - 1);
      UnquotedNext(s, ')', i - 1);
      AtStep(s, i - 1);
      StepCounts(At(s, i - 1), s[i - 1], |QuotesBefore(s, i - 1)|);
    }
  }

  lemma StepCounts(st: Scan, c: char, quotes: nat)
    requires st.quoted <==> quotes % 2 == 1
    ensures Step(st, c).quoted <==> (quotes + if c == '\'' then 1 else 0) % 2 == 1
    ensures Step(st, c).depth == st.depth + if quotes % 2 == 1 then 0 else if c == '(' then 1 else if c == ')' then -1 else 0
  {
  }

  lemma CountsNone(s: string)
    ensures At(s, 0) == START && QuotesBefore(s, 0) == {} && Unquoted(s, '(', 0) == {} && Unquoted(s, ')', 0) == {}
  {
  }

  lemma OutsideIs(s: string, i: nat)
    requires i <= |s|
    ensures Outside(s, i) <==> |QuotesBefore(s, i)| % 2 == 0
  {
  }

  // ---- Enclosing parentheses ----

  /** The first and the last character are a matching pair. */
  predicate Enclosed(s: string) {
    && |s| >= 2 && s[0] == '(' && s[|s| - 1] == ')'
    && At(s, |s|).depth == 0
    && forall i | 0 < i < |s| :: At(s, i).depth > 0
  }

  function Strip(s: string): (t: string)
    ensures |t| <= |s|
    decreases |s|
  {
    var t := Trim(s);
    if Enclosed(t) then Strip(t[1..|t| - 1]) else t
  }

  lemma StripOfTrimmed(s: string)
    ensures Strip(s) == Strip(Trim(s))
  {
    TrimIsIdempotent(s);
    hide Trim, TrimLeft, TrimRight, Enclosed;
  }

  lemma StripEnclosed(t: string, inner: string)
    requires |t| >= 2 && inner == t[1..|t| - 1]
    requires Trim(t) == t && Enclosed(t)
    ensures Strip(t) == Strip(inner)
  {
    hide Trim, Enclosed, TrimLeft, TrimRight;
  }

  lemma StripUnfolds(s: string, t: string)
    requires t == Trim(s)
    ensures Trim(t) == t && Strip(s) == Strip(t)
    ensures Enclosed(t) ==> Strip(t) == Strip(Trim(t[1..|t| - 1]))
    ensures !Enclosed(t) ==> Strip(t) == t
  {
    TrimIsIdempotent(s);
    StripOfTrimmed(s);
    if Enclosed(t) {
      StripEnclosed(t, t[1..|t| - 1]);
      StripOfTrimmed(t[1..|t| - 1]);
    } else {
      StripOpen(t);
    }
    hide Trim, TrimLeft, TrimRight, Strip, Enclosed;
  }

  lemma StripOpen(t: string)
    requires Trim(t) == t && !Enclosed(t)
    ensures Strip(t) == t
  {
    hide Trim, Enclosed, TrimLeft, TrimRight;
  }

  lemma EnclosedEnds(s: string)
    requires Enclosed(s)
    ensures |s| >= 2 && s[0] == '(' && s[|s| - 1] == ')'
  {
  }

  lemma LastCloses(s: string, i: nat)
    requires i < |s| && s[0] == '(' && s[|s| - 1] == ')'
    requires forall k | 0 < k <= i :: At(s, k).depth > 0
    requires At(s, i + 1).depth == 0 || i + 1 == |s|
    ensures Enclosed(s) <==> i + 1 == |s| && At(s, i + 1).depth == 0
  {
  }

  /** The scan of `_strip_balanced_outer_parentheses`: up to the first close at depth 0. */
  method ClosesAtEnd(expression: string) returns (closesAtEnd: bool)
    requires expression != "" && expression[0] == '(' && expression[|expression| - 1] == ')'
    ensures closesAtEnd <==> Enclosed(expression)
  {
    var depth, quote, index := 0, false, 0;
    closesAtEnd := false;
    while index < |expression|
      invariant 0 <= index <= |expression| && !closesAtEnd
      invariant Scan(depth, quote) == At(expression, index)
      invariant forall i | 0 < i <= index :: At(expression, i).depth > 0
    {
      AtStep(expression, index);
      if expression[index] == '\'' {
        quote := !quote;
      } else if !quote {
        if expression[index] == '(' {
          depth := depth + 1;
        } else if expression[index] == ')' {
          depth := depth - 1;
          if depth == 0 {
            LastCloses(expression, index);
            closesAtEnd := index == |expression| - 1;
            return;
          }
        }
      }
      index := index + 1;
    }
  }

  /** The scan of `_strip_outer_parentheses`: it breaks only at a close to depth 0 before the end. */
  method Balances(expression: string) returns (balanced: bool)
    requires expression != "" && expression[0] == '(' && expression[|expression| - 1] == ')'
    ensures balanced <==> Enclosed(expression)
  {
    var depth, quoted, index := 0, false, 0;
    balanced := true;
    while index < |expression|
      invariant 0 <= index <= |expression| && balanced
      invariant Scan(depth, quoted) == At(expression, index)
      invariant forall i | 0 < i <= index && i < |expression| :: At(expression, i).depth > 0
    {
      AtStep(expression, index);
      if expression[index] == '\'' {
        quoted := !quoted;
      } else if !quoted {
        if expression[index] == '(' {
          depth := depth + 1;
        } else if expression[index] == ')' {
          depth := depth - 1;
          if depth == 0 && index != |expression| - 1 {
            LastCloses(expression, index);
            balanced := false;
            break;
          }
        }
      }
      index := index + 1;
    }
    balanced := balanced && depth == 0;
  }

  method StripBalancedOuterParentheses(sql: string) returns (expression: string)
    ensures expression == Strip(sql)
  {
    hide Strip, Trim, Enclosed;
    expression := Trim(sql);
    StripUnfolds(sql, expression);
    while expression != "" && expression[0] == '(' && expression[|expression| - 1] == ')'
      invariant Trim(expression) == expression && Strip(expression) == Strip(sql)
      decreases |expression|
    {
      var closesAtEnd := ClosesAtEnd(expression);
      if !closesAtEnd { break; }
      StripUnfolds(expression, expression);
      ghost var inner := expression[1..|expression| - 1];
      expression := Trim(expression[1..|expression| - 1]);
      StripUnfolds(inner, expression);
    }
    StripUnfolds(expression, expression);
    if Enclosed(expression) { EnclosedEnds(expression); }
  }

  method StripOuterParentheses(sql: string) returns (expression: string)
    ensures expression == Strip(sql)
  {
    hide Strip, Trim, Enclosed;
    expression := Trim(sql);
    StripUnfolds(sql, expression);
    while expression != "" && expression[0] == '(' && expression[|expression| - 1] == ')'
      invariant Trim(expression) == expression && Strip(expression) == Strip(sql)
      decreases |expression|
    {
      var balanced := Balances(expression);
      if !balanced { break; }
      StripUnfolds(expression, expression);
      ghost var inner := expression[1..|expression| - 1];
      expression := Trim(expression[1..|expression| - 1]);
      StripUnfolds(inner, expression);
    }
    StripUnfolds(expression, expression);
    if Enclosed(expression) { EnclosedEnds(expression); }
  }

  // ---- Cutting at a top-level operator ----

  /** An operator as the readers pass it: blanks around a word. */
  predicate IsOperator(op: string) {
    |op| >= 3 && op[0] == ' ' && op[|op| - 1] == ' ' && forall i | 0 < i < |op| - 1 :: IsWord(op[i])
  }

  predicate OccursAt(s: string, op: string, i: nat) { i + |op| <= |s| && s[i..i + |op|] == op }

  /** The operator stands at i outside quotes and parentheses. */
  predicate TopAt(s: string, op: string, i: nat) { OccursAt(s, op, i) && At(s, i) == START }

  predicate NoTopIn(s: string, op: string, from: nat, to: nat) { forall k | from <= k < to :: !TopAt(s, op, k) }

  predicate NoTop(s: string, op: string) { NoTopIn(s, op, 0, |s|) }

  function FirstTop(s: string, op: string, from: nat): (i: nat)
    requires from <= |s| && op != ""
    ensures from <= i <= |s|
    ensures NoTopIn(s, op, from, i)
    ensures i < |s| ==> TopAt(s, op, i)
    decreases |s| - from
  {
    if from == |s| || TopAt(s, op, from) then from else FirstTop(s, op, from + 1)
  }

  /** The text between the leftmost non-overlapping top-level operators, untrimmed. */
  function Pieces(s: string, op: string): (ps: seq<string>)
    requires IsOperator(op)
    ensures ps != []
    decreases |s|
  {
    var i := FirstTop(s, op, 0);
    if i == |s| then [s] else [s[..i]] + Pieces(s[i + |op|..], op)
  }

  function Trimmed(ps: seq<string>): (ts: seq<string>)
    ensures |ts| == |ps| && forall k | 0 <= k < |ps| :: ts[k] == Trim(ps[k])
  {
    if ps == [] then [] else [Trim(ps[0])] + Trimmed(ps[1..])
  }

  predicate Inert(s: string) { forall i | 0 <= i < |s| :: s[i] !in {'\'', '(', ')'} }

  lemma {:induction false} InertScan(st: Scan, s: string)
    requires Inert(s)
    ensures After(st, s) == st
  {
    if s != "" { InertScan(st, s[..|s| - 1]); }
  }

  lemma PastTop(s: string, op: string, i: nat)
    requires IsOperator(op) && TopAt(s, op, i)
    ensures i + |op| <= |s| && At(s, i + |op|) == START
  {
    assert s[..i + |op|] == s[..i] + op;
    AfterConcat(START, s[..i], op);
    assert Inert(op);
    InertScan(START, op);
  }

  /** After a prefix that leaves the scan at its start, the rest of a text is read as if it stood alone. */
  lemma TopInRest(s: string, op: string, from: nat, k: nat)
    requires from + k <= |s| && At(s, from) == START
    ensures At(s[from..], k) == At(s, from + k)
    ensures TopAt(s[from..], op, k) <==> TopAt(s, op, from + k)
  {
    assert s[..from + k] == s[..from] + s[from..][..k];
    AfterConcat(START, s[..from], s[from..][..k]);
    if from + k + |op| <= |s| { SliceOfRest(s, from, k, |op|); }
  }

  lemma SliceOfRest(s: string, from: nat, k: nat, n: nat)
    requires from + k + n <= |s|
    ensures s[from..][k..k + n] == s[from + k..from + k + n]
  {
  }

  lemma {:induction false} PiecesAreShorter(s: string, op: string)
    requires IsOperator(op)
    ensures forall k | 0 <= k < |Pieces(s, op)| :: |Pieces(s, op)[k]| <= |s|
    ensures |Pieces(s, op)| > 1 ==> forall k | 0 <= k < |Pieces(s, op)| :: |Pieces(s, op)[k]| < |s|
    decreases |s|
  {
    var i := FirstTop(s, op, 0);
    if i < |s| { PiecesAreShorter(s[i + |op|..], op); }
  }

  lemma IsNonempty(op: string)
    requires IsOperator(op)
    ensures op != ""
  {
  }

  lemma NotTop(s: string, op: string, start: nat, i: nat)
    requires IsOperator(op) && start <= i < |s| && NoTopIn(s, op, start, i)
    requires s[i] in {'\'', '(', ')'} || At(s, i) != START || !OccursAt(s, op, i)
    ensures NoTopIn(s, op, start, i + 1)
  {
    if OccursAt(s, op, i) { assert s[i..i + |op|][0] == s[i]; }
  }

  lemma IsTop(s: string, op: string, i: nat)
    requires OccursAt(s, op, i) && At(s, i) == START
    ensures TopAt(s, op, i)
  {
  }

  lemma RestPieces(s: string, op: string, start: nat, i: nat)
    requires IsOperator(op) && start <= i <= |s| && At(s, start) == START
    requires NoTopIn(s, op, start, i)
    requires i < |s| ==> TopAt(s, op, i)
    ensures i == |s| ==> Pieces(s[start..], op) == [s[start..]]
    ensures i < |s| ==> i + |op| <= |s| && At(s, i + |op|) == START
    ensures i < |s| ==> Pieces(s[start..], op) == [s[start..i]] + Pieces(s[i + |op|..], op)
  {
    hide *;
    IsNonempty(op);
    FirstTopInRest(s, op, start, i);
    PiecesUnfold(s[start..], op, i - start);
    if i < |s| {
      PastTop(s, op, i);
      RestSlices(s, start, i, |op|);
    }
  }

  lemma RestSlices(s: string, start: nat, i: nat, n: nat)
    requires start <= i && i + n <= |s|
    ensures s[start..][..i - start] == s[start..i] && s[start..][i - start + n..] == s[i + n..]
  {
  }

  lemma PiecesUnfold(s: string, op: string, i: nat)
    requires IsOperator(op) && FirstTop(s, op, 0) == i
    ensures i == |s| ==> Pieces(s, op) == [s]
    ensures i < |s| ==> i + |op| <= |s| && Pieces(s, op) == [s[..i]] + Pieces(s[i + |op|..], op)
  {
    hide FirstTop, At;
  }

  lemma FirstTopIs(s: string, op: string, i: nat)
    requires op != "" && i <= |s| && NoTopIn(s, op, 0, i) && (i < |s| ==> TopAt(s, op, i))
    ensures FirstTop(s, op, 0) == i
  {
    hide TopAt;
  }

  lemma FirstTopInRest(s: string, op: string, start: nat, i: nat)
    requires op != "" && start <= i <= |s| && At(s, start) == START
    requires NoTopIn(s, op, start, i) && (i < |s| ==> TopAt(s, op, i))
    ensures FirstTop(s[start..], op, 0) == i - start
  {
    hide TopAt, At, FirstTop;
    forall k: nat | k <= i - start ensures TopAt(s[start..], op, k) <==> TopAt(s, op, start + k) {
      TopInRest(s, op, start, k);
    }
    assert start + (i - start) == i;
    FirstTopIs(s[start..], op, i - start);
  }

  lemma TrimmedFirst(p: string, ps: seq<string>)
    ensures Trimmed([p] + ps) == [Trim(p)] + Trimmed(ps)
  {
    assert ([p] + ps)[1..] == ps;
  }

  /** The parts collected so far, followed by those still to be cut from the rest, are all of them. */
  ghost predicate Collected(parts: seq<string>, s: string, op: string, start: nat, all: seq<string>)
    requires IsOperator(op)
  {
    start <= |s| && At(s, start) == START && parts + Trimmed(Pieces(s[start..], op)) == all
  }

  lemma CollectNone(s: string, op: string) returns (all: seq<string>)
    requires IsOperator(op)
    ensures all == Trimmed(Pieces(s, op)) && Collected([], s, op, 0, all)
    ensures At(s, 0) == Scan(0, false) && |op| > 0 && NoTopIn(s, op, 0, 0)
  {
    all := Trimmed(Pieces(s, op));
    assert s[0..] == s;
  }

  lemma Collect(parts: seq<string>, s: string, op: string, start: nat, i: nat, all: seq<string>)
    requires IsOperator(op) && start <= i < |s| && TopAt(s, op, i)
    requires NoTopIn(s, op, start, i)
    requires Collected(parts, s, op, start, all)
    ensures i + |op| <= |s| && At(s, i + |op|) == START && NoTopIn(s, op, i + |op|, i + |op|)
    ensures Collected(parts + [Trim(s[start..i])], s, op, i + |op|, all)
  {
    hide Pieces, TopAt, At, IsOperator, FirstTop, OccursAt, Trimmed, Trim;
    RestPieces(s, op, start, i);
    TrimmedFirst(s[start..i], Pieces(s[i + |op|..], op));
  }

  lemma CollectLast(parts: seq<string>, s: string, op: string, start: nat, all: seq<string>)
    requires IsOperator(op) && start <= |s|
    requires NoTopIn(s, op, start, |s|)
    requires Collected(parts, s, op, start, all)
    ensures parts + [Trim(s[start..])] == all
  {
    hide Pieces, TopAt, At, IsOperator;
    RestPieces(s, op, start, |s|);
    TrimmedFirst(s[start..], []);
    assert [s[start..]] + [] == [s[start..]];
  }

  method SplitTopLevel(expression: string, op: string) returns (parts: seq<string>)
    requires IsOperator(op)
    ensures parts == Trimmed(Pieces(expression, op))
  {
    hide *;
    ghost var all := CollectNone(expression, op);
    parts := [];
    var start, depth, quote, index := 0, 0, false, 0;
    while index < |expression|
      decreases |expression| - index
      invariant 0 <= start <= index <= |expression|
      invariant Scan(depth, quote) == At(expression, index)
      invariant NoTopIn(expression, op, start, index)
      invariant Collected(parts, expression, op, start, all)
    {
      AtNext(expression, index, depth, quote);
      var c := expression[index];
      if c == '\'' {
        NotTop(expression, op, start, index);
        quote := !quote;
        index := index + 1;
        continue;
      }
      if !quote {
        if c == '(' {
          depth := depth + 1;
        } else if c == ')' {
          depth := depth - 1;
        } else if depth == 0 && OccursAt(expression, op, index) {
          IsTop(expression, op, index);
          Collect(parts, expression, op, start, index, all);
          parts := parts + [Trim(expression[start..index])];
          index := index + |op|;
          start := index;
          continue;
        }
      }
      NotTop(expression, op, start, index);
      index := index + 1;
    }
    CollectLast(parts, expression, op, start, all);
    parts := parts + [Trim(expression[start..])];
  }

  // ---- What the pieces are ----

  /** Read alone, the text leaves the scanner where it started. */
  predicate Neutral(u: string) { After(START, u) == START }

  /** Followed by the operator, the text has no top-level operator earlier, not even an overlapping one. */
  predicate Clear(u: string, op: string) { NoTopIn(u + op, op, 0, |u|) }

  predicate Separated(ws: seq<string>, op: string) {
    && ws != [] && NoTop(ws[|ws| - 1], op)
    && forall k | 0 <= k < |ws| - 1 :: Neutral(ws[k]) && Clear(ws[k], op)
  }

  lemma TopInPrefix(s: string, n: nat, op: string, k: nat)
    requires k + |op| <= n <= |s|
    ensures TopAt(s[..n], op, k) <==> TopAt(s, op, k)
  {
    assert s[..n][..k] == s[..k];
    assert s[..n][k..k + |op|] == s[k..k + |op|];
  }

  lemma ClearInPlace(s: string, op: string, i: nat)
    requires i + |op| <= |s| && s[i..i + |op|] == op && op != ""
    ensures Clear(s[..i], op) <==> NoTopIn(s, op, 0, i)
  {
    hide TopAt;
    assert s[..i] + op == s[..i + |op|];
    forall k: nat | k < i ensures TopAt(s[..i] + op, op, k) <==> TopAt(s, op, k) {
      TopInPrefix(s, i + |op|, op, k);
    }
  }

  lemma JoinTwo(w: string, ws: seq<string>, op: string)
    requires ws != []
    ensures Join([w] + ws, op) == w + op + Join(ws, op)
  {
    assert ([w] + ws)[1..] == ws;
  }

  lemma {:induction false} JoinedPieces(s: string, op: string)
    requires IsOperator(op)
    ensures Join(Pieces(s, op), op) == s && Separated(Pieces(s, op), op)
    decreases |s|
  {
    hide IsOperator, NoTopIn, At, Clear, Pieces, TopAt, Join;
    IsNonempty(op);
    var i := FirstTop(s, op, 0);
    PiecesUnfold(s, op, i);
    if i < |s| {
      PastTop(s, op, i);
      TopParts(s, op, i);
      ClearInPlace(s, op, i);
      var rest := s[i + |op|..];
      JoinedPieces(rest, op);
      JoinTwo(s[..i], Pieces(rest, op), op);
      SeparatedFirst(s[..i], Pieces(rest, op), op);
    } else {
      JoinOne(s, op);
    }
  }

  lemma JoinOne(s: string, op: string)
    ensures Join([s], op) == s
  {
  }

  lemma TopParts(s: string, op: string, i: nat)
    requires TopAt(s, op, i)
    ensures i + |op| <= |s| && s[i..i + |op|] == op && Neutral(s[..i])
    ensures s == s[..i] + op + s[i + |op|..]
  {
  }

  lemma SeparatedFirst(w: string, ws: seq<string>, op: string)
    requires ws != []
    ensures Separated([w] + ws, op) <==> Neutral(w) && Clear(w, op) && Separated(ws, op)
  {
    hide Neutral, Clear, NoTop;
    var all := [w] + ws;
    assert all[|all| - 1] == ws[|ws| - 1] && all[0] == w;
    assert forall k | 0 <= k < |ws| :: all[k + 1] == ws[k];
    if Separated(all, op) {
      forall k | 0 <= k < |ws| - 1 ensures Neutral(ws[k]) && Clear(ws[k], op) { assert all[k + 1] == ws[k]; }
    }
  }

  lemma {:induction false} PiecesOfJoin(ws: seq<string>, op: string)
    requires IsOperator(op) && Separated(ws, op)
    ensures Pieces(Join(ws, op), op) == ws
  {
    hide IsOperator, NoTopIn, At, Clear, Pieces, TopAt, Join, Neutral;
    IsNonempty(op);
    var w := ws[0];
    if |ws| == 1 {
      assert ws == [w];
      JoinOne(w, op);
      FirstTopIs(w, op, |w|);
      PiecesUnfold(w, op, |w|);
    } else {
      var rest := Join(ws[1..], op);
      var s := w + op + rest;
      assert ws == [w] + ws[1..];
      JoinTwo(w, ws[1..], op);
      SeparatedFirst(w, ws[1..], op);
      PiecesOfJoin(ws[1..], op);
      assert s[..|w|] == w && s[|w|..|w| + |op|] == op && s[|w| + |op|..] == rest;
      ClearInPlace(s, op, |w|);
      TopBehind(s, op, |w|);
      FirstTopIs(s, op, |w|);
      PiecesUnfold(s, op, |w|);
    }
  }

  lemma TopBehind(s: string, op: string, i: nat)
    requires i + |op| <= |s| && s[i..i + |op|] == op && Neutral(s[..i])
    ensures TopAt(s, op, i)
  {
  }

  /** A list of texts is the cut of s exactly when joining it with the operator rebuilds s and
      no text in it hides another place to cut. */
  lemma CutIsUnique(s: string, op: string, ws: seq<string>)
    requires IsOperator(op)
    ensures Pieces(s, op) == ws <==> ws != [] && Join(ws, op) == s && Separated(ws, op)
  {
    hide Separated, Pieces, IsOperator;
    JoinedPieces(s, op);
    if ws != [] && Join(ws, op) == s && Separated(ws, op) { PiecesOfJoin(ws, op); }
  }
}
