/** Printing AND/OR trees, and reading them back. */
module CheckPrint {
  import opened CheckNormal
  import opened CheckText
  import opened CheckShape

  // ---- Printing ----

  function Parens(p: string): string { "(" + p + ")" }

  function Print(t: Shape): string
    decreases t, 0
  {
    match t
    case AnyOf(parts) => Join(PrintEach(parts, true), OR)
    case AllOf(parts) => Join(PrintEach(parts, false), AND)
    case Leaf(text) => text
  }

  /** Below AND every operator is parenthesised, below OR only OR is. */
  function Child(t: Shape, belowOr: bool): string
    decreases t, 1
  {
    if t.AnyOf? || (t.AllOf? && !belowOr) then Parens(Print(t)) else Print(t)
  }

  function PrintEach(parts: seq<Shape>, belowOr: bool): (ws: seq<string>)
    ensures |ws| == |parts|
    ensures forall k | 0 <= k < |parts| :: ws[k] == Child(parts[k], belowOr)
    decreases parts, 0
  {
    if parts == [] then [] else [Child(parts[0], belowOr)] + PrintEach(parts[1..], belowOr)
  }

  // ---- Texts that may stand next to operators ----

  predicate Balanced(u: string) { Neutral(u) && forall i | 0 <= i <= |u| :: At(u, i).depth >= 0 }

  ghost predicate Phrase(u: string) { u != "" && Normal(u) && Balanced(u) }

  /** The word stands at k between blanks or the ends of the text, outside quotes and parentheses. */
  predicate WordAt(s: string, w: string, k: nat) {
    && k + |w| <= |s| && s[k..k + |w|] == w && At(s, k) == START
    && (k == 0 || s[k - 1] == ' ') && (k + |w| == |s| || s[k + |w|] == ' ')
  }

  /** A phrase in which neither operator word stands, first and last place included. */
  ghost predicate Unit(u: string) {
    Phrase(u) && forall k | 0 <= k < |u| :: !WordAt(u, "or", k) && !WordAt(u, "and", k)
  }

  /** The atoms: any normal, balanced text, blanks and quotes and parentheses in it included, that has no
      operator word of its own and is not wholly parenthesised. */
  ghost predicate AtomText(u: string) { Unit(u) && !Enclosed(u) }

  ghost predicate Printable(t: Shape)
    decreases t
  {
    match t
    case AnyOf(parts) => |parts| >= 2 && forall k | 0 <= k < |parts| :: Printable(parts[k])
    case AllOf(parts) => |parts| >= 2 && forall k | 0 <= k < |parts| :: Printable(parts[k])
    case Leaf(text) => AtomText(text)
  }

  /** The word of an operator. */
  function Word(op: string): string
    requires |op| >= 2
  {
    op[1..|op| - 1]
  }

  lemma WordsOfRules()
    ensures Word(OR) == "or" && Word(AND) == "and"
  {
  }

  /** Where an operator stands at the top level its word does. */
  lemma TopIsWord(s: string, op: string, k: nat)
    requires IsRule(op) && TopAt(s, op, k)
    ensures k + |op| <= |s| && WordAt(s, Word(op), k + 1) && s[k] == ' '
  {
    assert s[k..k + |op|][0] == s[k] && s[k..k + |op|][|op| - 1] == s[k + |op| - 1];
    forall i | 0 <= i < |op| ensures s[k + i] == op[i] { assert s[k..k + |op|][i] == s[k + i]; }
    assert s[k + 1..k + 1 + |Word(op)|] == Word(op);
    AtNext(s, k, 0, false);
  }

  /** A word before a blank is a word of the text before the blank. */
  lemma WordBefore(u: string, y: string, w: string, k: nat)
    requires w in {"or", "and"} && y != "" && y[0] == ' ' && k <= |u| && WordAt(u + y, w, k)
    ensures k < |u| && WordAt(u, w, k)
  {
    var s := u + y;
    assert s[|u|] == ' ' && forall i | 0 <= i < |w| :: s[k + i] == w[i] != ' ';
    assert k + |w| <= |u|;
    assert s[..k] == u[..k] && u[k..k + |w|] == s[k..k + |w|];
  }

  lemma UnitHasNoTop(u: string, y: string, op: string, k: nat)
    requires Unit(u) && IsRule(op) && y != "" && y[0] == ' ' && k < |u|
    ensures !TopAt(u + y, op, k)
  {
    hide WordAt, TopAt, Phrase, IsRule;
    if TopAt(u + y, op, k) {
      TopIsWord(u + y, op, k);
      WordsOfRules();
      RuleWords(op);
      WordBefore(u, y, Word(op), k + 1);
    }
  }

  lemma RuleWords(op: string)
    requires IsRule(op)
    ensures |op| >= 2 && op[0] == ' ' && (op == OR || op == AND)
  {
  }

  /** Inside the added parentheses the scan is one deeper, and it ends where it began. */
  lemma ScanInParentheses(p: string)
    requires Balanced(p)
    ensures forall i | 0 < i <= |p| + 1 :: At(Parens(p), i) == At(p, i - 1).(depth := At(p, i - 1).depth + 1)
    ensures At(Parens(p), |p| + 2) == START
  {
    hide *;
    ParensAre(p);
    forall i: nat | 0 < i <= |p| + 1
      ensures At(Parens(p), i) == At(p, i - 1).(depth := At(p, i - 1).depth + 1)
    {
      AtInParentheses(p, i);
    }
    ClosedAgain(p);
  }

  lemma ParensAre(p: string)
    ensures |Parens(p)| == |p| + 2 && Parens(p)[0] == '(' && Parens(p)[|p| + 1] == ')'
    ensures Parens(p)[1..|p| + 1] == p && forall i | 0 < i <= |p| :: Parens(p)[i] == p[i - 1]
  {
  }

  lemma ClosedAgain(p: string)
    requires Balanced(p) && At(Parens(p), |p| + 1) == At(p, |p|).(depth := At(p, |p|).depth + 1)
    ensures At(Parens(p), |p| + 2) == START
  {
    assert p[..|p|] == p;
    AtStep(Parens(p), |p| + 1);
  }

  lemma AtInParentheses(p: string, i: nat)
    requires 0 < i <= |p| + 1
    ensures At(Parens(p), i) == At(p, i - 1).(depth := At(p, i - 1).depth + 1)
  {
    assert Parens(p)[..i] == "(" + p[..i - 1];
    AfterConcat(START, "(", p[..i - 1]);
    assert After(START, "(") == START.(depth := START.depth + 1) by {
      assert "("[..0] == "";
      assert After(START, "") == START;
    }
    AfterDeeper(1, START, p[..i - 1]);
  }

  /** Writing parentheses around a phrase gives an enclosed unit. */
  lemma InParentheses(p: string)
    requires Phrase(p)
    ensures Unit(Parens(p)) && Enclosed(Parens(p))
    ensures |Parens(p)| == |p| + 2 && Trim(Parens(p)[1..|p| + 1]) == p
  {
    hide *;
    ParensAre(p);
    PhraseParts(p);
    NormalTrim(p);
    EnclosedInParentheses(p);
    UnitInParentheses(p);
  }

  lemma PhraseParts(p: string)
    requires Phrase(p)
    ensures p != "" && Normal(p) && Balanced(p)
  {
  }

  lemma EnclosedInParentheses(p: string)
    requires Balanced(p)
    ensures Enclosed(Parens(p))
  {
    hide At, Parens, Neutral;
    ParensAre(p);
    ScanInParentheses(p);
    var c := Parens(p);
    forall i: nat | 0 < i < |c| ensures At(c, i).depth > 0 { assert At(p, i - 1).depth >= 0; }
  }

  lemma UnitInParentheses(p: string)
    requires Phrase(p)
    ensures Unit(Parens(p))
  {
    hide At, Parens, Neutral, Normal;
    ParensAre(p);
    NormalInParentheses(p);
    ScanInParentheses(p);
    var c := Parens(p);
    AtEnds(c);
    assert Balanced(c) by {
      forall i: nat | 0 < i < |c| ensures At(c, i).depth > 0 { assert At(p, i - 1).depth >= 0; }
    }
    forall k: nat | k < |c| ensures !WordAt(c, "or", k) && !WordAt(c, "and", k) {
      if k == 0 { OpensNoWord(c); } else { assert At(p, k - 1).depth >= 0; }
    }
  }

  lemma OpensNoWord(s: string)
    requires s != "" && s[0] == '('
    ensures !WordAt(s, "or", 0) && !WordAt(s, "and", 0)
  {
    if |s| >= 2 { assert s[0..2][0] == s[0]; }
    if |s| >= 3 { assert s[0..3][0] == s[0]; }
  }

  lemma AtEnds(s: string)
    ensures At(s, 0) == START && (At(s, |s|) == START <==> Neutral(s))
  {
    assert s[..|s|] == s;
  }

  lemma NormalInParentheses(p: string)
    requires Normal(p) && p != ""
    ensures Normal(Parens(p))
  {
    var c := Parens(p);
    assert !IsSpace(p[0]) && !IsSpace(p[|p| - 1]);
    assert forall i | 0 < i <= |p| :: c[i] == p[i - 1];
    assert Plain(c);
    assert Tidy(c) by {
      forall i | 0 <= i < |c| && IsSpace(c[i]) ensures c[i] == ' ' && 0 < i < |c| - 1 { assert c[i] == p[i - 1]; }
      forall i | 0 < i < |c| ensures !(IsSpace(c[i - 1]) && IsSpace(c[i])) {
        if 1 < i <= |p| { assert c[i] == p[i - 1] && c[i - 1] == p[i - 2]; }
      }
    }
    forall i, j, k ensures !TagAt(c, i, j, k) {
      if TagAt(c, i, j, k) { TagWithin(c, p, 1, i, j, k); assert false; }
    }
  }

  /** A tag that begins and ends inside a part of a text is a tag of that part. */
  lemma TagWithin(c: string, p: string, from: nat, i: int, j: int, k: int)
    requires from + |p| <= |c| && p == c[from..from + |p|]
    requires TagAt(c, i, j, k) && from <= i && k < from + |p|
    ensures TagAt(p, i - from, j - from, k - from)
  {
    assert forall x | from <= x < from + |p| :: c[x] == p[x - from];
  }

  // ---- Joining phrases ----

  predicate IsRule(op: string) { op == OR || op == AND }

  lemma {:induction false} JoinedPhrases(ws: seq<string>, op: string)
    requires IsRule(op) && ws != [] && forall k | 0 <= k < |ws| :: Phrase(ws[k])
    ensures Phrase(Join(ws, op))
  {
    hide Phrase, IsRule;
    if |ws| > 1 {
      JoinedPhrases(ws[1..], op);
      PhrasePair(ws[0], op, Join(ws[1..], op));
    }
  }

  lemma PhrasePair(a: string, op: string, b: string)
    requires IsRule(op) && Phrase(a) && Phrase(b)
    ensures Phrase(a + op + b)
  {
    hide Normal, Balanced;
    NormalPair(a, op, b);
    BalancedPair(a, op);
    BalancedPair(a + op, b);
  }

  lemma BalancedPair(a: string, b: string)
    requires Balanced(a) && (Balanced(b) || IsRule(b))
    ensures Balanced(a + b)
  {
    hide IsRule;
    if IsRule(b) { RuleIsBalanced(b); }
    AfterConcat(START, a, b);
    forall i: nat | i <= |a + b| ensures At(a + b, i).depth >= 0 {
      AtConcat(a, b, i);
      if i <= |a| { assert At(a, i).depth >= 0; } else { assert At(b, i - |a|).depth >= 0; }
    }
  }

  lemma RuleIsBalanced(op: string)
    requires IsRule(op)
    ensures Balanced(op) && IsOperator(op)
  {
    OperatorsAreOperators();
    assert Inert(op);
    InertIsBalanced(op);
  }

  lemma InertIsBalanced(u: string)
    requires Inert(u)
    ensures Balanced(u)
  {
    InertScan(START, u);
    forall i: nat | i <= |u| ensures At(u, i) == START { InertScan(START, u[..i]); }
  }

  lemma NormalPair(a: string, op: string, b: string)
    requires IsRule(op) && Normal(a) && Normal(b) && a != "" && b != ""
    ensures Normal(a + op + b)
  {
    hide Tidy, Untagged;
    TidyRow(a, op, b);
    UntaggedRow(a, op, b);
    var c := a + op + b;
    forall i | 0 <= i < |c| ensures c[i] != '`' && !('A' <= c[i] <= 'Z') {
      if i >= |a| + |op| { assert c[i] == b[i - |a| - |op|]; }
    }
  }

  lemma UntaggedRow(a: string, op: string, b: string)
    requires IsRule(op) && Untagged(a) && Untagged(b)
    ensures Untagged(a + op + b)
  {
    var c := a + op + b;
    var n := |a| + |op|;
    assert c[0..|a|] == a && c[n..n + |b|] == b;
    assert forall i | 0 <= i < |op| :: c[|a| + i] == op[i];
    forall i, j, k ensures !TagAt(c, i, j, k) {
      if TagAt(c, i, j, k) {
        if k < |a| {
          TagWithin(c, a, 0, i, j, k);
        } else if i >= n {
          TagWithin(c, b, n, i, j, k);
        } else {
          TagStopsAt(c, i, j, k, |a|);
        }
        assert false;
      }
    }
  }

  /** No tag runs over a blank and a letter behind it, nor begins inside an operator. */
  lemma TagStopsAt(c: string, i: int, j: int, k: int, m: nat)
    requires m + 4 <= |c| && c[m] == ' ' && c[m + 1] in {'o', 'a'}
    requires forall x | m < x < m + 3 :: c[x] != '_' && c[x] != '\''
    requires TagAt(c, i, j, k) && k >= m
    ensures i > m + 2
  {
    assert !IsWord(c[m]) && !IsSpace(c[m + 1]);
  }

  lemma TidyRow(a: string, op: string, b: string)
    requires IsRule(op) && Tidy(a) && Tidy(b) && a != "" && b != ""
    ensures Tidy(a + op + b)
  {
    var c := a + op + b;
    var n := |a| + |op|;
    assert !IsSpace(a[|a| - 1]) && !IsSpace(b[0]) && !IsSpace(b[|b| - 1]) && !IsSpace(a[0]);
    assert forall i | 0 <= i < |op| :: c[|a| + i] == op[i];
    assert forall i | 0 <= i < |b| :: c[n + i] == b[i];
    forall i | 0 <= i < |c| && IsSpace(c[i]) ensures c[i] == ' ' && 0 < i < |c| - 1 {
      if i >= n { assert c[i] == b[i - n]; }
    }
    forall i | 0 < i < |c| ensures !(IsSpace(c[i - 1]) && IsSpace(c[i])) {
      if i > n { assert c[i] == b[i - n] && c[i - 1] == b[i - n - 1]; }
    }
  }

  // ---- Where the operators of a printed text are ----

  lemma UnitIsClear(c: string, op: string)
    requires Unit(c) && IsRule(op)
    ensures Clear(c, op) && NoTop(c, op) && Neutral(c)
  {
    hide Unit, TopAt, NoTop, IsRule;
    RuleWords(op);
    forall k: nat | k < |c| ensures !TopAt(c + op, op, k) { UnitHasNoTop(c, op, op, k); }
    ClearHasNoTop(c, op);
    UnitIsPhrase(c);
    PhraseIsNeutral(c);
  }

  lemma ClearHasNoTop(c: string, op: string)
    requires Clear(c, op)
    ensures NoTop(c, op)
  {
    hide TopAt;
    forall k: nat | k < |c| ensures !TopAt(c, op, k) {
      assert (c + op)[..|c|] == c;
      if k + |op| <= |c| { TopInPrefix(c + op, |c|, op, k); } else { TopFits(c, op, k); }
    }
  }

  lemma TopFits(s: string, op: string, k: nat)
    ensures TopAt(s, op, k) ==> k + |op| <= |s|
  {
  }

  /** Behind an AND no unit, followed by a blank, spells the word "or". */
  lemma NoOrBegins(w: string, y: string)
    requires Unit(w) && y != "" && y[0] == ' '
    ensures !("or " <= w + y)
  {
    hide Phrase;
    var x := w + y;
    if "or " <= x {
      assert x[..3] == "or " && x[0..2] == x[..3][..2] && x[2] == x[..3][2];
      assert At(x, 0) == START;
      assert WordAt(x, "or", 0);
      WordBefore(w, y, "or", 0);
    }
  }

  lemma {:induction false} UnitsByAndHaveNoOr(ws: seq<string>)
    requires ws != [] && forall k | 0 <= k < |ws| :: Unit(ws[k])
    ensures Clear(Join(ws, AND), OR)
    ensures exists y :: y != "" && y[0] == ' ' && Join(ws, AND) + OR == ws[0] + y
  {
    hide Unit, Clear, AND, OR;
    UnitIsClear(ws[0], OR);
    if |ws| > 1 {
      UnitsByAndHaveNoOr(ws[1..]);
      var rest := Join(ws[1..], AND);
      var y :| y != "" && y[0] == ' ' && rest + OR == ws[1] + y;
      NoOrBegins(ws[1], y);
      ClearByAnd(ws[0], rest);
      assert ws == [ws[0]] + ws[1..];
      JoinTwo(ws[0], ws[1..], AND);
      Begins(ws[0], rest);
    } else {
      JoinOne(ws[0], AND);
      Begins(ws[0], "");
    }
  }

  lemma Begins(w: string, rest: string)
    ensures exists y :: y != "" && y[0] == ' ' && w + OR == w + y
    ensures exists y :: y != "" && y[0] == ' ' && (w + AND + rest) + OR == w + y
  {
    var y := AND + rest + OR;
    assert OR[0] == ' ' && y[0] == ' ';
    assert (w + AND + rest) + OR == w + y;
  }

  lemma ClearByAnd(w: string, rest: string)
    requires Unit(w) && Clear(rest, OR) && !("or " <= rest + OR)
    ensures Clear(w + AND + rest, OR)
  {
    hide *;
    var behind := rest + OR;
    var s := w + AND + behind;
    Reassociated(w, rest);
    BeforeSeam(w, AND + behind);
    OnSeam(w, behind);
    BehindSeam(w, rest);
    NoTopThrough(s, OR, 0, |w|, |w| + |AND|);
    NoTopThrough(s, OR, 0, |w| + |AND|, |w| + |AND| + |rest|);
    ClearIs(w + AND + rest);
  }

  lemma Reassociated(w: string, rest: string)
    ensures (w + AND + rest) + OR == w + AND + (rest + OR) == w + (AND + (rest + OR))
    ensures |w + AND + rest| == |w| + |AND| + |rest|
    ensures AND + (rest + OR) != "" && (AND + (rest + OR))[0] == ' '
  {
  }

  lemma ClearIs(u: string)
    requires NoTopIn(u + OR, OR, 0, |u|)
    ensures Clear(u, OR)
  {
  }

  lemma NoTopThrough(s: string, op: string, a: nat, b: nat, c: nat)
    requires a <= b <= c && NoTopIn(s, op, a, b) && NoTopIn(s, op, b, c)
    ensures NoTopIn(s, op, a, c)
  {
    hide TopAt;
  }

  lemma BeforeSeam(w: string, y: string)
    requires Unit(w) && y != "" && y[0] == ' '
    ensures NoTopIn(w + y, OR, 0, |w|)
  {
    hide Unit, TopAt;
    forall k: nat | k < |w| ensures !TopAt(w + y, OR, k) { UnitHasNoTop(w, y, OR, k); }
  }

  lemma OnSeam(w: string, behind: string)
    requires !("or " <= behind)
    ensures NoTopIn(w + AND + behind, OR, |w|, |w| + |AND|)
  {
    hide TopAt, AND;
    forall k: nat | |w| <= k < |w| + |AND| ensures !TopAt(w + AND + behind, OR, k) { NoOrInAnd(w, behind, k); }
  }

  lemma BehindSeam(w: string, rest: string)
    requires Unit(w) && Clear(rest, OR)
    ensures NoTopIn(w + AND + (rest + OR), OR, |w| + |AND|, |w| + |AND| + |rest|)
  {
    hide TopAt, At, Unit;
    var s, n := w + AND + (rest + OR), |w| + |AND|;
    AfterSeam(w, rest + OR);
    forall k: nat | n <= k < n + |rest| ensures !TopAt(s, OR, k) { TopInRest(s, OR, n, k - n); }
  }

  lemma AfterSeam(w: string, behind: string)
    requires Unit(w)
    ensures At(w + AND + behind, |w| + |AND|) == START && (w + AND + behind)[|w| + |AND|..] == behind
  {
    hide Unit, TopAt, At, Neutral;
    var s := w + AND + behind;
    OperatorsAreOperators();
    UnitIsClear(w, AND);
    assert s[..|w|] == w && s[|w|..|w| + |AND|] == AND;
    TopBehind(s, AND, |w|);
    PastTop(s, AND, |w|);
  }

  lemma NoOrInAnd(w: string, rest: string, k: nat)
    requires |w| <= k < |w| + |AND| && !("or " <= rest)
    ensures !TopAt(w + AND + rest, OR, k)
  {
    var s := w + AND + rest;
    OrSpelled(s, k);
    assert forall i | 0 <= i < 5 :: s[|w| + i] == AND[i];
    assert s[|w| + 5..] == rest;
  }

  lemma OrSpelled(s: string, k: nat)
    ensures OccursAt(s, OR, k) ==> s[k] == ' ' && s[k + 1] == 'o' && "or " <= s[k + 1..]
  {
    if OccursAt(s, OR, k) {
      assert s[k..k + 4][0] == s[k] && s[k..k + 4][1] == s[k + 1];
      assert s[k + 1..][..3] == s[k..k + 4][1..];
    }
  }

  // ---- Reading a printed tree ----

  lemma {:induction false} PrintIsPhrase(t: Shape)
    requires Printable(t)
    ensures Phrase(Print(t))
    decreases t, 0
  {
    hide Phrase, Unit;
    match t
    case AnyOf(parts) =>
      EachIsPhrase(t, parts, true);
      JoinedPhrases(PrintEach(parts, true), OR);
    case AllOf(parts) =>
      EachIsPhrase(t, parts, false);
      JoinedPhrases(PrintEach(parts, false), AND);
    case Leaf(text) => AtomIsPhrase(text);
  }

  lemma AtomIsPhrase(text: string)
    requires AtomText(text)
    ensures Phrase(text)
  {
  }

  lemma AtomIsUnit(text: string)
    requires AtomText(text)
    ensures Unit(text) && !Enclosed(text)
  {
  }

  lemma UnitIsPhrase(u: string)
    requires Unit(u)
    ensures Phrase(u)
  {
  }

  lemma {:induction false} EachIsPhrase(t: Shape, parts: seq<Shape>, belowOr: bool)
    requires !t.Leaf? && parts == t.parts && forall k | 0 <= k < |parts| :: Printable(parts[k])
    ensures forall k | 0 <= k < |parts| :: Phrase(PrintEach(parts, belowOr)[k])
    decreases t, 0, 0
  {
    hide Phrase, Print, Printable;
    forall k | 0 <= k < |parts| ensures Phrase(PrintEach(parts, belowOr)[k]) {
      ChildIsPhrase(parts[k], belowOr);
    }
  }

  lemma {:induction false} ChildIsPhrase(t: Shape, belowOr: bool)
    requires Printable(t)
    ensures Phrase(Child(t, belowOr))
    ensures !(t.AllOf? && belowOr) ==> Unit(Child(t, belowOr))
    decreases t, 1
  {
    hide Phrase, Unit, Print, AtomText;
    PrintIsPhrase(t);
    if !t.Leaf? { InParentheses(Print(t)); UnitIsPhrase(Parens(Print(t))); }
    else { PrintOfLeaf(t); AtomIsUnit(t.text); }
  }

  lemma PrintOfLeaf(t: Shape)
    requires t.Leaf? && Printable(t)
    ensures Print(t) == t.text && AtomText(t.text)
  {
  }

  /** No part of a disjunction hides an OR. */
  lemma ChildIsClear(t: Shape)
    requires Printable(t)
    ensures Clear(Child(t, true), OR) && NoTop(Child(t, true), OR) && Neutral(Child(t, true))
  {
    hide Phrase, Unit, Clear, NoTop, Neutral, Balanced, AtomText, Child;
    ChildIsPhrase(t, true);
    if t.AllOf? {
      ConjunctionIsClear(t);
      ChildOfAll(t);
      PhraseIsNeutral(Child(t, true));
    } else {
      UnitIsClear(Child(t, true), OR);
    }
  }

  lemma ChildOfAll(t: Shape)
    requires t.AllOf?
    ensures Child(t, true) == Print(t)
  {
  }

  lemma PhraseIsNeutral(u: string)
    requires Phrase(u)
    ensures Neutral(u) && Normal(u)
  {
  }

  lemma ConjunctionIsClear(t: Shape)
    requires t.AllOf? && Printable(t)
    ensures Clear(Print(t), OR) && NoTop(Print(t), OR)
  {
    hide Phrase, Unit, Clear, NoTop, Child;
    var ws := PrintEach(t.parts, false);
    forall k | 0 <= k < |ws| ensures Unit(ws[k]) { ChildIsPhrase(t.parts[k], false); }
    UnitsByAndHaveNoOr(ws);
    ClearHasNoTop(Print(t), OR);
  }

  lemma PiecesOfAny(t: Shape)
    requires t.AnyOf? && Printable(t) && IsOperator(OR)
    ensures Pieces(Print(t), OR) == PrintEach(t.parts, true)
  {
    hide Phrase, Unit, Clear, NoTop, Neutral, Child, IsOperator;
    var ws := PrintEach(t.parts, true);
    forall k | 0 <= k < |ws| ensures Clear(ws[k], OR) && NoTop(ws[k], OR) && Neutral(ws[k]) {
      ChildIsClear(t.parts[k]);
    }
    PiecesOfJoin(ws, OR);
  }

  lemma PiecesOfAll(t: Shape)
    requires t.AllOf? && Printable(t) && IsOperator(AND)
    ensures Pieces(Print(t), AND) == PrintEach(t.parts, false)
  {
    hide Phrase, Unit, Clear, NoTop, Neutral, Child, IsOperator;
    var ws := PrintEach(t.parts, false);
    forall k | 0 <= k < |ws| ensures Clear(ws[k], AND) && NoTop(ws[k], AND) && Neutral(ws[k]) {
      ChildIsPhrase(t.parts[k], false);
      UnitIsClear(ws[k], AND);
    }
    PiecesOfJoin(ws, AND);
  }

  lemma ManyPiecesAreOpen(s: string, op: string)
    requires IsOperator(op) && |Pieces(s, op)| > 1
    ensures !Enclosed(s)
  {
    hide Enclosed, Pieces, NoTop;
    OnePiece(s, op);
    if Enclosed(s) { EnclosedHasNoTop(s, op); assert false; }
  }

  lemma AtomShape(text: string)
    requires AtomText(text)
    ensures BooleanShape(text) == Leaf(Compact(text))
  {
    hide Phrase, Normal, Enclosed, At, Unit, NoTop, ShapeOf, BooleanShape, Pieces, AtomText, Compact;
    OperatorsAreOperators();
    AtomIsUnit(text);
    UnitIsPhrase(text);
    PhraseIsNeutral(text);
    UnitIsClear(text, OR);
    UnitIsClear(text, AND);
    OnePiece(text, OR);
    OnePiece(text, AND);
    ShapeOfOpen(text);
  }

  /** A test of a column, blanks and all, is an atom. */
  lemma NullTestIsAtom()
    ensures AtomText("x is null") && BooleanShape("x is null") == Leaf(Compact("x is null"))
  {
    hide Normal, BooleanShape, Compact, Balanced, WordAt;
    var u := "x is null";
    assert Inert(u);
    NullTestIsNormal(u);
    InertIsBalanced(u);
    NullTestIsWordless(u);
    AtomShape(u);
  }

  lemma NullTestIsNormal(u: string)
    requires u == "x is null"
    ensures Normal(u)
  {
    assert '_' !in u && '`' !in u;
    assert forall i | 0 <= i < |u| :: IsSpace(u[i]) <==> i == 1 || i == 4;
  }

  lemma NullTestIsWordless(u: string)
    requires u == "x is null"
    ensures forall k | 0 <= k < |u| :: !WordAt(u, "or", k) && !WordAt(u, "and", k)
  {
    hide At;
    forall k: nat | k < |u| ensures !WordAt(u, "or", k) && !WordAt(u, "and", k) {
      assert u[k] != 'o' && u[k] != 'a';
      if k + 2 <= |u| { assert u[k..k + 2][0] == u[k]; }
      if k + 3 <= |u| { assert u[k..k + 3][0] == u[k]; }
    }
  }

  /** The tree with the blanks taken out of its atoms, as the readers keep them. */
  function Compacted(t: Shape): Shape
    decreases t, 0
  {
    match t
    case AnyOf(parts) => AnyOf(CompactedEach(parts))
    case AllOf(parts) => AllOf(CompactedEach(parts))
    case Leaf(text) => Leaf(Compact(text))
  }

  function CompactedEach(parts: seq<Shape>): (cs: seq<Shape>)
    ensures |cs| == |parts| && forall k | 0 <= k < |parts| :: cs[k] == Compacted(parts[k])
    decreases parts, 0
  {
    if parts == [] then [] else [Compacted(parts[0])] + CompactedEach(parts[1..])
  }

  /** Every atom of the tree is one word. */
  ghost predicate OneWorded(t: Shape)
    decreases t
  {
    match t
    case AnyOf(parts) => forall k | 0 <= k < |parts| :: OneWorded(parts[k])
    case AllOf(parts) => forall k | 0 <= k < |parts| :: OneWorded(parts[k])
    case Leaf(text) => text != "" && Spaceless(text)
  }

  lemma {:induction false} OneWordedIsCompact(t: Shape)
    requires OneWorded(t)
    ensures Compacted(t) == t
    decreases t
  {
    hide Compact, Spaceless;
    match t
    case Leaf(text) => WordIsCompact(text);
    case AnyOf(parts) =>
      forall k | 0 <= k < |parts| ensures Compacted(parts[k]) == parts[k] { OneWordedIsCompact(parts[k]); }
      assert CompactedEach(parts) == parts;
    case AllOf(parts) =>
      forall k | 0 <= k < |parts| ensures Compacted(parts[k]) == parts[k] { OneWordedIsCompact(parts[k]); }
      assert CompactedEach(parts) == parts;
  }

  lemma WordIsCompact(text: string)
    requires text != "" && Spaceless(text)
    ensures Compact(text) == text
  {
    hide Words;
    assert text[..|text|] == text;
    GraphIs(text, |text|);
    WholeWord(text);
    JoinOne(text, "");
  }

  lemma WholeWord(t: string)
    requires t != "" && Graph(t) == |t|
    ensures Words(t) == [t]
  {
    assert !IsSpace(t[0]);
    assert t[|t|..] == "" && t[..|t|] == t;
    assert Words("") == [];
  }

  lemma ShapeOfChild(t: Shape, belowOr: bool)
    requires Printable(t)
    ensures BooleanShape(Child(t, belowOr)) == BooleanShape(Print(t))
  {
    hide Phrase, Unit, Enclosed, Normal, BooleanShape, Print, Printable, Trim;
    if Child(t, belowOr) != Print(t) {
      PrintIsPhrase(t);
      InParentheses(Print(t));
      UnitIsPhrase(Parens(Print(t)));
      PhraseIsNeutral(Parens(Print(t)));
      ShapeOfEnclosed(Parens(Print(t)));
    }
  }

  /** Taking the shape of a printed tree gives the tree back, less the blanks inside its atoms. */
  lemma {:induction false} ShapeOfPrint(t: Shape)
    requires Printable(t)
    ensures BooleanShape(Print(t)) == Compacted(t)
    ensures OneWorded(t) ==> BooleanShape(Print(t)) == t
    decreases t
  {
    hide Phrase, Unit, Enclosed, Normal, BooleanShape, Child, Pieces, AtomText, NoTop, ShapeOf, Compact, OneWorded;
    if OneWorded(t) { OneWordedIsCompact(t); }
    OperatorsAreOperators();
    PrintIsPhrase(t);
    PhraseIsNeutral(Print(t));
    match t
    case Leaf(text) => AtomShape(text);
    case AnyOf(parts) =>
      PiecesOfAny(t);
      ManyPiecesAreOpen(Print(t), OR);
      ShapeOfOpen(Print(t));
      forall k | 0 <= k < |parts| ensures BooleanShape(PrintEach(parts, true)[k]) == CompactedEach(parts)[k] {
        ShapeOfChild(parts[k], true);
        ShapeOfPrint(parts[k]);
      }
      ShapesMatch(PieceShapes(Print(t), OR), PrintEach(parts, true), CompactedEach(parts));
    case AllOf(parts) =>
      PiecesOfAll(t);
      ManyPiecesAreOpen(Print(t), AND);
      ConjunctionIsClear(t);
      OnePiece(Print(t), OR);
      ShapeOfOpen(Print(t));
      forall k | 0 <= k < |parts| ensures BooleanShape(PrintEach(parts, false)[k]) == CompactedEach(parts)[k] {
        ShapeOfChild(parts[k], false);
        ShapeOfPrint(parts[k]);
      }
      ShapesMatch(PieceShapes(Print(t), AND), PrintEach(parts, false), CompactedEach(parts));
  }

  lemma ShapesMatch(shapes: seq<Shape>, ws: seq<string>, parts: seq<Shape>)
    requires |shapes| == |ws| == |parts|
    requires forall k | 0 <= k < |ws| :: shapes[k] == ShapeOf(ws[k], false)
    requires forall k | 0 <= k < |ws| :: BooleanShape(ws[k]) == parts[k]
    ensures shapes == parts
  {
    hide ShapeOf;
    forall k | 0 <= k < |ws| ensures shapes[k] == parts[k] { assert BooleanShape(ws[k]) == ShapeOf(ws[k], false); }
  }
}
