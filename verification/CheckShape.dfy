/** The AND/OR shape of a CHECK text, as both migrations read it, and what it means. */
module CheckShape {
  import opened ThreeValued
  import opened CheckNormal
  import opened CheckText

  datatype Shape = AnyOf(parts: seq<Shape>) | AllOf(parts: seq<Shape>) | Leaf(text: string)

  const OR := " or "
  const AND := " and "

  function Compact(s: string): string { Join(Words(s), "") }

  /** `_check_shape` also drops a leading "check"; `_boolean_check_shape` does not. */
  function DropKeyword(s: string, keyword: bool): (t: string)
    ensures |t| <= |s|
  {
    if keyword && "check" <= s then Trim(s[5..]) else s
  }

  function Expression(sqltext: string, keyword: bool): (t: string)
    ensures |t| <= |sqltext|
  {
    NormalizeShortens(sqltext);
    Strip(DropKeyword(Normalize(sqltext), keyword))
  }

  lemma OperatorsAreOperators()
    ensures IsOperator(OR) && IsOperator(AND)
  {
  }

  /** Where the readers cut: at the words or and and between blanks, outside literals, with as many
      parentheses closed as opened before. */
  lemma CutsAreOperators(s: string, i: nat)
    ensures TopAt(s, OR, i) <==>
            && i + 4 <= |s| && s[i..i + 4] == " or " && |QuotesBefore(s, i)| % 2 == 0
            && |Unquoted(s, '(', i)| == |Unquoted(s, ')', i)|
    ensures TopAt(s, AND, i) <==>
            && i + 5 <= |s| && s[i..i + 5] == " and " && |QuotesBefore(s, i)| % 2 == 0
            && |Unquoted(s, '(', i)| == |Unquoted(s, ')', i)|
  {
    hide At, QuotesBefore, Unquoted;
    if i <= |s| { ScanCounts(s, i); }
  }

  lemma PartsAreShorter(s: string, op: string)
    requires IsOperator(op)
    ensures |Trimmed(Pieces(s, op))| == |Pieces(s, op)|
    ensures |Pieces(s, op)| > 1 ==> forall k | 0 <= k < |Pieces(s, op)| :: |Trimmed(Pieces(s, op))[k]| < |s|
  {
    PiecesAreShorter(s, op);
    hide Pieces, Trimmed;
  }

  function ShapeOf(sqltext: string, keyword: bool): Shape
    decreases |sqltext|, 1
  {
    var expression := Expression(sqltext, keyword);
    OperatorsAreOperators();
    PartsAreShorter(expression, OR);
    PartsAreShorter(expression, AND);
    var orParts := Trimmed(Pieces(expression, OR));
    var andParts := Trimmed(Pieces(expression, AND));
    if |orParts| > 1 then AnyOf(ShapesOf(orParts, |sqltext|, keyword))
    else if |andParts| > 1 then AllOf(ShapesOf(andParts, |sqltext|, keyword))
    else Leaf(Compact(expression))
  }

  function ShapesOf(parts: seq<string>, ghost bound: nat, keyword: bool): (shapes: seq<Shape>)
    requires forall k | 0 <= k < |parts| :: |parts[k]| < bound
    decreases bound, 0, |parts|
  {
    if parts == [] then [] else [ShapeOf(parts[0], keyword)] + ShapesOf(parts[1..], bound, keyword)
  }

  /** `_boolean_check_shape` of the terminal-arbitration migration. */
  function BooleanShape(sqltext: string): Shape { ShapeOf(sqltext, false) }

  // ---- The value of a shape ----

  type Valuation = string -> Truth

  function Value(t: Shape, v: Valuation): Truth
    decreases t
  {
    match t
    case AnyOf(parts) => AnyValue(parts, v)
    case AllOf(parts) => AllValue(parts, v)
    case Leaf(text) => v(text)
  }

  function AnyValue(parts: seq<Shape>, v: Valuation): Truth
    decreases parts
  {
    if parts == [] then False else Or(Value(parts[0], v), AnyValue(parts[1..], v))
  }

  function AllValue(parts: seq<Shape>, v: Valuation): Truth
    decreases parts
  {
    if parts == [] then True else And(Value(parts[0], v), AllValue(parts[1..], v))
  }

  lemma {:induction false} AnyValueConcat(a: seq<Shape>, b: seq<Shape>, v: Valuation)
    ensures AnyValue(a + b, v) == Or(AnyValue(a, v), AnyValue(b, v))
  {
    if a == [] {
      assert a + b == b;
    } else {
      AnyValueConcat(a[1..], b, v);
      assert (a + b)[1..] == a[1..] + b;
    }
  }

  lemma {:induction false} AllValueConcat(a: seq<Shape>, b: seq<Shape>, v: Valuation)
    ensures AllValue(a + b, v) == And(AllValue(a, v), AllValue(b, v))
  {
    if a == [] {
      assert a + b == b;
    } else {
      AllValueConcat(a[1..], b, v);
      assert (a + b)[1..] == a[1..] + b;
    }
  }

  // ---- Shapes of normal text ----

  lemma NormalTrim(s: string)
    requires Normal(s)
    ensures Trim(s) == s && Normalize(s) == s
  {
    UnchangedIffNormal(s);
    assert Tidy(s);
    if s != "" { assert !IsSpace(s[0]) && !IsSpace(s[|s| - 1]); }
  }

  lemma {:induction false} NormalPieces(s: string, op: string)
    requires Normal(s) && IsOperator(op)
    ensures Trimmed(Pieces(s, op)) == Pieces(s, op)
    ensures forall k | 0 <= k < |Pieces(s, op)| :: Normal(Pieces(s, op)[k])
    decreases |s|
  {
    hide Normal, IsOperator, Pieces, FirstTop, Trim, Trimmed;
    IsNonempty(op);
    var i := FirstTop(s, op, 0);
    PiecesUnfold(s, op, i);
    if i < |s| {
      NormalParts(s, op, i);
      var rest := s[i + |op|..];
      NormalPieces(rest, op);
      NormalTrim(s[..i]);
      TrimmedFirst(s[..i], Pieces(rest, op));
    } else {
      NormalTrim(s);
      TrimmedFirst(s, []);
      NoneTrimmed();
      assert [s] + [] == [s];
    }
  }

  lemma NoneTrimmed()
    ensures Trimmed([]) == []
  {
  }

  lemma NormalParts(s: string, op: string, i: nat)
    requires Normal(s) && IsOperator(op) && TopAt(s, op, i)
    ensures i + |op| <= |s| && Normal(s[..i]) && Normal(s[i + |op|..])
  {
    var j := i + |op|;
    assert s[i..j][0] == s[i] && s[i..j][|op| - 1] == s[j - 1];
    assert IsSpace(s[i]) && IsSpace(s[j - 1]);
    assert i > 0 && j < |s|;
    assert !IsSpace(s[i - 1]) && !IsSpace(s[j]) && !IsSpace(s[0]) && !IsSpace(s[|s| - 1]);
    assert s[..i] == s[0..i] && s[j..] == s[j..|s|];
    NormalSlice(s, 0, i);
    NormalSlice(s, j, |s|);
  }

  /** An enclosed text has no operator at the top level. */
  lemma EnclosedHasNoTop(s: string, op: string)
    requires Enclosed(s) && IsOperator(op)
    ensures NoTop(s, op)
  {
    forall i: nat | i < |s| ensures !TopAt(s, op, i) {
      if OccursAt(s, op, i) { assert s[i..i + |op|][0] == s[i]; }
    }
  }

  lemma {:induction false} ShapesAreEach(parts: seq<string>, bound: nat, keyword: bool)
    requires forall k | 0 <= k < |parts| :: |parts[k]| < bound
    ensures |ShapesOf(parts, bound, keyword)| == |parts|
    ensures forall k | 0 <= k < |parts| :: ShapesOf(parts, bound, keyword)[k] == ShapeOf(parts[k], keyword)
  {
    hide ShapeOf;
    if parts != [] { ShapesAreEach(parts[1..], bound, keyword); }
  }

  /** The shapes of the pieces of a text. */
  function PieceShapes(s: string, op: string): (shapes: seq<Shape>)
    requires IsOperator(op)
    ensures |shapes| == |Pieces(s, op)|
    ensures forall k | 0 <= k < |shapes| :: shapes[k] == ShapeOf(Pieces(s, op)[k], false)
  {
    seq(|Pieces(s, op)|, k requires 0 <= k < |Pieces(s, op)| => ShapeOf(Pieces(s, op)[k], false))
  }

  lemma ShapeOfEnclosed(s: string)
    requires Normal(s) && Enclosed(s)
    ensures BooleanShape(s) == BooleanShape(Trim(s[1..|s| - 1]))
  {
    hide Normal, Enclosed, Strip, Pieces, Trim, Normalize;
    EnclosedEnds(s);
    NormalTrim(s);
    StripUnfolds(s, s);
    var inner := Trim(s[1..|s| - 1]);
    NormalSubstring(s, 1, |s| - 1);
    NormalTrim(inner);
    SameExpression(s, inner, false);
  }

  lemma SameExpression(s: string, t: string, keyword: bool)
    requires Expression(s, keyword) == Expression(t, keyword)
    ensures ShapeOf(s, keyword) == ShapeOf(t, keyword)
  {
    hide Expression, Pieces, Trimmed, Compact;
    OperatorsAreOperators();
    var e := Expression(s, keyword);
    PartsAreShorter(e, OR);
    PartsAreShorter(e, AND);
    if |Pieces(e, OR)| > 1 {
      SameShapes(Trimmed(Pieces(e, OR)), |s|, |t|, keyword);
    } else if |Pieces(e, AND)| > 1 {
      SameShapes(Trimmed(Pieces(e, AND)), |s|, |t|, keyword);
    }
  }

  lemma SameShapes(parts: seq<string>, m: nat, n: nat, keyword: bool)
    requires forall k | 0 <= k < |parts| :: |parts[k]| < m && |parts[k]| < n
    ensures ShapesOf(parts, m, keyword) == ShapesOf(parts, n, keyword)
  {
    hide ShapesOf;
    ShapesAreEach(parts, m, keyword);
    ShapesAreEach(parts, n, keyword);
  }

  /** On normal text that is not enclosed, the shape is that of the OR pieces, or else of the AND
      pieces, or else a leaf. */
  lemma ShapeOfOpen(s: string)
    requires Normal(s) && !Enclosed(s)
    requires IsOperator(OR) && IsOperator(AND)
    ensures |Pieces(s, OR)| > 1 ==> BooleanShape(s) == AnyOf(PieceShapes(s, OR))
    ensures |Pieces(s, OR)| == 1 && |Pieces(s, AND)| > 1 ==> BooleanShape(s) == AllOf(PieceShapes(s, AND))
    ensures |Pieces(s, OR)| == 1 && |Pieces(s, AND)| == 1 ==> BooleanShape(s) == Leaf(Compact(s))
  {
    hide Normal, Enclosed, Strip, Pieces, Trim, Normalize, Compact, Trimmed, ShapesOf, PieceShapes;
    NormalTrim(s);
    StripUnfolds(s, s);
    assert Expression(s, false) == s;
    NormalPieces(s, OR);
    NormalPieces(s, AND);
    PartsAreShorter(s, OR);
    PartsAreShorter(s, AND);
    if |Pieces(s, OR)| > 1 {
      ShapesAreEach(Pieces(s, OR), |s|, false);
      assert ShapesOf(Pieces(s, OR), |s|, false) == PieceShapes(s, OR);
    } else if |Pieces(s, AND)| > 1 {
      ShapesAreEach(Pieces(s, AND), |s|, false);
      assert ShapesOf(Pieces(s, AND), |s|, false) == PieceShapes(s, AND);
    }
  }

  // ---- Readings: the grammar, with any order of binary cuts ----

  /** How a text may be read: cut in two at some OR, else at some AND, else opened, else an atom. */
  datatype Reading =
    | OrAt(i: nat, left: Reading, right: Reading)
    | AndAt(i: nat, left: Reading, right: Reading)
    | Parens(inner: Reading)
    | Atom

  /** A top-level operator that no earlier one overlaps. */
  predicate Cut(s: string, op: string, i: nat) {
    TopAt(s, op, i) && NoTopIn(s, op, if i < |op| then 0 else i - |op| + 1, i)
  }

  ghost predicate Reads(r: Reading, s: string)
    decreases r
  {
    match r
    case OrAt(i, left, right) => Cut(s, OR, i) && Reads(left, s[..i]) && Reads(right, s[i + |OR|..])
    case AndAt(i, left, right) =>
      NoTop(s, OR) && Cut(s, AND, i) && Reads(left, s[..i]) && Reads(right, s[i + |AND|..])
    case Parens(inner) => Enclosed(s) && Reads(inner, Trim(s[1..|s| - 1]))
    case Atom => NoTop(s, OR) && NoTop(s, AND) && !Enclosed(s)
  }

  /** Quoted and parenthesised regions are opaque to it, and AND binds tighter than OR. */
  ghost function Meaning(r: Reading, s: string, v: Valuation): Truth
    requires Reads(r, s)
    decreases r
  {
    match r
    case OrAt(i, left, right) => Or(Meaning(left, s[..i], v), Meaning(right, s[i + |OR|..], v))
    case AndAt(i, left, right) => And(Meaning(left, s[..i], v), Meaning(right, s[i + |AND|..], v))
    case Parens(inner) => Meaning(inner, Trim(s[1..|s| - 1]), v)
    case Atom => v(Compact(s))
  }

  lemma OnePiece(s: string, op: string)
    requires IsOperator(op)
    ensures NoTop(s, op) ==> Pieces(s, op) == [s]
    ensures !NoTop(s, op) ==> |Pieces(s, op)| > 1
  {
    hide IsOperator, TopAt;
    IsNonempty(op);
    var i := FirstTop(s, op, 0);
    PiecesUnfold(s, op, i);
  }

  /** The cut at any top-level operator that no earlier one overlaps divides the pieces. */
  lemma {:induction false} CutDividesPieces(s: string, op: string, i: nat)
    requires IsOperator(op) && Cut(s, op, i)
    ensures i + |op| <= |s| && Pieces(s, op) == Pieces(s[..i], op) + Pieces(s[i + |op|..], op)
    decreases |s|
  {
    hide IsOperator, TopAt, Pieces, At, FirstTop, Neutral;
    IsNonempty(op);
    TopParts(s, op, i);
    var f := FirstTop(s, op, 0);
    PiecesUnfold(s, op, f);
    if f == i {
      LeftHasNoTop(s, op, i);
      OnePiece(s[..i], op);
    } else {
      FirstBefore(s, op, f, i);
      var n := f + |op|;
      PastTop(s, op, f);
      CutInRest(s, op, n, i);
      CutDividesPieces(s[n..], op, i - n);
      assert s[n..][..i - n] == s[..i][n..];
      assert s[n..][i - n + |op|..] == s[i + |op|..];
      LeftKeepsFirst(s, op, f, i);
      PiecesUnfold(s[..i], op, f);
      assert s[..i][..f] == s[..f];
    }
  }

  lemma LeftHasNoTop(s: string, op: string, i: nat)
    requires i <= |s| && NoTopIn(s, op, 0, i)
    ensures NoTop(s[..i], op)
  {
    forall k: nat | k < i ensures !TopAt(s[..i], op, k) {
      if k + |op| <= i { TopInPrefix(s, i, op, k); }
    }
  }

  lemma FirstBefore(s: string, op: string, f: nat, i: nat)
    requires op != "" && f == FirstTop(s, op, 0) && Cut(s, op, i) && f != i && i < |s|
    ensures f + |op| <= i
  {
    hide TopAt;
    assert !TopAt(s, op, f) || f < |s|;
  }

  lemma CutInRest(s: string, op: string, n: nat, i: nat)
    requires op != "" && n <= i <= |s| && At(s, n) == START && Cut(s, op, i)
    ensures Cut(s[n..], op, i - n)
  {
    hide TopAt, At;
    TopInRest(s, op, n, i - n);
    forall k: nat | k < i - n && i - n < k + |op| ensures !TopAt(s[n..], op, k) {
      TopInRest(s, op, n, k);
    }
  }

  lemma LeftKeepsFirst(s: string, op: string, f: nat, i: nat)
    requires op != "" && f == FirstTop(s, op, 0) && f + |op| <= i <= |s|
    ensures FirstTop(s[..i], op, 0) == f
  {
    hide TopAt;
    forall k: nat | k <= f ensures TopAt(s[..i], op, k) <==> TopAt(s, op, k) {
      TopInPrefix(s, i, op, k);
    }
    FirstTopIs(s[..i], op, f);
  }

  lemma ValueByOr(s: string, v: Valuation)
    requires Normal(s) && IsOperator(OR) && IsOperator(AND)
    ensures Value(BooleanShape(s), v) == AnyValue(PieceShapes(s, OR), v)
  {
    hide Normal, Enclosed, Pieces, PieceShapes, ShapeOf, BooleanShape;
    if Enclosed(s) { EnclosedHasNoTop(s, OR); } else { ShapeOfOpen(s); }
    OnePiece(s, OR);
    if NoTop(s, OR) { SingleShape(s, OR, v); }
  }

  lemma SingleShape(s: string, op: string, v: Valuation)
    requires IsOperator(op) && Pieces(s, op) == [s]
    ensures AnyValue(PieceShapes(s, op), v) == Value(BooleanShape(s), v)
    ensures AllValue(PieceShapes(s, op), v) == Value(BooleanShape(s), v)
  {
    hide Value, AnyValue, AllValue, ShapeOf, Pieces, PieceShapes;
    assert PieceShapes(s, op) == [ShapeOf(s, false)];
    ValueOfOne(ShapeOf(s, false), v);
  }

  lemma ValueOfOne(x: Shape, v: Valuation)
    ensures AnyValue([x], v) == Value(x, v) && AllValue([x], v) == Value(x, v)
  {
    hide Value;
    assert [x][1..] == [];
  }

  lemma ValueByAnd(s: string, v: Valuation)
    requires Normal(s) && NoTop(s, OR) && IsOperator(OR) && IsOperator(AND)
    ensures Value(BooleanShape(s), v) == AllValue(PieceShapes(s, AND), v)
  {
    hide Normal, Enclosed, Pieces, PieceShapes, ShapeOf, BooleanShape, NoTop;
    if Enclosed(s) { EnclosedHasNoTop(s, AND); } else { ShapeOfOpen(s); }
    OnePiece(s, OR);
    OnePiece(s, AND);
    if NoTop(s, AND) { SingleShape(s, AND, v); }
  }

  lemma PieceShapesDivide(s: string, op: string, i: nat)
    requires IsOperator(op) && Cut(s, op, i)
    ensures i + |op| <= |s|
    ensures PieceShapes(s, op) == PieceShapes(s[..i], op) + PieceShapes(s[i + |op|..], op)
  {
    hide IsOperator, Cut, Pieces, PieceShapes, ShapeOf;
    CutDividesPieces(s, op, i);
  }

  lemma HalvesHaveNoTop(s: string, op: string, at: string, i: nat)
    requires IsOperator(at) && TopAt(s, at, i) && NoTop(s, op)
    ensures i + |at| <= |s| && NoTop(s[..i], op) && NoTop(s[i + |at|..], op)
  {
    hide TopAt, IsOperator, At;
    PastTop(s, at, i);
    LeftHasNoTop(s, op, i);
    var n := i + |at|;
    forall k: nat | k < |s| - n ensures !TopAt(s[n..], op, k) { TopInRest(s, op, n, k); }
  }

  /** However a normal text is read, its meaning is the value of the shape the migrations compare. */
  lemma {:induction false} ReadingsAgree(r: Reading, s: string, v: Valuation)
    requires Normal(s) && Reads(r, s)
    ensures Meaning(r, s, v) == Value(BooleanShape(s), v)
    decreases r
  {
    hide Normal, Enclosed, TopAt, NoTop, NoTopIn, BooleanShape, PieceShapes, Trim, Compact;
    OperatorsAreOperators();
    match r
    case OrAt(i, left, right) =>
      NormalParts(s, OR, i);
      var rest := s[i + |OR|..];
      ReadingsAgree(left, s[..i], v);
      ReadingsAgree(right, rest, v);
      PieceShapesDivide(s, OR, i);
      ValueByOr(s, v);
      ValueByOr(s[..i], v);
      ValueByOr(rest, v);
      AnyValueConcat(PieceShapes(s[..i], OR), PieceShapes(rest, OR), v);
    case AndAt(i, left, right) =>
      NormalParts(s, AND, i);
      var rest := s[i + |AND|..];
      HalvesHaveNoTop(s, OR, AND, i);
      ReadingsAgree(left, s[..i], v);
      ReadingsAgree(right, rest, v);
      PieceShapesDivide(s, AND, i);
      ValueByAnd(s, v);
      ValueByAnd(s[..i], v);
      ValueByAnd(rest, v);
      AllValueConcat(PieceShapes(s[..i], AND), PieceShapes(rest, AND), v);
    case Parens(inner) =>
      EnclosedEnds(s);
      NormalSubstring(s, 1, |s| - 1);
      ShapeOfEnclosed(s);
      ReadingsAgree(inner, Trim(s[1..|s| - 1]), v);
    case Atom =>
      ShapeOfOpen(s);
      OnePiece(s, OR);
      OnePiece(s, AND);
  }

  /** Every normal text can be read: cut at its first operator. */
  lemma {:induction false} EveryTextReads(s: string) returns (r: Reading)
    requires Normal(s)
    ensures Reads(r, s)
    decreases |s|
  {
    hide Normal, TopAt, Trim, IsOperator;
    OperatorsAreOperators();
    var i, j := FirstTop(s, OR, 0), FirstTop(s, AND, 0);
    if i < |s| {
      NormalParts(s, OR, i);
      var left := EveryTextReads(s[..i]);
      var right := EveryTextReads(s[i + |OR|..]);
      r := OrAt(i, left, right);
    } else if j < |s| {
      NormalParts(s, AND, j);
      var left := EveryTextReads(s[..j]);
      var right := EveryTextReads(s[j + |AND|..]);
      r := AndAt(j, left, right);
    } else if Enclosed(s) {
      EnclosedEnds(s);
      NormalSubstring(s, 1, |s| - 1);
      var inner := EveryTextReads(Trim(s[1..|s| - 1]));
      r := Parens(inner);
    } else {
      r := Atom;
    }
  }
}
