/** The hex and boot-id recognisers that the receipt CHECKs build from nested REPLACE calls. */
module HexText {
  import opened ThreeValued

  const DIGITS := "0123456789abcdef"

  predicate IsHex(c: char) { '0' <= c <= '9' || 'a' <= c <= 'f' }

  /** REPLACE (s, c, '') for a single character. */
  function Remove(s: string, c: char): string {
    if s == "" then "" else if s[0] == c then Remove(s[1..], c) else [s[0]] + Remove(s[1..], c)
  }

  /** One REPLACE per digit, the first digit innermost. */
  function Stripped(s: string, digits: string): string {
    if digits == "" then s else Remove(Stripped(s, digits[..|digits| - 1]), digits[|digits| - 1])
  }

  /** The characters of s that are none of the digits, in order. */
  function Others(s: string, digits: string): string {
    if s == "" then "" else (if s[0] in digits then "" else [s[0]]) + Others(s[1..], digits)
  }

  lemma {:induction false} RemoveFromOthers(s: string, digits: string, c: char)
    ensures Remove(Others(s, digits), c) == Others(s, digits + [c])
  {
    if s != "" {
      RemoveFromOthers(s[1..], digits, c);
      var rest := Others(s[1..], digits);
      if s[0] !in digits {
        assert Others(s, digits) == [s[0]] + rest && ([s[0]] + rest)[1..] == rest;
      } else {
        assert Others(s, digits) == rest;
      }
    }
  }

  lemma {:induction false} StrippedIsOthers(s: string, digits: string)
    ensures Stripped(s, digits) == Others(s, digits)
  {
    if digits == "" {
      NothingRemoved(s);
    } else {
      var d := digits[..|digits| - 1];
      StrippedIsOthers(s, d);
      RemoveFromOthers(s, d, digits[|digits| - 1]);
      assert d + [digits[|digits| - 1]] == digits;
    }
  }

  lemma {:induction false} NothingRemoved(s: string)
    ensures Others(s, "") == s
  {
    if s != "" { NothingRemoved(s[1..]); }
  }

  lemma DigitsAreHex(c: char)
    ensures c in DIGITS <==> IsHex(c)
  {
    assert forall i | 0 <= i < 16 :: IsHex(DIGITS[i]);
    if '0' <= c <= '9' { assert DIGITS[c as int - '0' as int] == c; }
    if 'a' <= c <= 'f' { assert DIGITS[c as int - 'a' as int + 10] == c; }
  }

  predicate AllHex(s: string) { forall i | 0 <= i < |s| :: IsHex(s[i]) }

  lemma {:induction false} NoOthersIffHex(s: string)
    ensures Others(s, DIGITS) == "" <==> AllHex(s)
  {
    hide DIGITS;
    if s != "" {
      NoOthersIffHex(s[1..]);
      DigitsAreHex(s[0]);
      assert AllHex(s) <==> IsHex(s[0]) && AllHex(s[1..]) by {
        if AllHex(s[1..]) && IsHex(s[0]) {
          forall i | 0 <= i < |s| ensures IsHex(s[i]) { if i > 0 { assert s[i] == s[1..][i - 1]; } }
        }
      }
    }
  }

  lemma {:induction false} OthersConcat(a: string, b: string, digits: string)
    ensures Others(a + b, digits) == Others(a, digits) + Others(b, digits)
  {
    if a == "" {
      assert a + b == b;
    } else {
      OthersConcat(a[1..], b, digits);
      assert (a + b)[1..] == a[1..] + b;
    }
  }

  // ---- The two CHECK expressions ----

  function StrippedField(column: Nullable<string>): Nullable<string> {
    if column.Null? then Null else Is(Stripped(column.value, DIGITS))
  }

  function HexCheck(column: Nullable<string>, length: nat): Truth {
    And(LengthIs(column, length), Eq(StrippedField(column), Is("")))
  }

  /** SUBSTR (column, n, 1) = c, counting from 1. */
  function CharIs(column: Nullable<string>, n: nat, c: char): Truth
    requires n > 0
  {
    if column.Null? then Unknown else Of(n <= |column.value| && column.value[n - 1] == c)
  }

  function BootIdCheck(column: Nullable<string>): Truth {
    And(And(LengthIs(column, 36), And(CharIs(column, 9, '-'), CharIs(column, 14, '-'))),
    And(And(CharIs(column, 19, '-'), CharIs(column, 24, '-')),
        Eq(StrippedField(column), Is("----"))))
  }

  /** The hex CHECK is TRUE exactly on the lower-case hex strings of its length, and UNKNOWN only on NULL. */
  lemma HexCheckIff(column: Nullable<string>, length: nat)
    ensures HexCheck(column, length) == True <==>
            column.Is? && |column.value| == length && AllHex(column.value)
    ensures HexCheck(column, length) == Unknown <==> column.Null?
  {
    if column.Is? {
      StrippedIsOthers(column.value, DIGITS);
      NoOthersIffHex(column.value);
    }
    hide Stripped, Others, AllHex;
  }

  /** The form of section 3 of RFC 4122 in lower case: 8-4-4-4-12 hex digits. */
  predicate IsBootId(s: string) {
    && |s| == 36 && s[8] == '-' && s[13] == '-' && s[18] == '-' && s[23] == '-'
    && AllHex(s[..8]) && AllHex(s[9..13]) && AllHex(s[14..18]) && AllHex(s[19..23]) && AllHex(s[24..])
  }

  /** The boot-id CHECK counts what is left over: four hyphens in their places leave no room for any
      other character that is not hex. */
  lemma BootIdCheckIff(column: Nullable<string>)
    ensures BootIdCheck(column) == True <==> column.Is? && IsBootId(column.value)
    ensures BootIdCheck(column) == Unknown <==> column.Null?
  {
    hide Stripped, Others, AllHex, DIGITS;
    if column.Is? {
      var s := column.value;
      StrippedIsOthers(s, DIGITS);
      if |s| == 36 && s[8] == '-' && s[13] == '-' && s[18] == '-' && s[23] == '-' { HyphenatedIff(s); }
    }
  }

  lemma HyphenatedIff(s: string)
    requires |s| == 36 && s[8] == '-' && s[13] == '-' && s[18] == '-' && s[23] == '-'
    ensures Others(s, DIGITS) == "----" <==> IsBootId(s)
  {
    hide Others, AllHex, DIGITS;
    var a, b, c, d, e := s[..8], s[9..13], s[14..18], s[19..23], s[24..];
    var oa, ob, oc, od, oe :=
      Others(a, DIGITS), Others(b, DIGITS), Others(c, DIGITS), Others(d, DIGITS), Others(e, DIGITS);
    NoOthersIffHex(a);
    NoOthersIffHex(b);
    NoOthersIffHex(c);
    NoOthersIffHex(d);
    NoOthersIffHex(e);
    assert s[24..] == e;
    BehindHyphen(s, 19, 23);
    BehindHyphen(s, 14, 18);
    BehindHyphen(s, 9, 13);
    BehindHyphen(s, 0, 8);
    assert s[0..] == s && s[0..8] == a;
    var all := oa + ("-" + (ob + ("-" + (oc + ("-" + (od + ("-" + oe)))))));
    assert Others(s, DIGITS) == all;
    assert |all| == |oa| + |ob| + |oc| + |od| + |oe| + 4;
    if |all| == 4 { assert oa == "" && ob == "" && oc == "" && od == "" && oe == ""; assert all == "----"; }
  }

  lemma BehindHyphen(s: string, from: nat, to: nat)
    requires from <= to < |s| && s[to] == '-'
    ensures Others(s[from..], DIGITS) == Others(s[from..to], DIGITS) + ("-" + Others(s[to + 1..], DIGITS))
  {
    hide DIGITS;
    assert s[from..] == s[from..to] + s[to..];
    OthersConcat(s[from..to], s[to..], DIGITS);
    DigitsAreHex('-');
    assert s[to..][1..] == s[to + 1..];
  }
}
