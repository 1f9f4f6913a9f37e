/** Three-valued truth as SQL defines it: the tables of section 8.12 of ISO/IEC 9075:1992,
    and the rule of section 4.10.2 that a CHECK is satisfied when it is not FALSE. */
module ThreeValued {

  datatype Truth = True | Unknown | False

  function Of(b: bool): Truth { if b then True else False }

  function Not(a: Truth): Truth {
    match a
    case True => False
    case Unknown => Unknown
    case False => True
  }

  function And(a: Truth, b: Truth): Truth {
    if a == False || b == False then False
    else if a == True && b == True then True
    else Unknown
  }

  function Or(a: Truth, b: Truth): Truth {
    if a == True || b == True then True
    else if a == False && b == False then False
    else Unknown
  }

  /** A CHECK admits a row unless it evaluates to FALSE. */
  predicate Admits(a: Truth) { a != False }

  /** A WHERE clause selects a row only when it evaluates to TRUE. */
  predicate Selects(a: Truth) { a == True }

  /** A column value that may be NULL. */
  datatype Nullable<+T> = Null | Is(value: T)

  function IsNull<T>(a: Nullable<T>): Truth { Of(a.Null?) }

  function IsNotNull<T>(a: Nullable<T>): Truth { Of(a.Is?) }

  function Eq<T(==)>(a: Nullable<T>, b: Nullable<T>): Truth {
    if a.Null? || b.Null? then Unknown else Of(a.value == b.value)
  }

  function Ne<T(==)>(a: Nullable<T>, b: Nullable<T>): Truth { Not(Eq(a, b)) }

  function In<T(==)>(a: Nullable<T>, values: set<T>): Truth {
    if a.Null? then Unknown else Of(a.value in values)
  }

  function AtLeast(a: Nullable<int>, b: Nullable<int>): Truth {
    if a.Null? || b.Null? then Unknown else Of(a.value >= b.value)
  }

  function Above(a: Nullable<int>, b: int): Truth {
    if a.Null? then Unknown else Of(a.value > b)
  }

  function LengthIs(a: Nullable<string>, n: nat): Truth {
    if a.Null? then Unknown else Of(|a.value| == n)
  }

  function LengthAbove(a: Nullable<string>, n: nat): Truth {
    if a.Null? then Unknown else Of(|a.value| > n)
  }
}
