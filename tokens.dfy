/** Token kinds and tokens of the JSON tokenizer (tokenizer/token.go).

    `TokenType` is a Go `int` with ten named constants declared with `iota`,
    so it is modelled as an integer type of Go's 64-bit `int` range and ten
    constants, not as a closed datatype: any other value of the type exists
    and `Name` (Go's `String()` method) has to answer for it too.
 */
module Tokens {

  /** A byte; Go strings are byte sequences, and the tokenizer indexes them byte by byte. */
  newtype byte = b: int | 0 <= b < 0x100

  /** Go's `int` on a 64-bit platform. */
  newtype TokenType = t: int | -0x8000_0000_0000_0000 <= t < 0x8000_0000_0000_0000

  const ObjectStart: TokenType := 0
  const ObjectEnd: TokenType := 1
  const ArrayStart: TokenType := 2
  const ArrayEnd: TokenType := 3
  const String: TokenType := 4
  const Number: TokenType := 5
  const Colon: TokenType := 6
  const Comma: TokenType := 7
  const Boolean: TokenType := 8
  const Null: TokenType := 9

  /** The ten constants in the order of their declaration. */
  const Declared: seq<TokenType> :=
    [ObjectStart, ObjectEnd, ArrayStart, ArrayEnd, String, Number, Colon, Comma, Boolean, Null]

  /** The identifiers of the ten constants, in the same order. */
  const Identifiers: seq<string> :=
    ["ObjectStart", "ObjectEnd", "ArrayStart", "ArrayEnd", "String",
     "Number", "Colon", "Comma", "Boolean", "Null"]

  /** A token: the bytes it was scanned from and its kind, nothing else. */
  datatype Token = Token(value: seq<byte>, tokenType: TokenType)

  /** The values that are one of the declared constants. */
  predicate IsDeclared(t: TokenType) {
    ObjectStart <= t <= Null
  }

  /** The declared constants that `Name` has a case for; `ArrayEnd` has none. */
  predicate IsNamed(t: TokenType) {
    IsDeclared(t) && t != ArrayEnd
  }

  /** Go's `TokenType.String()`: one case per named constant, "Unknown" otherwise.
      `Number` is spelled in lower case and `ArrayEnd` has no case. */
  function Name(t: TokenType): (s: string)
    ensures s == "Unknown" <==> !IsNamed(t)
    ensures |s| > 0
  {
    if t == ObjectStart then "ObjectStart"
    else if t == ObjectEnd then "ObjectEnd"
    else if t == ArrayStart then "ArrayStart"
    else if t == String then "String"
    else if t == Number then "number"
    else if t == Colon then "Colon"
    else if t == Comma then "Comma"
    else if t == Boolean then "Boolean"
    else if t == Null then "Null"
    else "Unknown"
  }

  /** The constants take the consecutive values 0 through 9 in declaration order,
      and nothing else is declared. */
  lemma DeclaredAreConsecutive()
    ensures |Declared| == 10
    ensures forall i :: 0 <= i < |Declared| ==> Declared[i] as int == i
    ensures forall t :: IsDeclared(t) <==> t in Declared
  {
  }

  /** `Name` spells each constant as its identifier, with the two exceptions of the
      source: `ArrayEnd` is "Unknown" and `Number` is "number". */
  lemma NameAgreesWithIdentifiers(i: nat)
    requires i < |Declared|
    ensures Declared[i] == ArrayEnd ==> Name(Declared[i]) == "Unknown" != Identifiers[i]
    ensures Declared[i] == Number ==> Name(Declared[i]) == "number" != Identifiers[i]
    ensures Declared[i] != ArrayEnd && Declared[i] != Number ==> Name(Declared[i]) == Identifiers[i]
  {
  }

  /** Every value outside the declared range is named "Unknown". */
  lemma NameOutsideRange(t: TokenType)
    requires t < ObjectStart || Null < t
    ensures Name(t) == "Unknown"
  {
  }

  /** The nine named constants have pairwise distinct names. */
  lemma NamesDistinct(a: TokenType, b: TokenType)
    requires IsNamed(a) && IsNamed(b) && a != b
    ensures Name(a) != Name(b)
  {
  }

  /** A token is determined by its value and its kind. */
  lemma TokenIsPair(x: Token, y: Token)
    ensures x == y <==> x.value == y.value && x.tokenType == y.tokenType
  {
  }
}
