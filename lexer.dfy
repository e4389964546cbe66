/** The scanning cursor of the JSON tokenizer (tokenizer/tokenizer.go).

    A `Tokenizer` holds the input text, a byte offset into it and the byte at
    that offset (0 once the offset is past the end). The only things it does
    are advancing by one byte, skipping spaces, tabs and newlines, and walking
    the cursor to the end of the input; it builds no token.
 */
module Lexer {
  import opened Tokens

  const Space: byte := 0x20
  const Tab: byte := 0x09
  const Newline: byte := 0x0A
  const CarriageReturn: byte := 0x0D

  datatype Option<T> = None | Some(value: T)

  /** Go's `error` value, reduced to its message. */
  datatype Error = Error(message: string)

  /** The bytes the tokenizer skips; carriage return is not among them. */
  predicate IsWhitespace(b: byte) {
    b == Space || b == Tab || b == Newline
  }

  /** The lookahead byte for offset `p`: the byte there, or 0 past the end. */
  function CharAt(s: seq<byte>, p: nat): byte {
    if p < |s| then s[p] else 0
  }

  /** Where skipping whitespace from `p` stops: the first offset at or after `p`
      whose lookahead byte is not whitespace. */
  function WhitespaceEnd(s: seq<byte>, p: nat): (e: nat)
    ensures p <= e
    ensures p <= |s| ==> e <= |s|
    ensures |s| <= p ==> e == p
    ensures forall i :: p <= i < e ==> i < |s| && IsWhitespace(s[i])
    ensures !IsWhitespace(CharAt(s, e))
    decreases |s| - p
  {
    if p < |s| && IsWhitespace(s[p]) then WhitespaceEnd(s, p + 1) else p
  }

  /** Where `GetNextToken`'s loop leaves the cursor when it starts at `p`: while
      inside the input, skip whitespace, then step one byte. */
  function ScanEnd(s: seq<byte>, p: nat): (e: nat)
    ensures |s| <= e
    ensures p <= e
    decreases |s| - p
  {
    if p < |s| then ScanEnd(s, WhitespaceEnd(s, p) + 1) else p
  }

  /** The loop of `GetNextToken` stops exactly at the end of the input, or one
      past it when the input ends in whitespace (the last skip reaches the end
      and the following step goes beyond it); it does not move a cursor that is
      already at or past the end. */
  lemma {:induction false} ScanEndClosedForm(s: seq<byte>, p: nat)
    ensures ScanEnd(s, p) ==
      if |s| <= p then p
      else if IsWhitespace(s[|s| - 1]) then |s| + 1
      else |s|
    decreases |s| - p
  {
    if p < |s| {
      var e := WhitespaceEnd(s, p);
      if e == |s| {
        assert IsWhitespace(s[|s| - 1]);
      } else if e + 1 < |s| {
        ScanEndClosedForm(s, e + 1);
      }
    }
  }

  /** Skipping stops at carriage return: it is not whitespace to the tokenizer. */
  lemma CarriageReturnStops(s: seq<byte>, p: nat)
    requires CharAt(s, p) == CarriageReturn
    ensures WhitespaceEnd(s, p) == p
  {
  }

  /** The scanning cursor: the input, the offset of the next byte to read, and
      that byte (0 past the end). */
  class Tokenizer {
    var input: seq<byte>
    var position: nat
    var currentChar: byte

    /** The lookahead byte is the byte at the offset, or 0 past the end. */
    ghost predicate Valid()
      reads this
    {
      currentChar == CharAt(input, position)
    }

    /** `NewTokenizer`: the cursor at offset 0. Go reads `input[0]` here, so an
        empty input is outside what the source admits. */
    constructor (input: seq<byte>)
      requires |input| > 0
      ensures this.input == input
      ensures position == 0 && currentChar == input[0]
      ensures Valid()
    {
      this.input := input;
      position := 0;
      currentChar := input[0];
    }

    /** `moveNext`: advance one byte and reload the lookahead byte. */
    method MoveNext()
      modifies this
      ensures input == old(input)
      ensures position == old(position) + 1
      ensures currentChar == (if position < |input| then input[position] else 0)
      ensures Valid()
    {
      position := position + 1;
      if position < |input| {
        currentChar := input[position];
      } else {
        currentChar := 0;
      }
    }

    /** `skipWhitespace`: step over spaces, tabs and newlines. */
    method SkipWhitespace()
      requires Valid()
      modifies this
      ensures Valid() && input == old(input)
      ensures position == WhitespaceEnd(input, old(position))
      ensures old(position) <= position
      ensures old(position) <= |input| ==> position <= |input|
      ensures forall i :: old(position) <= i < position ==> i < |input| && IsWhitespace(input[i])
      ensures !IsWhitespace(currentChar)
    {
      while IsWhitespace(currentChar)
        invariant Valid() && input == old(input)
        invariant old(position) <= position
        invariant WhitespaceEnd(input, position) == WhitespaceEnd(input, old(position))
        decreases |input| - position
      {
        MoveNext();
      }
    }

    /** `GetNextToken`: walk the cursor to the end of the input and report
        neither a token nor an error, which the caller reads as end of input. */
    method GetNextToken() returns (token: Option<Token>, err: Option<Error>)
      requires Valid()
      modifies this
      ensures Valid() && input == old(input)
      ensures token == None && err == None
      ensures position == ScanEnd(input, old(position))
      ensures |input| <= position && currentChar == 0
      ensures old(position) < |input| ==>
        position == if IsWhitespace(input[|input| - 1]) then |input| + 1 else |input|
      ensures |input| <= old(position) ==> position == old(position) && currentChar == old(currentChar)
    {
      while position < |input|
        invariant Valid() && input == old(input)
        invariant ScanEnd(input, position) == ScanEnd(input, old(position))
        decreases |input| - position
      {
        SkipWhitespace();
        MoveNext();
      }
      ScanEndClosedForm(input, old(position));
      token, err := None, None;
    }
  }
}
