// The byte-cursor lexer of internal/lexer/lexer.go. The class keeps the
// source's three cursor fields; the function Scan says, for every cursor
// position, which token NextToken returns and where the cursor ends up, and
// the lemmas below state the lexer's guarantees in terms of Scan.

module Lexer {
  import opened Token

  /** The byte under a cursor; 0 past the end of the input (readChar, peekChar). */
  function ByteAt(input: seq<byte>, i: nat): byte
  {
    if i < |input| then input[i] else 0
  }

  // unicode.IsLetter, unicode.IsNumber and unicode.IsSpace applied to
  // rune(b) for a byte b: the Latin-1 rows of Go's Unicode tables.

  predicate IsLetter(b: byte)
    ensures IsLetter(b) ==> b != 0 && b != '_' as int && !('0' as int <= b <= '9' as int)
  {
    'A' as int <= b <= 'Z' as int || 'a' as int <= b <= 'z' as int
    || b == 0xAA || b == 0xB5 || b == 0xBA
    || 0xC0 <= b <= 0xD6 || 0xD8 <= b <= 0xF6 || 0xF8 <= b
  }

  predicate IsNumber(b: byte)
    ensures IsNumber(b) ==> b != 0 && !IsLetter(b)
    ensures b < 0x80 ==> (IsNumber(b) <==> '0' as int <= b <= '9' as int)
  {
    '0' as int <= b <= '9' as int
    || b == 0xB2 || b == 0xB3 || b == 0xB9 || 0xBC <= b <= 0xBE
  }

  predicate IsSpace(b: byte)
    ensures IsSpace(b) ==> b != 0 && !IsLetter(b) && !IsNumber(b)
  {
    9 <= b <= 13 || b == 32 || b == 0x85 || b == 0xA0
  }

  const Quote: byte := '"' as int

  /** The three kinds of run the lexer's loops consume. */
  datatype Run = Spaces | IdentBytes | Digits

  predicate InRun(r: Run, b: byte)
  {
    match r
    case Spaces => IsSpace(b)
    case IdentBytes => IsLetter(b) || b == '_' as int
    case Digits => IsNumber(b)
  }

  /** Where a maximal run of kind r that starts at i ends. */
  function RunEnd(input: seq<byte>, i: nat, r: Run): (j: nat)
    ensures i <= j
    ensures i <= |input| ==> j <= |input|
    ensures forall k :: i <= k < j ==> k < |input| && InRun(r, input[k])
    ensures !InRun(r, ByteAt(input, j))
    decreases |input| - i
  {
    if i < |input| && InRun(r, input[i]) then RunEnd(input, i + 1, r) else i
  }

  /** Where a string literal whose body starts at i ends: the first quote or
      zero byte at or after i, or the end of the input. */
  function StringEnd(input: seq<byte>, i: nat): (j: nat)
    requires i <= |input|
    ensures i <= j <= |input|
    ensures forall k :: i <= k < j ==> input[k] != Quote && input[k] != 0
    ensures j < |input| ==> input[j] == Quote || input[j] == 0
    decreases |input| - i
  {
    if i == |input| || input[i] == Quote || input[i] == 0 then i else StringEnd(input, i + 1)
  }

  /** string(b) for a byte b: the UTF-8 encoding of the code point b. */
  function RuneBytes(b: byte): (s: seq<byte>)
    ensures b < 0x80 ==> s == [b]
    ensures b >= 0x80 ==> |s| == 2 && s[0] >= 0xC0 && 0x80 <= s[1] < 0xC0
    ensures b >= 0x80 ==> (s[0] as int - 0xC0) * 64 + (s[1] as int - 0x80) == b
  {
    if b < 0x80 then [b] else [0xC0 + b / 64, 0x80 + b % 64]
  }

  /** The token that starts after skipping whitespace at p. */
  function TokenStart(input: seq<byte>, p: nat): nat
  {
    RunEnd(input, p, Spaces)
  }

  /** What NextToken returns with the cursor at p, and the cursor after it. */
  function Scan(input: seq<byte>, p: nat): (r: (Token, nat))
    ensures r.1 > p
    ensures r.0.tokenType != Eof ==> p < |input| && r.1 <= |input| + 1
  {
    var q := TokenStart(input, p);
    var c := ByteAt(input, q);
    if c == '=' as int then
      if ByteAt(input, q + 1) == '>' as int then (Token(Def, Bytes("=>")), q + 2)
      else (Token(Eq, RuneBytes(c)), q + 1)
    else if c == '>' as int then (Token(Gt, RuneBytes(c)), q + 1)
    else if c == '{' as int then (Token(LBrace, RuneBytes(c)), q + 1)
    else if c == '}' as int then (Token(RBrace, RuneBytes(c)), q + 1)
    else if c == ':' as int then (Token(Colon, RuneBytes(c)), q + 1)
    else if c == ',' as int then (Token(Comma, RuneBytes(c)), q + 1)
    else if c == Quote then
      var e := StringEnd(input, q + 1);
      (Token(String, input[q + 1..e]), e + 1)
    else if c == 0 then (Token(Eof, RuneBytes(0)), q + 1)
    else if IsLetter(c) then
      var e := RunEnd(input, q, IdentBytes);
      (Token(LookupIdent(input[q..e]), input[q..e]), e)
    else if IsNumber(c) then
      var e := RunEnd(input, q, Digits);
      (Token(Int, input[q..e]), e)
    else (Token(Illegal, RuneBytes(c)), q + 1)
  }

  class Lexer {
    const input: seq<byte>
    var position: nat
    var readPosition: nat
    var ch: byte

    /** The cursor invariant: ch is the byte at position, which trails
        readPosition by one. */
    ghost predicate Valid()
      reads this
    {
      readPosition == position + 1 && ch == ByteAt(input, position)
    }

    /** lexer.New: the cursor on the first byte. */
    constructor New(input: seq<byte>)
      ensures Valid() && this.input == input
      ensures position == 0 && readPosition == 1
      ensures ch == if |input| > 0 then input[0] else 0
    {
      this.input := input;
      position, readPosition, ch := 0, 0, 0;
      new;
      ReadChar();
    }

    method ReadChar()
      modifies this
      ensures position == old(readPosition) && readPosition == old(readPosition) + 1
      ensures ch == ByteAt(input, old(readPosition))
      ensures Valid()
    {
      if readPosition >= |input| {
        ch := 0;
      } else {
        ch := input[readPosition];
      }
      position := readPosition;
      readPosition := readPosition + 1;
    }

    /** atEOF: no byte is left at readPosition, so the byte read there is 0. */
    predicate AtEof()
      reads this
      ensures AtEof() ==> ByteAt(input, readPosition) == 0
      ensures !AtEof() ==> ByteAt(input, readPosition) == input[readPosition]
    {
      readPosition >= |input|
    }

    /** The byte after the cursor, without moving it. */
    method PeekChar() returns (b: byte)
      ensures b == ByteAt(input, readPosition)
    {
      if AtEof() {
        return 0;
      }
      return input[readPosition];
    }

    method SkipWhitespace()
      requires Valid()
      modifies this
      ensures Valid() && position == RunEnd(input, old(position), Spaces)
    {
      while IsSpace(ch)
        invariant Valid()
        invariant RunEnd(input, position, Spaces) == RunEnd(input, old(position), Spaces)
        decreases |input| - position
      {
        ReadChar();
      }
    }

    method ReadIdentifier() returns (literal: seq<byte>)
      requires Valid() && position <= |input|
      modifies this
      ensures Valid() && position == RunEnd(input, old(position), IdentBytes)
      ensures literal == input[old(position)..position]
    {
      var pos := position;
      while IsLetter(ch) || ch == '_' as int
        invariant Valid() && pos <= position <= |input|
        invariant RunEnd(input, position, IdentBytes) == RunEnd(input, pos, IdentBytes)
        decreases |input| - position
      {
        ReadChar();
      }
      literal := input[pos..position];
    }

    method ReadNumber() returns (literal: seq<byte>)
      requires Valid() && position <= |input|
      modifies this
      ensures Valid() && position == RunEnd(input, old(position), Digits)
      ensures literal == input[old(position)..position]
    {
      var pos := position;
      while IsNumber(ch)
        invariant Valid() && pos <= position <= |input|
        invariant RunEnd(input, position, Digits) == RunEnd(input, pos, Digits)
        decreases |input| - position
      {
        ReadChar();
      }
      literal := input[pos..position];
    }

    /** Reads the body of a string literal; the cursor stops on the closing
        quote, or on the zero byte or end of input that cut it short. */
    method ReadString() returns (literal: seq<byte>)
      requires Valid() && position < |input|
      modifies this
      ensures Valid() && position == StringEnd(input, old(position) + 1)
      ensures literal == input[old(position) + 1..position]
    {
      var pos := position + 1;
      ReadChar();
      while ch != Quote && ch != 0
        invariant Valid() && pos <= position <= |input|
        invariant StringEnd(input, position) == StringEnd(input, pos)
        decreases |input| - position
      {
        ReadChar();
      }
      literal := input[pos..position];
    }

    method NextToken() returns (tok: Token)
      requires Valid()
      modifies this
      ensures Valid()
      ensures (tok, position) == Scan(input, old(position))
    {
      SkipWhitespace();
      if ch == '=' as int {
        var next := PeekChar();
        if next == '>' as int {
          ReadChar();
          tok := Token(Def, Bytes("=>"));
        } else {
          tok := Token(Eq, RuneBytes(ch));
        }
      } else if ch == '>' as int {
        tok := Token(Gt, RuneBytes(ch));
      } else if ch == '{' as int {
        tok := Token(LBrace, RuneBytes(ch));
      } else if ch == '}' as int {
        tok := Token(RBrace, RuneBytes(ch));
      } else if ch == ':' as int {
        tok := Token(Colon, RuneBytes(ch));
      } else if ch == ',' as int {
        tok := Token(Comma, RuneBytes(ch));
      } else if ch == Quote {
        var literal := ReadString();
        tok := Token(String, literal);
      } else if ch == 0 {
        tok := Token(Eof, RuneBytes(0));
      } else if IsLetter(ch) {
        var literal := ReadIdentifier();
        tok := Token(LookupIdent(literal), literal);
        return;
      } else if IsNumber(ch) {
        var literal := ReadNumber();
        tok := Token(Int, literal);
        return;
      } else {
        tok := Token(Illegal, RuneBytes(ch));
      }
      ReadChar();
    }
  }

  // ----- Properties of the lexer, stated on Scan -----

  /** At (or past) the end of the input NextToken keeps returning EOF, and the
      cursor stays past the end. */
  lemma EofForever(input: seq<byte>, p: nat)
    requires p >= |input|
    ensures Scan(input, p).0 == Token(Eof, [0])
    ensures Scan(input, p).1 >= |input|
  {
  }

  /** "=>" is one DEF token and consumes both bytes; a lone '=' is EQ. */
  lemma DefOrEq(input: seq<byte>, p: nat)
    requires ByteAt(input, TokenStart(input, p)) == '=' as int
    ensures var (tok, next) := Scan(input, p);
      var q := TokenStart(input, p);
      if ByteAt(input, q + 1) == '>' as int
      then tok.tokenType == Def && tok.literal == input[q..q + 2] && next == q + 2
      else tok.tokenType == Eq && tok.literal == input[q..q + 1] && next == q + 1
  {
  }

  /** An identifier starts with a letter, is the maximal run of letters and
      underscores from there, and its type is LookupIdent of its text. */
  lemma Identifier(input: seq<byte>, p: nat)
    ensures var (tok, next) := Scan(input, p);
      var q := TokenStart(input, p);
      (tok.tokenType == Ident || tok.tokenType == Fn) <==> IsLetter(ByteAt(input, q))
    ensures var (tok, next) := Scan(input, p);
      var q := TokenStart(input, p);
      IsLetter(ByteAt(input, q)) ==>
        q < next <= |input| && tok.literal == input[q..next]
        && tok.tokenType == LookupIdent(tok.literal)
        && (forall k :: q <= k < next ==> IsLetter(input[k]) || input[k] == '_' as int)
        && !(IsLetter(ByteAt(input, next)) || ByteAt(input, next) == '_' as int)
  {
    var q := TokenStart(input, p);
    var c := ByteAt(input, q);
    if IsLetter(c) {
      assert !IsNumber(c) && c != Quote && c != 0;
    }
  }

  /** A number is the maximal run of digits, of type INT. */
  lemma Number(input: seq<byte>, p: nat)
    ensures var (tok, next) := Scan(input, p);
      var q := TokenStart(input, p);
      tok.tokenType == Int <==> !IsLetter(ByteAt(input, q)) && IsNumber(ByteAt(input, q))
    ensures var (tok, next) := Scan(input, p);
      var q := TokenStart(input, p);
      tok.tokenType == Int ==>
        q < next <= |input| && tok.literal == input[q..next]
        && (forall k :: q <= k < next ==> IsNumber(input[k]))
        && !IsNumber(ByteAt(input, next))
  {
    var (tok, next) := Scan(input, p);
    var q := TokenStart(input, p);
    var c := ByteAt(input, q);
    if IsLetter(c) {
      Identifier(input, p);
    }
  }

  /** A string literal is the text between the opening quote and the next
      quote, zero byte or end of input; the closing quote is consumed. */
  lemma StringLiteral(input: seq<byte>, p: nat)
    ensures var (tok, next) := Scan(input, p);
      tok.tokenType == String <==> ByteAt(input, TokenStart(input, p)) == Quote
    ensures var (tok, next) := Scan(input, p);
      var q := TokenStart(input, p);
      tok.tokenType == String ==>
        q < next - 1 <= |input| && tok.literal == input[q + 1..next - 1]
        && (forall k :: 0 <= k < |tok.literal| ==> tok.literal[k] != Quote && tok.literal[k] != 0)
        && (next - 1 == |input| || input[next - 1] == Quote || input[next - 1] == 0)
  {
  }

  /** Every token except EOF and ILLEGAL is spelled by bytes of the input:
      the bytes it consumed, or for a string the bytes between the quotes. */
  lemma LiteralFromInput(input: seq<byte>, p: nat)
    ensures var (tok, next) := Scan(input, p);
      var q := TokenStart(input, p);
      tok.tokenType != Eof && tok.tokenType != Illegal ==>
        q < next <= |input| + 1 &&
        if tok.tokenType == String then tok.literal == input[q + 1..next - 1]
        else next <= |input| && tok.literal == input[q..next]
  {
    Identifier(input, p);
    Number(input, p);
    StringLiteral(input, p);
  }

  /** An ILLEGAL byte of 0x80 or more comes back as its two-byte UTF-8 form,
      which is not a slice of the input. */
  lemma IllegalHighByte()
    ensures Scan([0x80], 0) == (Token(Illegal, [0xC2, 0x80]), 1)
  {
    assert TokenStart([0x80], 0) == 0;
  }
}
