// Token types of the filter/offset expression language and the keyword table
// (internal/token/token.go). The lexer also produces LBRACE, RBRACE, COLON,
// COMMA, STRING and INT, which token.go does not declare; they are added here
// with the text their names suggest.

module Token {

  /** A Go byte: Go strings are byte sequences. */
  type byte = b: int | 0 <= b < 256

  datatype TokenType =
    | Illegal | Eof | Ident | Eq | Gt | Def | Fn
    | LBrace | RBrace | Colon | Comma | String | Int

  /** The string value of each token.Type constant. */
  function Name(t: TokenType): string
  {
    match t
    case Illegal => "ILLEGAL"
    case Eof => "EOF"
    case Ident => "IDENT"
    case Eq => "="
    case Gt => ">"
    case Def => "=>"
    case Fn => "FN"
    case LBrace => "{"
    case RBrace => "}"
    case Colon => ":"
    case Comma => ","
    case String => "STRING"
    case Int => "INT"
  }

  /** No two token types share a string value. */
  lemma NamesDistinct(s: TokenType, t: TokenType)
    requires s != t
    ensures Name(s) != Name(t)
  {
  }

  datatype Token = Token(tokenType: TokenType, literal: seq<byte>)

  /** The bytes of an ASCII string. */
  function Bytes(s: string): (b: seq<byte>)
    requires forall i :: 0 <= i < |s| ==> s[i] as int < 128
    ensures |b| == |s|
    ensures forall i :: 0 <= i < |s| ==> b[i] == s[i] as int
  {
    if s == [] then [] else [s[0] as int as byte] + Bytes(s[1..])
  }

  const FnKeyword: seq<byte> := Bytes("fn")

  const Keywords: map<seq<byte>, TokenType> := map[FnKeyword := Fn]

  /** The type of an identifier: its keyword type, or IDENT. */
  function LookupIdent(ident: seq<byte>): (t: TokenType)
    ensures t == Fn <==> ident == FnKeyword
    ensures t == Ident <==> ident != FnKeyword
  {
    if ident in Keywords then Keywords[ident] else Ident
  }
}
