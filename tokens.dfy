/** The tokens the WGSL parser consumes. The lexer itself is not part of this model:
    its output is taken as a given sequence of tokens, each with a type and the
    identifier text or literal value the lexer attached to it. */
module Tokens {

  /** The token types the parser inspects; every other type the lexer can
      produce (operators the parser does not handle yet, invalid input) is `Other`. */
  datatype TokenType =
    | EndOfFile
    | Other
    | Attribute        // '@'
    | Identifier
    | IntegerLiteral
    | IntegerLiteralSigned
    | IntegerLiteralUnsigned
    | DecimalFloatLiteral
    | HexFloatLiteral
    | LiteralTrue
    | LiteralFalse
    | ParenLeft
    | ParenRight
    | BraceLeft
    | BraceRight
    | BracketLeft
    | BracketRight
    | LT
    | GT
    | Comma
    | Colon
    | Semicolon
    | Equal
    | Period
    | Arrow
    | Minus
    | KeywordStruct
    | KeywordVar
    | KeywordFn
    | KeywordType
    | KeywordArray
    | KeywordI32
    | KeywordF32
    | KeywordU32
    | KeywordBool
    | KeywordFunction
    | KeywordPrivate
    | KeywordWorkgroup
    | KeywordUniform
    | KeywordStorage
    | KeywordRead
    | KeywordWrite
    | KeywordReadWrite
    | KeywordReturn

  /** A lexed token: its type, the identifier text (for identifiers) and the
      literal value (for numeric literals; float values are kept as an opaque
      natural number). */
  datatype Token = Token(kind: TokenType, ident: string, literalValue: nat)

  /** The token the lexer hands out once its input is exhausted, as often as it is asked. */
  const EndOfFileToken := Token(EndOfFile, "", 0)

  /** A token of the given type with no payload. */
  function Tok(kind: TokenType): Token
  {
    Token(kind, "", 0)
  }

  function IdentToken(name: string): Token
  {
    Token(Identifier, name, 0)
  }

  function IntegerToken(value: nat): Token
  {
    Token(IntegerLiteral, "", value)
  }
}
