/** The token kinds of the language (hephaestus.org/token.go). */
module Tokens {

  datatype TokenKind =
    // special tokens
    | Illegal | Eof | Ws
    // literals
    | Ident | Number | StringLiteral
    // punctuation and operators
    | Asterisk | Comma | OpenParenthesis | CloseParenthesis
    | OpenCurlyBracket | CloseCurlyBracket | Equals | Semicolon
    | Add | Sub | Equals2 | Lesser | LesserOrEquals | Greater | GreaterOrEquals
    // keywords
    | Void | Int | String | Boolean | True | False
}
