/** The tokens of include/tasm/tasm_token.h as the lexer and the parser use them.

    The instruction kinds are named by their index in the lexer's spelling tables
    (`nop` = 0 … `hlt` = 29): the lexer turns the word at table index k into the
    k-th instruction token, and the parser's switch names those tokens one by one. */
module TasmToken {

  /** Number of instruction spellings in each of the lexer's two tables. */
  const INSTRUCTION_COUNT: nat := 30

  type OpIndex = k: nat | k < 30

  /** `token_type_t`. */
  datatype TokenKind =
    | NoToken           // TOKEN_NONE
    | Id
    | ProcWord          // TOKEN_PROC
    | EndpWord          // TOKEN_ENDP
    | Colon
    | Apost
    | Op(index: OpIndex)
    | Number
    | Comment
    | EndLine
    | Eof

  /** `tasm_token_t`; a NULL value (TOKEN_NONE) is the empty string. */
  datatype Token = Token(kind: TokenKind, value: string)

  const NO_TOKEN: Token := Token(NoToken, "")
  const EOF_TOKEN: Token := Token(Eof, "eof")
}
