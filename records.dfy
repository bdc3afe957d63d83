/** The records in which both scanners' specifications describe their work:
    one pass of a loop and a whole scan. */
module ScanRecords {
  import opened LoxTokens

  /** The effect of one pass of a scanner's loop that starts at some offset:
      where the cursor ends, the line counter afterwards, and the token the
      pass appended, if any. */
  datatype Pass = Pass(cursor: nat, line: int, emitted: seq<Token>)

  /** The tokens of a whole scan, with the offset where each lexeme starts. */
  datatype Scanned = Scanned(tokens: seq<Token>, starts: seq<nat>)

  /** The end-of-input token: empty lexeme, empty literal. */
  function EofToken(line: int): Token
  {
    Token(Eof, "", Str(""), line)
  }

  lemma AppendAssoc<T>(a: seq<T>, b: seq<T>, c: seq<T>)
    ensures (a + b) + c == a + (b + c)
  {
  }
}
