/** Whole scans of a few short sources, worked out pass by pass. */
module ScanSamples {
  import opened LoxTokens
  import opened Chars
  import opened ScanRecords
  import opened LoxScanner
  import opened PassProperties

  /** A two-character operator, a space that is dropped, and a word. */
  lemma ExampleOperator()
    ensures ScanFrom("!= b", 0, 1) == Ok(Scanned([Token(BangEqual, "!=", Str(""), 1),
      Token(Identifier, "b", Str("b"), 1), EofToken(1)], [0, 3, 4]))
  {
    var s := "!= b";
    var eof := Scanned([EofToken(1)], [4]);
    var b := Token(Identifier, "b", Str("b"), 1);
    var ne := Token(BangEqual, "!=", Str(""), 1);
    assert s[3..4] == "b";
    ScanEmit(s, 3, 1, b, 4, 1, eof);
    ScanSkip(s, 2, 1, 3, 1);
    assert s[0..2] == "!=";
    var r3 := Scanned([b] + eof.tokens, [3] + eof.starts);
    ScanEmit(s, 0, 1, ne, 2, 1, r3);
    assert [ne] + r3.tokens == [ne, b, EofToken(1)];
    assert [0] + r3.starts == [0, 3, 4];
  }

  /** A string spanning two lines: its token carries the line it ends on. */
  lemma ExampleString()
    ensures ScanFrom("\"a\nb\"", 0, 1) == Ok(Scanned([Token(String, "\"a\nb\"", Str("a\nb"), 2), EofToken(2)], [0, 5]))
  {
    var s := "\"a\nb\"";
    assert RunEnd(s, 1, Unquoted) == 4;
    assert Newlines(s, 1, 4) == 1;
    assert s[0..5] == "\"a\nb\"" && s[1..4] == "a\nb";
    var t := Token(String, "\"a\nb\"", Str("a\nb"), 2);
    ScanEmit(s, 0, 1, t, 5, 2, Scanned([EofToken(2)], [5]));
    assert [t] + [EofToken(2)] == [t, EofToken(2)];
    assert [0] + [5] == [0, 5];
  }

  /** A word that only starts with a keyword is an identifier. */
  lemma ExampleWord()
    ensures ScanFrom("whilee", 0, 1) == Ok(Scanned([Token(Identifier, "whilee", Str("whilee"), 1), EofToken(1)], [0, 6]))
  {
    var s := "whilee";
    assert s[0..6] == "whilee";
    ScanEmit(s, 0, 1, Token(Identifier, "whilee", Str("whilee"), 1), 6, 1, Scanned([EofToken(1)], [6]));
    assert [Token(Identifier, "whilee", Str("whilee"), 1)] + [EofToken(1)] == [Token(Identifier, "whilee", Str("whilee"), 1), EofToken(1)];
    assert [0] + [6] == [0, 6];
  }

  /** A reserved word gets its keyword kind and an empty literal. */
  lemma ExampleKeyword()
    ensures ScanFrom("while", 0, 1) == Ok(Scanned([Token(While, "while", Str(""), 1), EofToken(1)], [0, 5]))
  {
    var s := "while";
    assert s[0..5] == "while";
    ScanEmit(s, 0, 1, Token(While, "while", Str(""), 1), 5, 1, Scanned([EofToken(1)], [5]));
    assert [Token(While, "while", Str(""), 1)] + [EofToken(1)] == [Token(While, "while", Str(""), 1), EofToken(1)];
    assert [0] + [5] == [0, 5];
  }

  /** `==` is one EQUAL_EQUAL token, not two EQUAL tokens. */
  lemma ExampleEqualEqual()
    ensures ScanFrom("==", 0, 1) == Ok(Scanned([Token(EqualEqual, "==", Str(""), 1), EofToken(1)], [0, 2]))
  {
    var s := "==";
    assert s[0..2] == "==";
    var t := Token(EqualEqual, "==", Str(""), 1);
    ScanEmit(s, 0, 1, t, 2, 1, Scanned([EofToken(1)], [2]));
    assert [t] + [EofToken(1)] == [t, EofToken(1)];
    assert [0] + [2] == [0, 2];
  }

  /** Punctuation, then an `=` with nothing after it: LEFT_PAREN, EQUAL. */
  lemma ExamplePunctuation()
    ensures ScanFrom("(=", 0, 1) == Ok(Scanned([Token(LeftParen, "(", Str(""), 1),
      Token(Equal, "=", Str(""), 1), EofToken(1)], [0, 1, 2]))
  {
    var s := "(=";
    var eof := Scanned([EofToken(1)], [2]);
    var eq := Token(Equal, "=", Str(""), 1);
    var lp := Token(LeftParen, "(", Str(""), 1);
    assert s[1..2] == "=";
    ScanEmit(s, 1, 1, eq, 2, 1, eof);
    assert s[0..1] == "(";
    var r1 := Scanned([eq] + eof.tokens, [1] + eof.starts);
    ScanEmit(s, 0, 1, lp, 1, 1, r1);
    assert [lp] + r1.tokens == [lp, eq, EofToken(1)];
    assert [0] + r1.starts == [0, 1, 2];
  }

  /** Digits, a point and a digit make one NUMBER: the fraction is taken. */
  lemma ExampleFraction()
    ensures ScanFrom("1.5", 0, 1) == Ok(Scanned([Token(Number, "1.5", Num("1.5"), 1), EofToken(1)], [0, 3]))
  {
    var s := "1.5";
    assert RunEnd(s, 1, Digits) == 1;
    assert RunEnd(s, 2, Digits) == 3;
    assert NumberEnd(s, 1) == Some(3);
    assert s[0..3] == "1.5";
    var t := Token(Number, "1.5", Num("1.5"), 1);
    ScanEmit(s, 0, 1, t, 3, 1, Scanned([EofToken(1)], [3]));
    assert [t] + [EofToken(1)] == [t, EofToken(1)];
    assert [0] + [3] == [0, 3];
  }

  /** Digits and a final '.': `peekNext` reads past the end. */
  lemma ExamplePanic()
    ensures ScanFrom("123.", 0, 1) == Panics
  {
    var s := "123.";
    assert RunEnd(s, 3, Digits) == 3;
    assert RunEnd(s, 1, Digits) == 3;
  }

  /** A line comment with no newline after it: `comment` never returns. */
  lemma ExampleHang()
    ensures ScanFrom("//", 0, 1) == Hangs
  {
  }
}

/** Whole scans by the draft scanner of a few short sources. */
module DraftSamples {
  import opened LoxTokens
  import opened Chars
  import opened ScanRecords
  import opened DraftScanner
  import opened DraftProperties

  /** The word takes the parenthesis that ends it into its lexeme, and the
      parenthesis yields no token of its own. */
  lemma ExampleSwallow()
    ensures ScanFrom("a(", 0, 0) == Scanned([Token(Identifier, "a(", Str("a"), 0), EofToken(0)], [0, 2])
  {
    var s := "a(";
    assert RunEnd(s, 1, DraftAlphaNums) == 1;
    assert s[0..1] == "a" && s[0..2] == "a(";
    var t := Token(Identifier, "a(", Str("a"), 0);
    ScanEmit(s, 0, 0, t, 2, 0, Scanned([EofToken(0)], [2]));
    assert [t] + [EofToken(0)] == [t, EofToken(0)];
    assert [0] + [2] == [0, 2];
  }

  /** A keyword's literal is its text, and its lexeme holds the space after it. */
  lemma ExampleKeyword()
    ensures ScanFrom("or ", 0, 0) == Scanned([Token(Or, "or ", Str("or"), 0), EofToken(0)], [0, 3])
  {
    var s := "or ";
    assert RunEnd(s, 1, DraftAlphaNums) == 2;
    assert s[0..2] == "or" && s[0..3] == "or ";
    var t := Token(Or, "or ", Str("or"), 0);
    ScanEmit(s, 0, 0, t, 3, 0, Scanned([EofToken(0)], [3]));
    assert [t] + [EofToken(0)] == [t, EofToken(0)];
    assert [0] + [3] == [0, 3];
  }

  /** A word at the end of the source is lost. */
  lemma ExampleLostWord()
    ensures ScanFrom("ab", 0, 0) == Scanned([EofToken(0)], [2])
  {
    assert RunEnd("ab", 1, DraftAlphaNums) == 2;
    WordAtEndLost("ab", 0, 0);
  }

  /** Only one character of a comment is skipped; the rest is scanned. */
  lemma ExampleComment()
    ensures ScanFrom("//x+", 0, 0) == Scanned([Token(Plus, "+", Str(""), 0), EofToken(0)], [3, 4])
  {
    var s := "//x+";
    CommentSkipsOneCharacter(s, 0, 0);
    assert s[3..4] == "+";
    var t := Token(Plus, "+", Str(""), 0);
    ScanEmit(s, 3, 0, t, 4, 0, Scanned([EofToken(0)], [4]));
    assert [t] + [EofToken(0)] == [t, EofToken(0)];
    assert [3] + [4] == [3, 4];
  }

  /** A comma and a parenthesis: two one-character tokens. */
  lemma ExampleComma()
    ensures ScanFrom(",(", 0, 0) == Scanned([Token(Comma, ",", Str(""), 0), Token(LeftParen, "(", Str(""), 0), EofToken(0)], [0, 1, 2])
  {
    var s := ",(";
    assert s[0..1] == "," && s[1..2] == "(";
    var eof := Scanned([EofToken(0)], [2]);
    var p := Token(LeftParen, "(", Str(""), 0);
    ScanEmit(s, 1, 0, p, 2, 0, eof);
    var r1 := Scanned([p] + eof.tokens, [1] + eof.starts);
    var t := Token(Comma, ",", Str(""), 0);
    ScanEmit(s, 0, 0, t, 1, 0, r1);
    assert [t] + r1.tokens == [t, p, EofToken(0)];
    assert [0] + r1.starts == [0, 1, 2];
  }

  /** A string's literal keeps the opening quote, and the newline inside it
      is not counted. */
  lemma ExampleString()
    ensures ScanFrom("\"a\nb\"", 0, 0) == Scanned([Token(String, "\"a\nb\"", Str("\"a\nb"), 0), EofToken(0)], [0, 5])
  {
    var s := "\"a\nb\"";
    assert RunEnd(s, 1, Unquoted) == 4;
    assert s[0..5] == "\"a\nb\"" && s[0..4] == "\"a\nb";
    var t := Token(String, "\"a\nb\"", Str("\"a\nb"), 0);
    ScanEmit(s, 0, 0, t, 5, 0, Scanned([EofToken(0)], [5]));
    assert [t] + [EofToken(0)] == [t, EofToken(0)];
    assert [0] + [5] == [0, 5];
  }
}
