/** What a whole scan of scanner/scanner.go produces: every token is a
    verbatim slice of the source at its recorded offset, the slices come in
    source order without overlapping, each token's line counts the newlines
    before its end, the last token is EOF and there is no other, and each kind
    has the lexeme and literal its case of the switch gives it. */
module ScanProperties {
  import opened LoxTokens
  import opened Chars
  import opened ScanRecords
  import opened LoxScanner

  predicate AllDigits(w: string)
  {
    forall i | 0 <= i < |w| :: IsDigit(w[i])
  }

  /** Digits, optionally followed by a point and at least one more digit. */
  predicate IsNumeral(w: string)
  {
    (0 < |w| && AllDigits(w)) ||
    (exists k | 0 < k < |w| - 1 :: w[k] == '.' && AllDigits(w[..k]) && AllDigits(w[k + 1..]))
  }

  /** A letter or underscore, then letters, digits and underscores. */
  predicate IsWord(w: string)
  {
    0 < |w| && IsAlpha(w[0]) && forall i | 0 < i < |w| :: IsAlphaNum(w[i])
  }

  /** The token t, whose lexeme starts at offset s of src, has the form its
      kind calls for. Every token is maximal: the character after it cannot
      extend it. No word or number is followed by a character that continues
      it, and a number without a point is not followed by a point and a digit,
      which would have begun its fraction. `!`, `=`, `<` and `>` are never
      followed by `=`, which would have made the two-character kind, and `/`
      is never followed by `/` or `*`, which begin comments. COMMA never
      occurs, because the switch has no case for ','. */
  ghost predicate Shaped(src: string, t: Token, s: nat)
  {
    var e := s + |t.lexeme|;
    e <= |src| &&
    match t.kind
    case String =>
      2 <= |t.lexeme| && t.lexeme[0] == '"' && t.lexeme[|t.lexeme| - 1] == '"' &&
      t.literal == Str(t.lexeme[1..|t.lexeme| - 1]) &&
      forall k | 1 <= k < |t.lexeme| - 1 :: t.lexeme[k] != '"'
    case Number =>
      t.literal == Num(t.lexeme) && IsNumeral(t.lexeme) && (e == |src| || !IsDigit(src[e])) &&
      (AllDigits(t.lexeme) && e + 1 < |src| && src[e] == '.' ==> !IsDigit(src[e + 1]))
    case Identifier =>
      t.literal == Str(t.lexeme) && IsWord(t.lexeme) && t.lexeme !in Keywords &&
      (e == |src| || !IsAlphaNum(src[e]))
    case And | Class | Else | False | Fun | For | If | Nil
       | Or | Print | Return | Super | This | True | Var | While =>
      t.literal == Str("") && t.lexeme in Keywords && Keywords[t.lexeme] == t.kind &&
      (e == |src| || !IsAlphaNum(src[e]))
    case Bang | Equal | Greater | Less =>
      t.literal == Str("") && t.lexeme == Fixed(t.kind) && (e < |src| ==> src[e] != '=')
    case Slash =>
      t.literal == Str("") && t.lexeme == Fixed(t.kind) && (e < |src| ==> src[e] != '/' && src[e] != '*')
    case Comma => false
    case _ => t.literal == Str("") && t.lexeme == Fixed(t.kind)
  }

  /** t is the text of src at offset s, found at or after c, and its line is
      the counter that started at `line` in c after the newlines up to its end. */
  ghost predicate Fits(src: string, c: nat, line: int, t: Token, s: nat)
  {
    c <= s && s + |t.lexeme| <= |src| &&
    t.lexeme == src[s..s + |t.lexeme|] &&
    t.line == line + Newlines(src, c, s + |t.lexeme|)
  }

  /** The properties of a scan of src[c..] begun with counter `line`. */
  ghost predicate WellFormed(src: string, c: nat, line: int, r: Scanned)
    requires c <= |src|
  {
    |r.tokens| == |r.starts| && 0 < |r.tokens| &&
    EndsWithEof(src, c, line, r) && AllFit(src, c, line, r) && AllShaped(src, r) && Ordered(r)
  }

  /** The last token is EOF at the end of the source, with the final count. */
  ghost predicate EndsWithEof(src: string, c: nat, line: int, r: Scanned)
    requires c <= |src|
  {
    |r.tokens| == |r.starts| && 0 < |r.tokens| &&
    r.tokens[|r.tokens| - 1] == EofToken(line + Newlines(src, c, |src|)) &&
    r.starts[|r.tokens| - 1] == |src|
  }

  ghost predicate AllFit(src: string, c: nat, line: int, r: Scanned)
  {
    |r.tokens| == |r.starts| &&
    forall i | 0 <= i < |r.tokens| :: Fits(src, c, line, r.tokens[i], r.starts[i])
  }

  ghost predicate AllShaped(src: string, r: Scanned)
  {
    |r.tokens| == |r.starts| &&
    forall i | 0 <= i < |r.tokens| :: Shaped(src, r.tokens[i], r.starts[i])
  }

  /** Tokens before the last are not EOF, and each ends at or before the
      next one starts. */
  ghost predicate Ordered(r: Scanned)
  {
    |r.tokens| == |r.starts| &&
    forall i | 0 <= i < |r.tokens| - 1 :: r.tokens[i].kind != Eof && r.starts[i] + |r.tokens[i].lexeme| <= r.starts[i + 1]
  }

  /** Every complete scan is well formed. */
  lemma {:induction false} ScanWellFormed(src: string, c: nat, line: int)
    requires c <= |src| && ScanFrom(src, c, line).Ok?
    ensures WellFormed(src, c, line, ScanFrom(src, c, line).value)
    decreases |src| - c
  {
    if c < |src| {
      ScanFromStep(src, c, line);
      var p := Step(src, c, line).value;
      PassFacts(src, c, line);
      PassShape(src, c, line);
      ScanWellFormed(src, p.cursor, p.line);
      var rest := ScanFrom(src, p.cursor, p.line).value;
      if p.emitted == [] {
        PrependNothing(src, c, line, p, rest);
        assert [] + rest.tokens == rest.tokens && [] + rest.starts == rest.starts;
      } else {
        assert p.emitted == [p.emitted[0]];
        assert p.emitted[0] in p.emitted;
        PrependToken(src, c, line, p, p.emitted[0], rest);
      }
    }
  }

  /** A pass that appends nothing keeps a well-formed rest well formed from
      the pass's start. */
  lemma PrependNothing(src: string, c: nat, line: int, p: Pass, rest: Scanned)
    requires c < |src| && Consistent(src, c, line, p)
    requires WellFormed(src, p.cursor, p.line, rest)
    ensures WellFormed(src, c, line, rest)
  {
    NewlinesSplit(src, c, p.cursor, |src|);
    RebaseFit(src, c, line, p, rest);
  }

  /** The rest's tokens fit when counted from the start of the pass. */
  lemma RebaseFit(src: string, c: nat, line: int, p: Pass, rest: Scanned)
    requires c < |src| && Consistent(src, c, line, p)
    requires AllFit(src, p.cursor, p.line, rest)
    ensures AllFit(src, c, line, rest)
  {
    forall i | 0 <= i < |rest.tokens|
      ensures Fits(src, c, line, rest.tokens[i], rest.starts[i])
    {
      NewlinesSplit(src, c, p.cursor, rest.starts[i] + |rest.tokens[i].lexeme|);
    }
  }

  /** A pass that appends t, in front of a well-formed rest. */
  lemma PrependToken(src: string, c: nat, line: int, p: Pass, t: Token, rest: Scanned)
    requires c < |src| && Consistent(src, c, line, p) && p.emitted == [t]
    requires Shaped(src, t, c)
    requires WellFormed(src, p.cursor, p.line, rest)
    ensures WellFormed(src, c, line, Scanned([t] + rest.tokens, [c] + rest.starts))
  {
    assert t in p.emitted;
    NewlinesSplit(src, c, p.cursor, |src|);
    RebaseFit(src, c, line, p, rest);
    ConsFit(src, c, line, t, rest);
    ConsShaped(src, c, t, rest);
    assert Fits(src, p.cursor, p.line, rest.tokens[0], rest.starts[0]);
    ConsOrdered(c, t, rest);
    ConsEof(src, c, line, t, rest);
  }

  lemma ConsFit(src: string, c: nat, line: int, t: Token, rest: Scanned)
    requires Fits(src, c, line, t, c) && AllFit(src, c, line, rest)
    ensures AllFit(src, c, line, Scanned([t] + rest.tokens, [c] + rest.starts))
  {
    var r := Scanned([t] + rest.tokens, [c] + rest.starts);
    forall i | 0 <= i < |r.tokens|
      ensures Fits(src, c, line, r.tokens[i], r.starts[i])
    {
      if i > 0 {
        assert r.tokens[i] == rest.tokens[i - 1] && r.starts[i] == rest.starts[i - 1];
      }
    }
  }

  lemma ConsShaped(src: string, c: nat, t: Token, rest: Scanned)
    requires Shaped(src, t, c) && AllShaped(src, rest)
    ensures AllShaped(src, Scanned([t] + rest.tokens, [c] + rest.starts))
  {
    var r := Scanned([t] + rest.tokens, [c] + rest.starts);
    forall i | 0 <= i < |r.tokens|
      ensures Shaped(src, r.tokens[i], r.starts[i])
    {
      if i > 0 {
        assert r.tokens[i] == rest.tokens[i - 1] && r.starts[i] == rest.starts[i - 1];
      }
    }
  }

  lemma ConsOrdered(c: nat, t: Token, rest: Scanned)
    requires Ordered(rest) && 0 < |rest.tokens|
    requires t.kind != Eof && c + |t.lexeme| <= rest.starts[0]
    ensures Ordered(Scanned([t] + rest.tokens, [c] + rest.starts))
  {
    var r := Scanned([t] + rest.tokens, [c] + rest.starts);
    forall i | 0 <= i < |r.tokens| - 1
      ensures r.tokens[i].kind != Eof && r.starts[i] + |r.tokens[i].lexeme| <= r.starts[i + 1]
    {
      if i > 0 {
        assert r.tokens[i] == rest.tokens[i - 1] && r.starts[i] == rest.starts[i - 1];
        assert r.starts[i + 1] == rest.starts[i];
      }
    }
  }

  lemma ConsEof(src: string, c: nat, line: int, t: Token, rest: Scanned)
    requires c <= |src| && EndsWithEof(src, c, line, rest)
    ensures EndsWithEof(src, c, line, Scanned([t] + rest.tokens, [c] + rest.starts))
  {
    var r := Scanned([t] + rest.tokens, [c] + rest.starts);
    assert r.tokens[|r.tokens| - 1] == rest.tokens[|rest.tokens| - 1];
    assert r.starts[|r.tokens| - 1] == rest.starts[|rest.tokens| - 1];
  }

  /** Each token a pass appends has the form its kind calls for. */
  lemma PassShape(src: string, c: nat, line: int)
    requires c < |src| && Step(src, c, line).Ok?
    ensures forall t | t in Step(src, c, line).value.emitted :: Shaped(src, t, c)
  {
    match src[c]
    case ' ' | '\t' | '\r' | '\n' =>
    case '(' => SingleShape(src, c, line, LeftParen, '(');
    case ')' => SingleShape(src, c, line, RightParen, ')');
    case '{' => SingleShape(src, c, line, LeftBrace, '{');
    case '}' => SingleShape(src, c, line, RightBrace, '}');
    case ';' => SingleShape(src, c, line, Semicolon, ';');
    case '.' => SingleShape(src, c, line, Dot, '.');
    case '+' => SingleShape(src, c, line, Plus, '+');
    case '-' => SingleShape(src, c, line, Minus, '-');
    case '*' => SingleShape(src, c, line, Star, '*');
    case '=' => OperatorShape(src, c, line, Equal, EqualEqual, '=');
    case '!' => OperatorShape(src, c, line, Bang, BangEqual, '!');
    case '>' => OperatorShape(src, c, line, Greater, GreaterEqual, '>');
    case '<' => OperatorShape(src, c, line, Less, LessEqual, '<');
    case '"' => StringShape(src, c, line);
    case '/' =>
      if c + 1 < |src| && src[c + 1] == '/' {
      } else if c + 1 < |src| && src[c + 1] == '*' {
      } else {
        assert src[c..c + 1] == "/";
      }
    case _ => WordShape(src, c, line);
  }

  /** A punctuation token's lexeme is its kind's text. */
  lemma SingleShape(src: string, c: nat, line: int, k: TokenKind, ch: char)
    requires c < |src| && src[c] == ch && Fixed(k) == [ch]
    requires k !in {Comma, Bang, Equal, Greater, Less, Slash}
    ensures forall t | t in Single(src, c, line, k).value.emitted :: Shaped(src, t, c)
  {
    assert src[c..c + 1] == [src[c]];
  }

  /** An operator token's lexeme is the text of the kind `Operator` chose,
      and the one-character kind is chosen only when no `=` follows. */
  lemma OperatorShape(src: string, c: nat, line: int, one: TokenKind, two: TokenKind, ch: char)
    requires c < |src| && src[c] == ch && Fixed(one) == [ch] && Fixed(two) == [ch, '=']
    requires one in {Bang, Equal, Greater, Less} && two in {BangEqual, EqualEqual, GreaterEqual, LessEqual}
    ensures forall t | t in Operator(src, c, line, one, two).value.emitted :: Shaped(src, t, c)
  {
    if c + 1 < |src| && src[c + 1] == '=' {
      assert src[c..c + 2] == [ch, '='];
    } else {
      assert src[c..c + 1] == [ch];
    }
  }

  lemma StringShape(src: string, c: nat, line: int)
    requires c < |src| && src[c] == '"'
    ensures forall t | t in StringPass(src, c, line).value.emitted :: Shaped(src, t, c)
  {
    var q := RunEnd(src, c + 1, Unquoted);
    if q < |src| {
      RunEndAll(src, c + 1, Unquoted);
      var w := src[c..q + 1];
      assert w[1..|w| - 1] == src[c + 1..q];
      assert forall k | 1 <= k < |w| - 1 :: w[k] == src[c + k];
    }
  }

  lemma WordShape(src: string, c: nat, line: int)
    requires c < |src| && src[c] != '"' && WordPass(src, c, line).Ok?
    ensures forall t | t in WordPass(src, c, line).value.emitted :: Shaped(src, t, c)
  {
    if IsAlpha(src[c]) {
      var e := RunEnd(src, c + 1, AlphaNums);
      WordIsWord(src, c);
      WordTokenShape(src, c, e, line);
    } else if IsDigit(src[c]) {
      NumberShape(src, c);
    }
  }

  /** The text `identifier` consumes is a word. */
  lemma WordIsWord(src: string, c: nat)
    requires c < |src| && IsAlpha(src[c])
    ensures IsWord(src[c..RunEnd(src, c + 1, AlphaNums)])
  {
    var e := RunEnd(src, c + 1, AlphaNums);
    RunEndAll(src, c + 1, AlphaNums);
    var w := src[c..e];
    assert forall k | 0 < k < |w| :: w[k] == src[c + k];
  }

  /** The token for a maximal word: its keyword kind, or IDENTIFIER. */
  lemma WordTokenShape(src: string, c: nat, e: nat, line: int)
    requires c < e <= |src| && IsWord(src[c..e]) && (e == |src| || !IsAlphaNum(src[e]))
    ensures Shaped(src, WordToken(src[c..e], line), c)
  {
    var w := src[c..e];
    if w in Keywords {
      KeywordKinds(w);
    }
  }

  /** The text `digit` consumes is a numeral, the character after it is not
      a digit, and when it has no point, it is not followed by a point and a
      digit: such a fraction is always taken. */
  lemma NumberShape(src: string, c: nat)
    requires c < |src| && IsDigit(src[c]) && NumberEnd(src, c + 1).Some?
    ensures var e := NumberEnd(src, c + 1).value;
      IsNumeral(src[c..e]) && (e == |src| || !IsDigit(src[e])) &&
      (AllDigits(src[c..e]) && e + 1 < |src| && src[e] == '.' ==> !IsDigit(src[e + 1]))
  {
    var j := RunEnd(src, c + 1, Digits);
    var e := NumberEnd(src, c + 1).value;
    DigitRun(src, c, j);
    if j < |src| && src[j] == '.' && IsDigit(src[j + 1]) {
      DigitRun(src, j + 1, e);
      assert j + 1 < e;
      PointSplit(src, c, j, e);
      assert src[c..e][j - c] == '.';
    }
  }

  /** A digit at i and the run of digits after it form an all-digit text. */
  lemma DigitRun(src: string, i: nat, j: nat)
    requires i < |src| && IsDigit(src[i]) && j == RunEnd(src, i + 1, Digits)
    ensures AllDigits(src[i..j])
  {
    RunEndAll(src, i + 1, Digits);
    var w := src[i..j];
    forall k | 0 <= k < |w|
      ensures IsDigit(w[k])
    {
      assert w[k] == src[i + k];
    }
  }

  /** Digits, a point at j, and more digits make a numeral. */
  lemma PointSplit(src: string, c: nat, j: nat, e: nat)
    requires c < j && j + 1 < e <= |src| && src[j] == '.'
    requires AllDigits(src[c..j]) && AllDigits(src[j + 1..e])
    ensures IsNumeral(src[c..e])
  {
    var w := src[c..e];
    var k := j - c;
    assert w[..k] == src[c..j];
    assert w[k + 1..] == src[j + 1..e];
    assert w[k] == '.' && 0 < k < |w| - 1;
  }

  /** No scan contains COMMA. */
  lemma NoComma(src: string, c: nat, line: int, i: nat)
    requires c <= |src| && ScanFrom(src, c, line).Ok? && i < |ScanFrom(src, c, line).value.tokens|
    ensures ScanFrom(src, c, line).value.tokens[i].kind != Comma
  {
    ScanWellFormed(src, c, line);
  }
}

/** Lemmas about single passes and the scans that continue from them. */
module PassProperties {
  import opened LoxTokens
  import opened Chars
  import opened ScanRecords
  import opened LoxScanner

  /** A pass that appends t continues with the rest of the scan. */
  lemma ScanEmit(src: string, c: nat, line: int, t: Token, c': nat, line': int, rest: Scanned)
    requires c < |src| && c' <= |src|
    requires Step(src, c, line) == Ok(Pass(c', line', [t]))
    requires ScanFrom(src, c', line') == Ok(rest)
    ensures ScanFrom(src, c, line) == Ok(Scanned([t] + rest.tokens, [c] + rest.starts))
  {
  }

  /** A pass that appends nothing leaves the scan to continue where it stopped. */
  lemma ScanSkip(src: string, c: nat, line: int, c': nat, line': int)
    requires c < |src| && c' <= |src|
    requires Step(src, c, line) == Ok(Pass(c', line', []))
    ensures ScanFrom(src, c, line) == ScanFrom(src, c', line')
  {
    match ScanFrom(src, c', line')
    case Ok(rest) => assert [] + rest.tokens == rest.tokens && [] + rest.starts == rest.starts;
    case _ =>
  }

  /** Whitespace, a newline, ',' and every character that starts no token
      are dropped, one at a time; only the newline counts a line. */
  lemma Dropped(src: string, c: nat, line: int)
    requires c < |src| && !StartsToken(src[c]) && !IsAlphaNum(src[c])
    ensures Step(src, c, line) == Ok(Pass(c + 1, if src[c] == '\n' then line + 1 else line, []))
    ensures ScanFrom(src, c, line) == ScanFrom(src, c + 1, if src[c] == '\n' then line + 1 else line)
  {
    ScanSkip(src, c, line, c + 1, if src[c] == '\n' then line + 1 else line);
  }

  /** The passes that append nothing: a character with no case of its own
      that is no letter or digit (whitespace, the newline and ',' among them),
      a line comment, the opening of a block comment, and a string with no
      closing quote. */
  ghost predicate Silent(src: string, c: nat)
    requires c < |src|
  {
    (!StartsToken(src[c]) && !IsAlphaNum(src[c])) ||
    (src[c] == '/' && c + 1 < |src| && (src[c + 1] == '/' || src[c + 1] == '*')) ||
    (src[c] == '"' && RunEnd(src, c + 1, Unquoted) == |src|)
  }

  /** A pass that ends normally appends a token exactly when it is not one of
      the silent cases: every punctuation character, operator, lone `/`,
      closed string, word and number yields its token. */
  lemma SilentPass(src: string, c: nat, line: int)
    requires c < |src| && Step(src, c, line).Ok?
    ensures Step(src, c, line).value.emitted == [] <==> Silent(src, c)
  {
    if IsAlpha(src[c]) || IsDigit(src[c]) {
      AlphaClasses(src[c]);
      assert Step(src, c, line) == WordPass(src, c, line);
    }
  }

  /** A slash followed by a star, which opens a block comment, consumes only
      those two characters: what follows is scanned as tokens. */
  lemma BlockCommentOpen(src: string, c: nat, line: int)
    requires c + 1 < |src| && src[c] == '/' && src[c + 1] == '*'
    ensures ScanFrom(src, c, line) == ScanFrom(src, c + 2, line)
  {
    ScanSkip(src, c, line, c + 2, line);
  }

  /** `//` skips through the first newline after it and counts that line. */
  lemma LineComment(src: string, c: nat, line: int, n: nat)
    requires c + 2 <= n < |src| && src[c] == '/' && src[c + 1] == '/' && src[n] == '\n'
    requires forall k | c + 2 <= k < n :: src[k] != '\n'
    ensures ScanFrom(src, c, line) == ScanFrom(src, n + 1, line + 1)
  {
    RunEndUnique(src, c + 2, LineRest, n);
    ScanSkip(src, c, line, n + 1, line + 1);
  }

  /** A pass never returns exactly when it is a `//` comment with no newline
      after it anywhere in the source. */
  lemma StepHangs(src: string, c: nat, line: int)
    requires c < |src|
    ensures Step(src, c, line) == Hangs <==>
      src[c] == '/' && c + 1 < |src| && src[c + 1] == '/' &&
      forall k | c + 2 <= k < |src| :: src[k] != '\n'
  {
    if src[c] == '/' && c + 1 < |src| && src[c + 1] == '/' {
      var n := RunEnd(src, c + 2, LineRest);
      if n == |src| {
        RunEndAll(src, c + 2, LineRest);
      } else {
        assert src[n] == '\n';
      }
    }
  }

  /** A pass panics exactly when it starts a number whose digits run up to a
      '.' that is the last character of the source. */
  lemma StepPanics(src: string, c: nat, line: int)
    requires c < |src|
    ensures Step(src, c, line) == Panics <==>
      IsDigit(src[c]) && c + 1 < |src| && src[|src| - 1] == '.' &&
      forall k | c < k < |src| - 1 :: IsDigit(src[k])
  {
    if IsDigit(src[c]) && c + 1 < |src| && src[|src| - 1] == '.' && forall k | c < k < |src| - 1 :: IsDigit(src[k]) {
      RunEndUnique(src, c + 1, Digits, |src| - 1);
    } else if IsDigit(src[c]) {
      RunEndAll(src, c + 1, Digits);
    }
  }

  /** A source that is empty or ends with a newline always scans to the end:
      every `//` finds its newline and no number is followed by a final '.'. */
  lemma {:induction false} EndsWithNewline(src: string, c: nat, line: int)
    requires c <= |src| && (|src| == 0 || src[|src| - 1] == '\n')
    ensures ScanFrom(src, c, line).Ok?
    decreases |src| - c
  {
    if c < |src| {
      StepHangs(src, c, line);
      StepPanics(src, c, line);
      if src[c] == '/' && c + 1 < |src| && src[c + 1] == '/' {
        assert src[|src| - 1] == '\n';
      }
      var p := Step(src, c, line).value;
      EndsWithNewline(src, p.cursor, p.line);
    }
  }

  /** A string closed by the quote at q: one STRING token whose lexeme keeps
      the quotes, whose literal is the text between them, and whose line is
      the counter after the newlines inside. */
  lemma StringLiteral(src: string, c: nat, line: int, q: nat)
    requires c < q < |src| && src[c] == '"' && src[q] == '"'
    requires forall k | c < k < q :: src[k] != '"'
    ensures var l := line + Newlines(src, c + 1, q);
      Step(src, c, line) == Ok(Pass(q + 1, l, [Token(String, src[c..q + 1], Str(src[c + 1..q]), l)]))
  {
    RunEndUnique(src, c + 1, Unquoted, q);
    StringPassClosed(src, c, line, q, q + 1);
    assert Step(src, c, line) == StringPass(src, c, line);
  }

  /** A string that is never closed swallows the rest of the source: the
      scan ends with EOF alone, after counting the newlines inside. */
  lemma UnterminatedString(src: string, c: nat, line: int)
    requires c < |src| && src[c] == '"'
    requires forall k | c < k < |src| :: src[k] != '"'
    ensures ScanFrom(src, c, line) == Ok(Scanned([EofToken(line + Newlines(src, c, |src|))], [|src|]))
  {
    RunEndUnique(src, c + 1, Unquoted, |src|);
    NewlinesSplit(src, c, c + 1, |src|);
    ScanSkip(src, c, line, |src|, line + Newlines(src, c + 1, |src|));
  }
}
