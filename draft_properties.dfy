/** What a scan of the draft scanner.go produces, and the places where it
    departs from scanner/scanner.go. */
module DraftProperties {
  import opened LoxTokens
  import opened Chars
  import opened ScanRecords
  import opened DraftScanner

  /** Every token is a slice of the source at its recorded offset, the
      slices are in source order without overlapping, the last token is EOF,
      with an empty lexeme at the end of the source, and the only one, and
      every punctuation and operator token has its fixed form. */
  ghost predicate Laid(src: string, c: nat, r: Scanned)
  {
    var n := |r.tokens|;
    n == |r.starts| && 0 < n &&
    r.tokens[n - 1].kind == Eof && r.tokens[n - 1].lexeme == "" && r.starts[n - 1] == |src| &&
    (forall i | 0 <= i < n :: Slice(src, c, r.tokens[i], r.starts[i])) &&
    AllFixed(src, r.tokens, r.starts) &&
    (forall i | 0 <= i < n - 1 :: r.tokens[i].kind != Eof && r.starts[i] + |r.tokens[i].lexeme| <= r.starts[i + 1])
  }

  ghost predicate Slice(src: string, c: nat, t: Token, s: nat)
  {
    c <= s && s + |t.lexeme| <= |src| && t.lexeme == src[s..s + |t.lexeme|]
  }

  /** A punctuation or operator token t at offset s has its kind's text and
      an empty literal, and it is maximal: `!`, `=`, `<` and `>` are not
      followed by `=`, and `/` is not followed by `/`. */
  ghost predicate FixedShaped(src: string, t: Token, s: nat)
  {
    var e := s + |t.lexeme|;
    Fixed(t.kind) != "" ==>
      t.lexeme == Fixed(t.kind) && t.literal == Str("") &&
      ((t.kind == Bang || t.kind == Equal || t.kind == Greater || t.kind == Less) && e < |src| ==> src[e] != '=') &&
      (t.kind == Slash && e < |src| ==> src[e] != '/')
  }

  ghost predicate AllFixed(src: string, ts: seq<Token>, ss: seq<nat>)
    requires |ts| == |ss|
  {
    forall i | 0 <= i < |ts| :: FixedShaped(src, ts[i], ss[i])
  }

  lemma ConsFixed(src: string, t: Token, c: nat, ts: seq<Token>, ss: seq<nat>)
    requires |ts| == |ss| && AllFixed(src, ts, ss) && FixedShaped(src, t, c)
    ensures AllFixed(src, [t] + ts, [c] + ss)
  {
    forall i | 0 <= i < |ts| + 1
      ensures FixedShaped(src, ([t] + ts)[i], ([c] + ss)[i])
    {
      if i > 0 {
        assert ([t] + ts)[i] == ts[i - 1] && ([c] + ss)[i] == ss[i - 1];
      }
    }
  }

  lemma {:induction false} ScanLaid(src: string, c: nat, line: int)
    requires c <= |src|
    ensures Laid(src, c, ScanFrom(src, c, line))
    decreases |src| - c
  {
    if c < |src| {
      var p := Step(src, c, line);
      StepFacts(src, c, line);
      ScanLaid(src, p.cursor, p.line);
      var rest := ScanFrom(src, p.cursor, p.line);
      if p.emitted == [] {
        ScanSkip(src, c, line);
        RebaseLaid(src, c, p.cursor, rest);
      } else {
        assert p.emitted == [p.emitted[0]];
        ConsLaid(src, c, p.emitted[0], p.cursor, rest);
      }
    }
  }

  /** Laid from a later offset implies Laid from an earlier one. */
  lemma RebaseLaid(src: string, c: nat, e: nat, r: Scanned)
    requires c <= e && Laid(src, e, r)
    ensures Laid(src, c, r)
  {
    forall i | 0 <= i < |r.tokens|
      ensures Slice(src, c, r.tokens[i], r.starts[i])
    {
      assert Slice(src, e, r.tokens[i], r.starts[i]);
    }
  }

  /** A pass appends at most one token, not EOF, whose lexeme is the text
      the pass consumed, whose line is the counter at the start of the pass,
      and which has its fixed form when it is punctuation or an operator; the
      pass counts a line only when it is the newline case. */
  ghost predicate Consistent(src: string, c: nat, line: int, p: Pass)
    requires c < |src|
  {
    c < p.cursor <= |src| &&
    p.line == line + (if src[c] == '\n' then 1 else 0) &&
    |p.emitted| <= 1 &&
    forall t | t in p.emitted ::
      t.lexeme == src[c..p.cursor] && t.kind != Eof && t.line == line && FixedShaped(src, t, c)
  }

  lemma StepFacts(src: string, c: nat, line: int)
    requires c < |src|
    ensures Consistent(src, c, line, Step(src, c, line))
  {
    match src[c]
    case ' ' | '\t' | '\r' | '\n' =>
    case '{' => SingleFacts(src, c, line, LeftBrace);
    case '}' => SingleFacts(src, c, line, RightBrace);
    case ')' => SingleFacts(src, c, line, RightParen);
    case '(' => SingleFacts(src, c, line, LeftParen);
    case '*' => SingleFacts(src, c, line, Star);
    case '+' => SingleFacts(src, c, line, Plus);
    case '-' => SingleFacts(src, c, line, Minus);
    case ',' => SingleFacts(src, c, line, Comma);
    case '.' => SingleFacts(src, c, line, Dot);
    case ';' => SingleFacts(src, c, line, Semicolon);
    case '!' => OperatorFacts(src, c, line, Bang, BangEqual);
    case '=' => OperatorFacts(src, c, line, Equal, EqualEqual);
    case '>' => OperatorFacts(src, c, line, Greater, GreaterEqual);
    case '<' => OperatorFacts(src, c, line, Less, LessEqual);
    case '/' => SlashPassFacts(src, c, line);
    case '"' => StringPassFacts(src, c, line);
    case _ => WordPassFacts(src, c, line);
  }

  lemma SingleFacts(src: string, c: nat, line: int, k: TokenKind)
    requires c < |src| && src[c] != '\n' && Fixed(k) == [src[c]]
    requires k !in {Bang, Equal, Greater, Less, Slash}
    ensures Consistent(src, c, line, Single(src, c, line, k))
  {
    assert src[c..c + 1] == [src[c]];
  }

  lemma OperatorFacts(src: string, c: nat, line: int, one: TokenKind, two: TokenKind)
    requires c < |src| && Fixed(one) == [src[c]] && Fixed(two) == [src[c], '=']
    requires one in {Bang, Equal, Greater, Less}
    ensures Consistent(src, c, line, Operator(src, c, line, one, two))
  {
    if c + 1 < |src| && src[c + 1] == '=' {
      assert src[c..c + 2] == [src[c], '='];
    } else {
      assert src[c..c + 1] == [src[c]];
    }
  }

  lemma SlashPassFacts(src: string, c: nat, line: int)
    requires c < |src| && src[c] == '/'
    ensures Consistent(src, c, line, SlashPass(src, c, line))
  {
    assert src[c..c + 1] == "/";
  }

  lemma StringPassFacts(src: string, c: nat, line: int)
    requires c < |src| && src[c] == '"'
    ensures Consistent(src, c, line, StringPass(src, c, line))
  {
  }

  lemma WordPassFacts(src: string, c: nat, line: int)
    requires c < |src| && src[c] != '\n'
    ensures Consistent(src, c, line, WordPass(src, c, line))
  {
    if DraftIsAlpha(src[c]) && RunEnd(src, c + 1, DraftAlphaNums) < |src| {
      KeywordWordKind(src[c..RunEnd(src, c + 1, DraftAlphaNums)]);
    }
  }

  /** A word's kind is never EOF, and never a kind with a fixed text. */
  lemma KeywordWordKind(w: string)
    ensures WordToken(w, w, 0).kind != Eof
    ensures Fixed(WordToken(w, w, 0).kind) == ""
  {
    if w in Keywords {
      KeywordCases(w);
    }
  }

  lemma ConsLaid(src: string, c: nat, t: Token, e: nat, rest: Scanned)
    requires c < e <= |src| && t.kind != Eof && t.lexeme == src[c..e] && Laid(src, e, rest)
    requires FixedShaped(src, t, c)
    ensures Laid(src, c, Scanned([t] + rest.tokens, [c] + rest.starts))
  {
    var r := Scanned([t] + rest.tokens, [c] + rest.starts);
    forall i | 0 <= i < |r.tokens|
      ensures Slice(src, c, r.tokens[i], r.starts[i])
    {
      if i > 0 {
        assert r.tokens[i] == rest.tokens[i - 1] && r.starts[i] == rest.starts[i - 1];
      }
    }
    ConsFixed(src, t, c, rest.tokens, rest.starts);
    forall i | 0 <= i < |r.tokens| - 1
      ensures r.tokens[i].kind != Eof && r.starts[i] + |r.tokens[i].lexeme| <= r.starts[i + 1]
    {
      if i > 0 {
        assert r.tokens[i] == rest.tokens[i - 1] && r.starts[i] == rest.starts[i - 1];
        assert r.starts[i + 1] == rest.starts[i];
      } else {
        assert Slice(src, e, rest.tokens[0], rest.starts[0]);
      }
    }
    assert r.tokens[|r.tokens| - 1] == rest.tokens[|rest.tokens| - 1];
    assert r.starts[|r.tokens| - 1] == rest.starts[|rest.tokens| - 1];
  }

  /** The line counter at the end lies between its start and its start plus
      the newlines of the source: it misses those inside strings, those after
      `//` and those swallowed as a word's terminator. */
  lemma {:induction false} FinalLineBound(src: string, c: nat, line: int)
    requires c <= |src|
    ensures LineBounded(src, c, line, ScanFrom(src, c, line).tokens)
    decreases |src| - c
  {
    if c < |src| {
      var p := Step(src, c, line);
      StepFacts(src, c, line);
      FinalLineBound(src, p.cursor, p.line);
      LineBoundedStep(src, c, line, p, ScanFrom(src, p.cursor, p.line).tokens);
    }
  }

  /** The last of the tokens lies on a line between `line` and `line` plus
      the newlines from c on. */
  ghost predicate LineBounded(src: string, c: nat, line: int, ts: seq<Token>)
    requires c <= |src|
  {
    0 < |ts| && line <= ts[|ts| - 1].line <= line + Newlines(src, c, |src|)
  }

  lemma LineBoundedStep(src: string, c: nat, line: int, p: Pass, rest: seq<Token>)
    requires c < p.cursor <= |src| && p.line == line + (if src[c] == '\n' then 1 else 0)
    requires LineBounded(src, p.cursor, p.line, rest)
    ensures LineBounded(src, c, line, p.emitted + rest)
  {
    NewlinesSplit(src, c, c + 1, p.cursor);
    NewlinesSplit(src, c, p.cursor, |src|);
    assert (p.emitted + rest)[|p.emitted + rest| - 1] == rest[|rest| - 1];
  }

  /** A pass that appends nothing leaves the scan to continue where it stopped. */
  lemma ScanSkip(src: string, c: nat, line: int)
    requires c < |src| && Step(src, c, line).emitted == []
    ensures ScanFrom(src, c, line) == ScanFrom(src, Step(src, c, line).cursor, Step(src, c, line).line)
  {
    var p := Step(src, c, line);
    var rest := ScanFrom(src, p.cursor, p.line);
    assert [] + rest.tokens == rest.tokens && [] + rest.starts == rest.starts;
  }

  /** A pass that appends token t, followed by the scan from where it stopped. */
  lemma ScanEmit(src: string, c: nat, line: int, t: Token, e: nat, l: int, rest: Scanned)
    requires c < |src| && Step(src, c, line) == Pass(e, l, [t]) && e <= |src| && ScanFrom(src, e, l) == rest
    ensures ScanFrom(src, c, line) == Scanned([t] + rest.tokens, [c] + rest.starts)
  {
  }

  /** Letters, digits and the underscore have no case of their own: they go
      to the `default` case. */
  lemma StepDefault(src: string, c: nat, line: int)
    requires c < |src| && IsAlphaNum(src[c])
    ensures Step(src, c, line) == WordPass(src, c, line)
  {
  }

  /** Unlike scanner/scanner.go, the draft has a case for ',': COMMA. */
  lemma CommaToken(src: string, c: nat, line: int)
    requires c < |src| && src[c] == ','
    ensures ScanFrom(src, c, line).tokens == [Token(Comma, ",", Str(""), line)] + ScanFrom(src, c + 1, line).tokens
  {
    assert src[c..c + 1] == ",";
  }

  /** `identifier` consumes the character after the word, which is never
      dispatched: the scan goes on after it. */
  lemma SwallowsTerminator(src: string, c: nat, line: int)
    requires c < |src| && DraftIsAlpha(src[c]) && RunEnd(src, c + 1, DraftAlphaNums) < |src|
    ensures var e := RunEnd(src, c + 1, DraftAlphaNums);
      !DraftIsAlphaNum(src[e]) &&
      ScanFrom(src, c, line).tokens == [WordToken(src[c..e], src[c..e + 1], line)] + ScanFrom(src, e + 1, line).tokens
  {
    var e := RunEnd(src, c + 1, DraftAlphaNums);
    StepSwallows(src, c, line);
    ScanTokens(src, c, line, Pass(e + 1, line, [WordToken(src[c..e], src[c..e + 1], line)]));
  }

  lemma StepSwallows(src: string, c: nat, line: int)
    requires c < |src| && DraftIsAlpha(src[c]) && RunEnd(src, c + 1, DraftAlphaNums) < |src|
    ensures var e := RunEnd(src, c + 1, DraftAlphaNums);
      Step(src, c, line) == Pass(e + 1, line, [WordToken(src[c..e], src[c..e + 1], line)])
  {
    StepDefault(src, c, line);
  }

  /** The tokens of a scan are those of its first pass, then the rest. */
  lemma ScanTokens(src: string, c: nat, line: int, p: Pass)
    requires c < |src| && Step(src, c, line) == p
    ensures ScanFrom(src, c, line).tokens == p.emitted + ScanFrom(src, p.cursor, p.line).tokens
  {
  }

  /** A word that runs to the end of the source is lost: only EOF follows. */
  lemma WordAtEndLost(src: string, c: nat, line: int)
    requires c < |src| && DraftIsAlpha(src[c]) && RunEnd(src, c + 1, DraftAlphaNums) == |src|
    ensures ScanFrom(src, c, line) == Scanned([EofToken(line)], [|src|])
  {
    StepDefault(src, c, line);
    ScanSkip(src, c, line);
  }

  /** The passes that append nothing: a character no case of the switch and
      not the draft `isAlpha` takes (blanks, newlines, digits, 'A' to 'Y' and
      every other character), `//`, a string never closed, and a word that
      runs to the end of input. Every other character yields its token. */
  ghost predicate Silent(src: string, c: nat)
    requires c < |src|
  {
    (!StartsToken(src[c]) && src[c] != ',' && !DraftIsAlpha(src[c])) ||
    (src[c] == '/' && c + 1 < |src| && src[c + 1] == '/') ||
    (src[c] == '"' && RunEnd(src, c + 1, Unquoted) == |src|) ||
    (DraftIsAlpha(src[c]) && RunEnd(src, c + 1, DraftAlphaNums) == |src|)
  }

  lemma SilentPass(src: string, c: nat, line: int)
    requires c < |src|
    ensures Step(src, c, line).emitted == [] <==> Silent(src, c)
  {
    if DraftIsAlpha(src[c]) || IsDigit(src[c]) {
      AlphaClasses(src[c]);
      StepDefault(src, c, line);
    }
  }

  /** Every other punctuation or operator character yields the token whose
      fixed text begins with it: one character, or two for `!=`, `==`, `<=`
      and `>=`. */
  lemma FixedPass(src: string, c: nat, line: int)
    requires c < |src| && (StartsToken(src[c]) || src[c] == ',') && src[c] != '"' && !Silent(src, c)
    ensures var p := Step(src, c, line);
      |p.emitted| == 1 && p.emitted[0].lexeme == Fixed(p.emitted[0].kind) && p.emitted[0].lexeme[0] == src[c]
  {
    assert src[c..c + 1] == [src[c]];
    if c + 1 < |src| {
      assert src[c..c + 2] == [src[c], src[c + 1]];
    }
  }

  /** A string that is never closed swallows the rest of the source, and
      unlike scanner/scanner.go the newlines inside are not counted: the scan
      ends with EOF alone, on the line where the string began. */
  lemma UnterminatedString(src: string, c: nat, line: int)
    requires c < |src| && src[c] == '"'
    requires forall k | c < k < |src| :: src[k] != '"'
    ensures ScanFrom(src, c, line) == Scanned([EofToken(line)], [|src|])
  {
    RunEndUnique(src, c + 1, Unquoted, |src|);
    ScanSkip(src, c, line);
  }

  /** Digits and the capitals 'A' to 'Y' start nothing and are dropped. */
  lemma DigitsAndCapitalsDropped(src: string, c: nat, line: int)
    requires c < |src| && (IsDigit(src[c]) || 'A' <= src[c] <= 'Y')
    ensures ScanFrom(src, c, line) == ScanFrom(src, c + 1, line)
  {
    StepDefault(src, c, line);
    ScanSkip(src, c, line);
  }

  /** After `//` followed by a character other than a newline, only that
      character is skipped: the rest of the comment is scanned as code. */
  lemma CommentSkipsOneCharacter(src: string, c: nat, line: int)
    requires c + 2 < |src| && src[c] == '/' && src[c + 1] == '/' && src[c + 2] != '\n'
    ensures ScanFrom(src, c, line) == ScanFrom(src, c + 3, line)
  {
    assert RunEnd(src, c + 2, Breaks) == c + 2;
    ScanSkip(src, c, line);
  }

  /** A string closed by the quote at q: its literal keeps the opening quote
      and its line is the counter before the string, whatever newlines it
      holds. */
  lemma StringKeepsQuote(src: string, c: nat, line: int, q: nat)
    requires c < q < |src| && src[c] == '"' && src[q] == '"'
    requires forall k | c < k < q :: src[k] != '"'
    ensures 0 < |ScanFrom(src, c, line).tokens|
    ensures var t := ScanFrom(src, c, line).tokens[0];
      t == Token(String, src[c..q + 1], Str(src[c..q]), line) && t.literal.text[0] == '"'
  {
    RunEndUnique(src, c + 1, Unquoted, q);
  }
}
