/** The scanner of scanner/scanner.go: a specification of one pass of its
    loop and of a whole scan as functions, the `Scanner` object whose methods
    run that loop, and the properties of the scan. */
module LoxScanner {
  import opened LoxTokens
  import opened Chars
  import opened ScanRecords

  /** The only error value the scanner produces (`errUnterminatedString`). */
  datatype ScanError = UnterminatedString

  /** How a scan can end: normally, caught in `comment`'s endless loop, or in
      the runtime panic of `peekNext` indexing past the end of the source. */
  datatype Outcome<T> = Ok(value: T) | Hangs | Panics

  /*
   * Specification: one pass of Scan's loop, begun at offset c with `start` set to c.
   */

  /** A one-character token. */
  function Single(src: string, c: nat, line: int, k: TokenKind): Outcome<Pass>
    requires c < |src|
  {
    Ok(Pass(c + 1, line, [Token(k, src[c..c + 1], Str(""), line)]))
  }

  /** `!`, `=`, `<` or `>`: the two-character kind when the next character is `=`. */
  function Operator(src: string, c: nat, line: int, one: TokenKind, two: TokenKind): Outcome<Pass>
    requires c < |src|
  {
    if c + 1 < |src| && src[c + 1] == '=' then
      Ok(Pass(c + 2, line, [Token(two, src[c..c + 2], Str(""), line)]))
    else
      Single(src, c, line, one)
  }

  /** `consumeString`: up to the next quote, counting newlines; at end of
      input the error is returned and nothing is appended. */
  function StringPass(src: string, c: nat, line: int): Outcome<Pass>
    requires c < |src|
  {
    var q := RunEnd(src, c + 1, Unquoted);
    var line' := line + Newlines(src, c + 1, q);
    if q < |src| then
      Ok(Pass(q + 1, line', [Token(String, src[c..q + 1], Str(src[c + 1..q]), line')]))
    else
      Ok(Pass(|src|, line', []))
  }

  /** `/`: a line comment, the start of a block comment, or SLASH. `comment`
      never returns when no newline follows. */
  function SlashPass(src: string, c: nat, line: int): Outcome<Pass>
    requires c < |src|
  {
    if c + 1 < |src| && src[c + 1] == '/' then
      var n := RunEnd(src, c + 2, LineRest);
      if n < |src| then Ok(Pass(n + 1, line + 1, [])) else Hangs
    else if c + 1 < |src| && src[c + 1] == '*' then
      Ok(Pass(c + 2, line, []))
    else
      Single(src, c, line, Slash)
  }

  /** Where `digit` stops when it starts at i, or None where `peekNext`
      reads past the end (a '.' is the last character after the digits). */
  function NumberEnd(src: string, i: nat): (r: Option<nat>)
    requires i <= |src|
    ensures r.Some? ==> i <= r.value <= |src|
  {
    var j := RunEnd(src, i, Digits);
    if j < |src| && src[j] == '.' then
      if j + 1 == |src| then None
      else if IsDigit(src[j + 1]) then Some(RunEnd(src, j + 1, Digits))
      else Some(j)
    else Some(j)
  }

  /** The token `identifier` appends for the word src[c..e]. */
  function WordToken(text: string, line: int): Token
  {
    if text in Keywords then Token(Keywords[text], text, Str(""), line)
    else Token(Identifier, text, Str(text), line)
  }

  /** The `default` case: identifier, number, or a character that is dropped. */
  function WordPass(src: string, c: nat, line: int): Outcome<Pass>
    requires c < |src|
  {
    if IsAlpha(src[c]) then
      var e := RunEnd(src, c + 1, AlphaNums);
      Ok(Pass(e, line, [WordToken(src[c..e], line)]))
    else if IsDigit(src[c]) then
      match NumberEnd(src, c + 1)
      case None => Panics
      case Some(e) => Ok(Pass(e, line, [Token(Number, src[c..e], Num(src[c..e]), line)]))
    else
      Ok(Pass(c + 1, line, []))
  }

  /** One pass of the loop in Scan, dispatching on the character at c. */
  function Step(src: string, c: nat, line: int): (r: Outcome<Pass>)
    requires c < |src|
    ensures r.Ok? ==> c < r.value.cursor <= |src|
  {
    match src[c]
    case ' ' | '\t' | '\r' => Ok(Pass(c + 1, line, []))
    case '\n' => Ok(Pass(c + 1, line + 1, []))
    case '(' => Single(src, c, line, LeftParen)
    case ')' => Single(src, c, line, RightParen)
    case '{' => Single(src, c, line, LeftBrace)
    case '}' => Single(src, c, line, RightBrace)
    case ';' => Single(src, c, line, Semicolon)
    case '.' => Single(src, c, line, Dot)
    case '+' => Single(src, c, line, Plus)
    case '-' => Single(src, c, line, Minus)
    case '*' => Single(src, c, line, Star)
    case '=' => Operator(src, c, line, Equal, EqualEqual)
    case '!' => Operator(src, c, line, Bang, BangEqual)
    case '>' => Operator(src, c, line, Greater, GreaterEqual)
    case '<' => Operator(src, c, line, Less, LessEqual)
    case '"' => StringPass(src, c, line)
    case '/' => SlashPass(src, c, line)
    case _ => WordPass(src, c, line)
  }

  /** The whole scan from offset c with line counter `line`: passes until the
      cursor reaches the end, then the EOF token. */
  function ScanFrom(src: string, c: nat, line: int): Outcome<Scanned>
    requires c <= |src|
    decreases |src| - c
  {
    if c == |src| then Ok(Scanned([EofToken(line)], [c]))
    else
      match Step(src, c, line)
      case Hangs => Hangs
      case Panics => Panics
      case Ok(p) =>
        match ScanFrom(src, p.cursor, p.line)
        case Hangs => Hangs
        case Panics => Panics
        case Ok(rest) =>
          Ok(Scanned(p.emitted + rest.tokens, (if p.emitted == [] then [] else [c]) + rest.starts))
  }

  /*
   * The scanner object.
   */

  class Scanner {
    const source: string
    var line: int
    var start: nat
    var cursor: nat
    var tokens: seq<Token>
    var errors: seq<ScanError>

    ghost predicate Valid()
      reads this
    {
      start <= cursor <= |source|
    }

    /** The scanner over an already loaded source, as `NewScanner` builds it. */
    constructor (src: string)
      ensures Valid()
      ensures source == src && line == 1 && start == 0 && cursor == 0
      ensures tokens == [] && errors == []
    {
      source := src;
      line := 1;
      start := 0;
      cursor := 0;
      tokens := [];
      errors := [];
    }

    function IsAtEnd(): bool
      reads this
    {
      cursor >= |source|
    }

    /** The state is the one the pass r leads to from a token list
        `before`: its cursor, its line counter, and the tokens it appended. */
    ghost predicate Performed(r: Outcome<Pass>, before: seq<Token>)
      reads this
    {
      r.Ok? && cursor == r.value.cursor && line == r.value.line &&
      tokens == before + r.value.emitted
    }

    /** The character under the cursor, or NUL at end of input. */
    function Peek(): (c: char)
      reads this
      ensures c == if cursor < |source| then source[cursor] else 0 as char
    {
      if IsAtEnd() then 0 as char else source[cursor]
    }

    /** The character after the cursor, or NUL when the cursor is at the end.
        Only the cursor position is guarded: with the cursor on the last
        character the source indexes past the end, which is excluded here. */
    function PeekNext(): (c: char)
      reads this
      requires IsAtEnd() || cursor + 1 < |source|
      ensures c == if cursor < |source| then source[cursor + 1] else 0 as char
    {
      if IsAtEnd() then 0 as char else source[cursor + 1]
    }

    function HasError(): (b: bool)
      reads this
      ensures b <==> errors != []
    {
      |errors| > 0
    }

    /** Consumes one character; at end of input reports EOF and does not move. */
    method Advance() returns (c: char, eof: bool)
      requires Valid()
      modifies this`cursor
      ensures Valid()
      ensures eof <==> old(cursor) == |source|
      ensures eof ==> c == 0 as char && cursor == old(cursor)
      ensures !eof ==> c == source[old(cursor)] && cursor == old(cursor) + 1
      ensures c == old(Peek())
    {
      if IsAtEnd() {
        return 0 as char, true;
      }
      c := source[cursor];
      cursor := cursor + 1;
      eof := false;
    }

    /** Consumes the next character only when it is `expected`. */
    method MatchAdvance(expected: char) returns (matched: bool)
      requires Valid()
      modifies this`cursor
      ensures Valid()
      ensures matched <==> old(cursor) < |source| && source[old(cursor)] == expected
      ensures matched <==> !old(IsAtEnd()) && old(Peek()) == expected
      ensures cursor == if matched then old(cursor) + 1 else old(cursor)
    {
      if IsAtEnd() {
        return false;
      }
      if source[cursor] != expected {
        return false;
      }
      cursor := cursor + 1;
      matched := true;
    }

    /** Appends a token whose lexeme is source[start..cursor]. */
    method AddToken(kind: TokenKind, literal: Literal)
      requires Valid()
      modifies this`tokens
      ensures tokens == old(tokens) + [Token(kind, source[start..cursor], literal, line)]
    {
      tokens := tokens + [Token(kind, source[start..cursor], literal, line)];
    }

    method AddError(err: ScanError)
      modifies this`errors
      ensures errors == old(errors) + [err]
    {
      errors := errors + [err];
    }

    /** Skips a line comment through its newline. The loop only ends on a
        newline, so one must remain. */
    method Comment()
      requires Valid()
      requires RunEnd(source, cursor, LineRest) < |source|
      modifies this`cursor, this`line
      ensures Valid()
      ensures cursor == RunEnd(source, old(cursor), LineRest) + 1
      ensures line == old(line) + 1
    {
      ghost var n := RunEnd(source, cursor, LineRest);
      while true
        invariant Valid() && old(cursor) <= cursor <= n
        invariant line == old(line)
        decreases n - cursor
      {
        var c, _ := Advance();
        if c == '\n' {
          RunEndAt(source, old(cursor), LineRest, cursor - 1);
          line := line + 1;
          break;
        }
      }
    }

    /** The loop of `digit`: the integer digits, then a decimal point and
        the fraction digits when a digit follows the point. */
    method SkipNumber()
      requires Valid() && NumberEnd(source, cursor).Some?
      modifies this`cursor
      ensures Valid() && cursor == NumberEnd(source, old(cursor)).value
    {
      ghost var j := RunEnd(source, cursor, Digits);
      while true
        invariant Valid() && old(cursor) <= cursor <= j
        decreases |source| - cursor
      {
        if IsAtEnd() {
          break;
        }
        var c := Peek();
        if IsDigit(c) {
          var _, _ := Advance();
          continue;
        }
        RunEndAt(source, old(cursor), Digits, cursor);
        if c == '.' && IsDigit(PeekNext()) {
          var _, _ := Advance();
          Fraction();
        }
        break;
      }
    }

    /** Consumes the rest of a number literal and appends its NUMBER token. */
    method Digit()
      requires Valid() && cursor == start + 1 && IsDigit(source[start])
      requires NumberEnd(source, cursor).Some?
      modifies this`cursor, this`tokens
      ensures Valid() && Performed(WordPass(source, start, line), old(tokens))
    {
      SkipNumber();
      WordPassNumber(source, start, line, cursor);
      var text := source[start..cursor];
      AddToken(Number, Num(text));
    }

    /** The inner loop of `digit`: the digits after the decimal point. */
    method Fraction()
      requires Valid()
      modifies this`cursor
      ensures Valid() && cursor == RunEnd(source, old(cursor), Digits)
    {
      ghost var f := RunEnd(source, cursor, Digits);
      while IsDigit(Peek())
        invariant Valid() && old(cursor) <= cursor <= f
        decreases |source| - cursor
      {
        var _, _ := Advance();
      }
      RunEndAt(source, old(cursor), Digits, cursor);
    }

    /** The loop of `consumeString`: consumes through the closing quote,
        counting the newlines it passes, or to the end of input when there
        is none. */
    method SkipQuoted() returns (closed: bool)
      requires Valid()
      modifies this`cursor, this`line
      ensures Valid()
      ensures var q := RunEnd(source, old(cursor), Unquoted);
        (closed <==> q < |source|) &&
        cursor == (if closed then q + 1 else |source|) &&
        line == old(line) + Newlines(source, old(cursor), q)
    {
      ghost var q := RunEnd(source, cursor, Unquoted);
      while true
        invariant Valid() && old(cursor) <= cursor <= q
        invariant line == old(line) + Newlines(source, old(cursor), cursor)
        decreases |source| - cursor
      {
        ghost var here := cursor;
        var c, eof := Advance();
        if eof {
          return false;
        }
        if c == '"' {
          RunEndAt(source, old(cursor), Unquoted, here);
          return true;
        }
        NewlinesExtend(source, old(cursor), here);
        if c == '\n' {
          line := line + 1;
        }
      }
    }

    /** Consumes the rest of a string literal. A closed string appends one
        STRING token whose literal is the text between the quotes; an
        unterminated one consumes the rest of the input and appends nothing. */
    method ConsumeString() returns (err: Option<ScanError>)
      requires Valid() && cursor == start + 1 && source[start] == '"'
      modifies this`cursor, this`line, this`tokens
      ensures Valid() && Performed(StringPass(source, start, old(line)), old(tokens))
      ensures err == None <==> RunEnd(source, start + 1, Unquoted) < |source|
    {
      ghost var line0, q := line, RunEnd(source, start + 1, Unquoted);
      var closed := SkipQuoted();
      if closed {
        StringPassClosed(source, start, line0, q, cursor);
        AddString();
        err := None;
      } else {
        StringPassOpen(source, start, line0);
        err := Some(UnterminatedString);
      }
    }

    /** The closing step of `consumeString`: appends the STRING token of the
        text between the quotes at start and cursor - 1. */
    method AddString()
      requires Valid() && start < cursor - 1
      modifies this`tokens
      ensures tokens == old(tokens) + [Token(String, source[start..cursor], Str(source[start + 1..cursor - 1]), line)]
    {
      var text := source[start + 1..cursor - 1];
      AddToken(String, Str(text));
    }

    /** Consumes the rest of a word; appends its keyword kind when `keywords`
        has it (code not 0), else an IDENTIFIER carrying the word. */
    method Identifier()
      requires Valid() && cursor == start + 1 && IsAlpha(source[start])
      modifies this`cursor, this`tokens
      ensures Valid() && Performed(WordPass(source, start, line), old(tokens))
    {
      ghost var j := RunEnd(source, cursor, AlphaNums);
      while true
        invariant Valid() && old(cursor) <= cursor <= j
        invariant tokens == old(tokens)
        decreases |source| - cursor
      {
        var c := Peek();
        if IsAtEnd() || !IsAlphaNum(c) {
          break;
        }
        var _, _ := Advance();
      }
      RunEndAt(source, old(cursor), AlphaNums, cursor);
      WordPassWord(source, start, line, cursor);
      var text := source[start..cursor];
      var kind := TokenKind.Identifier;
      var key := KeywordCode(text);
      if key != 0 {
        kind := Keywords[text];
        text := "";
      }
      AddToken(kind, Str(text));
    }

    /** The `/` case of the switch: a line comment, the opening of a block
        comment (only its two characters are consumed), or SLASH. */
    method Slash()
      requires Valid() && cursor == start + 1 && source[start] == '/'
      requires SlashPass(source, start, line).Ok?
      modifies this`cursor, this`line, this`tokens
      ensures Valid() && Performed(SlashPass(source, start, old(line)), old(tokens))
    {
      var m := MatchAdvance('/');
      if m {
        Comment();
      } else {
        var b := MatchAdvance('*');
        if !b {
          AddToken(TokenKind.Slash, Str(""));
        }
      }
    }

    /** The four operator cases of the switch: the two-character kind when
        the next character is `=`, which is then consumed. */
    method OneOrTwo(one: TokenKind, two: TokenKind)
      requires Valid() && cursor == start + 1
      modifies this`cursor, this`tokens
      ensures Valid() && Performed(Operator(source, start, line, one, two), old(tokens))
    {
      var m := MatchAdvance('=');
      if m {
        AddToken(two, Str(""));
      } else {
        AddToken(one, Str(""));
      }
    }

    /** The `switch` in Scan's loop: the pass begun at `start`, whose first
        character c has just been consumed. */
    method Dispatch(c: char)
      requires Valid() && cursor == start + 1 && source[start] == c
      requires Step(source, start, line).Ok?
      modifies this`cursor, this`line, this`tokens
      ensures Valid() && start == old(start)
      ensures Performed(Step(source, start, old(line)), old(tokens))
    {
      match c {
        case ' ' | '\t' | '\r' =>
        case '\n' => line := line + 1;
        case '(' => AddToken(LeftParen, Str(""));
        case ')' => AddToken(RightParen, Str(""));
        case '{' => AddToken(LeftBrace, Str(""));
        case '}' => AddToken(RightBrace, Str(""));
        case ';' => AddToken(Semicolon, Str(""));
        case '.' => AddToken(Dot, Str(""));
        case '+' => AddToken(Plus, Str(""));
        case '-' => AddToken(Minus, Str(""));
        case '*' => AddToken(Star, Str(""));
        case '=' => OneOrTwo(Equal, EqualEqual);
        case '!' => OneOrTwo(Bang, BangEqual);
        case '>' => OneOrTwo(Greater, GreaterEqual);
        case '<' => OneOrTwo(Less, LessEqual);
        case '"' =>
          var _ := ConsumeString();
        case '/' => Slash();
        case _ =>
          if IsAlpha(c) {
            Identifier();
          } else if IsDigit(c) {
            Digit();
          }
      }
    }

    /** One pass of the loop, seen from the whole scan: what remains to be
        scanned after the pass, prefixed by what the pass appended, is what
        remained before it. */
    method LoopPass(c: char)
      requires Valid() && cursor == start + 1 && source[start] == c
      requires ScanFrom(source, start, line).Ok?
      modifies this`cursor, this`line, this`tokens
      ensures Valid() && start == old(start) && start < cursor
      ensures ScanFrom(source, cursor, line).Ok?
      ensures tokens + ScanFrom(source, cursor, line).value.tokens
           == old(tokens) + ScanFrom(source, start, old(line)).value.tokens
      ensures line == old(line) + Newlines(source, start, cursor)
    {
      ghost var l, t := line, tokens;
      ScanFromStep(source, start, l);
      Dispatch(c);
      PassFacts(source, start, l);
      ghost var p := Step(source, start, l).value;
      AppendAssoc(t, p.emitted, ScanFrom(source, cursor, line).value.tokens);
    }

    /** Scans the rest of the source: appends the tokens ScanFrom gives from
        the current cursor and line, the last of them EOF. */
    method Scan() returns (toks: seq<Token>, errs: seq<ScanError>)
      requires Valid()
      requires ScanFrom(source, cursor, line).Ok?
      modifies this`start, this`cursor, this`line, this`tokens
      ensures Valid() && start == cursor == |source|
      ensures tokens == old(tokens) + ScanFrom(source, old(cursor), old(line)).value.tokens
      ensures line == old(line) + Newlines(source, old(cursor), |source|)
      ensures errors == old(errors) && HasError() == old(HasError())
      ensures toks == tokens && errs == errors
    {
      ghost var expected := ScanFrom(source, cursor, line).value.tokens;
      ghost var c0, t0, l0 := cursor, tokens, line;
      while true
        invariant Valid() && c0 <= cursor
        invariant ScanFrom(source, cursor, line).Ok?
        invariant tokens + ScanFrom(source, cursor, line).value.tokens == t0 + expected
        invariant line == l0 + Newlines(source, c0, cursor)
        decreases |source| - cursor
      {
        start := cursor;
        ghost var before, l := tokens, line;
        var c, eof := Advance();
        if eof {
          AddToken(Eof, Str(""));
          assert source[start..cursor] == [];
          break;
        }
        LoopPass(c);
        NewlinesSplit(source, c0, start, cursor);
      }
      assert source[c0..cursor] == source[c0..];
      toks, errs := tokens, errors;
    }
  }

  /** `NewScanner` on an already loaded source followed by `Scan`: the tokens
      of the whole source from line 1, and no errors. */
  method Tokenize(src: string) returns (toks: seq<Token>, errs: seq<ScanError>)
    requires ScanFrom(src, 0, 1).Ok?
    ensures toks == ScanFrom(src, 0, 1).value.tokens
    ensures errs == []
  {
    var sc := new Scanner(src);
    toks, errs := sc.Scan();
  }

  /** In `digit`, with the cursor at j on a '.' that ends the run of digits
      begun at i, the index `peekNext` reads, j + 1, is in range exactly when
      the number pass ends normally; otherwise the pass is `Panics`. */
  lemma PeekNextGuard(src: string, i: nat, j: nat, line: int)
    requires 0 < i <= j < |src| && IsDigit(src[i - 1])
    requires j == RunEnd(src, i, Digits) && src[j] == '.'
    ensures j + 1 < |src| <==> NumberEnd(src, i).Some?
    ensures j + 1 == |src| <==> WordPass(src, i - 1, line) == Panics
  {
  }

  /** Unfolding ScanFrom by one pass. */
  lemma ScanFromStep(src: string, c: nat, line: int)
    requires c < |src| && ScanFrom(src, c, line).Ok?
    ensures Step(src, c, line).Ok?
    ensures var p := Step(src, c, line).value;
      ScanFrom(src, p.cursor, p.line).Ok? &&
      ScanFrom(src, c, line).value.tokens == p.emitted + ScanFrom(src, p.cursor, p.line).value.tokens
  {
  }

  /** StringPass when the closing quote is at q and the cursor ends at e. */
  lemma StringPassClosed(src: string, c: nat, line: int, q: nat, e: nat)
    requires c < q < |src| && q == RunEnd(src, c + 1, Unquoted) && e == q + 1
    ensures var line' := line + Newlines(src, c + 1, q);
      StringPass(src, c, line) == Ok(Pass(e, line', [Token(String, src[c..e], Str(src[c + 1..e - 1]), line')]))
  {
  }

  /** StringPass when no closing quote follows. */
  lemma StringPassOpen(src: string, c: nat, line: int)
    requires c < |src| && RunEnd(src, c + 1, Unquoted) == |src|
    ensures StringPass(src, c, line) == Ok(Pass(|src|, line + Newlines(src, c + 1, |src|), []))
  {
  }

  /** WordPass on a word whose run ends at e. */
  lemma WordPassWord(src: string, c: nat, line: int, e: nat)
    requires c < |src| && IsAlpha(src[c]) && e == RunEnd(src, c + 1, AlphaNums)
    ensures WordPass(src, c, line) == Ok(Pass(e, line, [WordToken(src[c..e], line)]))
  {
  }

  /** WordPass on a number that ends at e. */
  lemma WordPassNumber(src: string, c: nat, line: int, e: nat)
    requires c < |src| && IsDigit(src[c]) && NumberEnd(src, c + 1) == Some(e)
    ensures WordPass(src, c, line) == Ok(Pass(e, line, [Token(Number, src[c..e], Num(src[c..e]), line)]))
  {
  }

  /*
   * Properties of one pass.
   */

  /** A pass moves the cursor forward, adds one to the line counter per
      newline it consumes, and appends at most one token, which is not EOF,
      whose lexeme is the text the pass consumed and whose line is the
      counter's value at the end of the pass. */
  ghost predicate Consistent(src: string, c: nat, line: int, p: Pass)
  {
    c < p.cursor <= |src| &&
    p.line == line + Newlines(src, c, p.cursor) &&
    |p.emitted| <= 1 &&
    forall t | t in p.emitted :: t.lexeme == src[c..p.cursor] && t.line == p.line && t.kind != Eof
  }

  lemma PassFacts(src: string, c: nat, line: int)
    requires c < |src| && Step(src, c, line).Ok?
    ensures Consistent(src, c, line, Step(src, c, line).value)
  {
    match src[c]
    case ' ' | '\t' | '\r' | '\n' =>
    case '(' | ')' | '{' | '}' | ';' | '.' | '+' | '-' | '*' =>
    case '=' => OperatorFacts(src, c, line, Equal, EqualEqual);
    case '!' => OperatorFacts(src, c, line, Bang, BangEqual);
    case '>' => OperatorFacts(src, c, line, Greater, GreaterEqual);
    case '<' => OperatorFacts(src, c, line, Less, LessEqual);
    case '"' => StringPassFacts(src, c, line);
    case '/' => SlashPassFacts(src, c, line);
    case _ => WordPassFacts(src, c, line);
  }

  lemma OperatorFacts(src: string, c: nat, line: int, one: TokenKind, two: TokenKind)
    requires c < |src| && src[c] != '\n' && one != Eof && two != Eof
    ensures Consistent(src, c, line, Operator(src, c, line, one, two).value)
  {
    if c + 1 < |src| && src[c + 1] == '=' {
    }
  }

  lemma StringPassFacts(src: string, c: nat, line: int)
    requires c < |src| && src[c] == '"'
    ensures Consistent(src, c, line, StringPass(src, c, line).value)
  {
    var q := RunEnd(src, c + 1, Unquoted);
    NewlinesSplit(src, c, c + 1, q);
    if q < |src| {
    }
  }

  lemma SlashPassFacts(src: string, c: nat, line: int)
    requires c < |src| && src[c] == '/' && SlashPass(src, c, line).Ok?
    ensures Consistent(src, c, line, SlashPass(src, c, line).value)
  {
    if c + 1 < |src| {
      if src[c + 1] == '/' {
        var n := RunEnd(src, c + 2, LineRest);
        NewlinesInRun(src, c + 2, LineRest);
        NewlinesSplit(src, c, c + 2, n);
      }
    }
  }

  lemma WordPassFacts(src: string, c: nat, line: int)
    requires c < |src| && src[c] != '\n' && WordPass(src, c, line).Ok?
    ensures Consistent(src, c, line, WordPass(src, c, line).value)
  {
    if IsAlpha(src[c]) {
      NewlinesInRun(src, c + 1, AlphaNums);
      NewlinesSplit(src, c, c + 1, RunEnd(src, c + 1, AlphaNums));
    } else if IsDigit(src[c]) {
      NumberNewlines(src, c);
    }
  }

  /** A number's text holds no newline. */
  lemma NumberNewlines(src: string, c: nat)
    requires c < |src| && IsDigit(src[c]) && NumberEnd(src, c + 1).Some?
    ensures Newlines(src, c, NumberEnd(src, c + 1).value) == 0
  {
    var j := RunEnd(src, c + 1, Digits);
    var e := NumberEnd(src, c + 1).value;
    NewlinesInRun(src, c + 1, Digits);
    NewlinesSplit(src, c, c + 1, j);
    if j < |src| && src[j] == '.' && j + 1 < |src| && IsDigit(src[j + 1]) {
      assert e == RunEnd(src, j + 1, Digits);
      NewlinesInRun(src, j + 1, Digits);
      NewlinesSplit(src, c, j + 1, e);
    } else {
      assert e == j;
    }
  }
}
