/** The earlier draft scanner at the repository root (scanner.go): its kind
    codes, the specification of one pass of its `ScanToken` loop and of a
    whole scan, the `scanner` object, and its behaviour where it differs from
    scanner/scanner.go. It shares the kinds, the keyword table and the token
    record of LoxTokens. */
module DraftScanner {
  import opened LoxTokens
  import opened Chars
  import opened ScanRecords

  /** The draft's error values: `io.EOF`, which `identifier` and `comment`
      return at end of input, and `errUnterminatedString`. The loop discards
      them all. */
  datatype DraftError = EndOfInput | UnterminatedString

  /** The draft's constant for a kind: `iota << 1`. */
  function DraftCode(k: TokenKind): int
  {
    Ordinal(k) * 2
  }

  /** The kind whose draft constant has value c, if any. */
  function DraftKindOfCode(c: int): Option<TokenKind>
  {
    if 0 <= c && c % 2 == 0 && c / 2 < KindCount then Some(KindAt(c / 2)) else None
  }

  /** Draft codes are the even numbers 0 to 76, LEFT_PAREN being 0, each the
      code of exactly one kind. */
  lemma DraftCodes(k: TokenKind, c: int)
    ensures 0 <= DraftCode(k) <= 76 && DraftCode(k) % 2 == 0
    ensures DraftCode(LeftParen) == 0 && DraftCode(Eof) == 76
    ensures DraftKindOfCode(DraftCode(k)) == Some(k)
    ensures DraftKindOfCode(c).Some? <==> 0 <= c <= 76 && c % 2 == 0
    ensures DraftKindOfCode(c).Some? ==> DraftCode(DraftKindOfCode(c).value) == c
  {
    KindAtOrdinal(k);
    if 0 <= c && c % 2 == 0 && c / 2 < KindCount {
      OrdinalOfKindAt(c / 2);
    }
  }

  /** `keywords[text]` in the draft: the draft code of the keyword kind, or 0
      for a word that is not in the map. Although LEFT_PAREN is also 0, the
      test `t != 0` is exact, because no keyword kind is LEFT_PAREN. */
  function DraftKeywordCode(text: string): (c: int)
    ensures c != 0 <==> text in Keywords
    ensures c != 0 ==> DraftKindOfCode(c) == Some(Keywords[text])
  {
    if text in Keywords then
      KeywordKinds(text);
      DraftCodes(Keywords[text], 0);
      DraftCode(Keywords[text])
    else 0
  }

  /*
   * Specification: one pass of ScanToken's loop, begun at offset c.
   */

  /** A one-character token. */
  function Single(src: string, c: nat, line: int, k: TokenKind): Pass
    requires c < |src|
  {
    Pass(c + 1, line, [Token(k, src[c..c + 1], Str(""), line)])
  }

  /** `!`, `=`, `<` or `>`: the two-character kind when the next character is `=`. */
  function Operator(src: string, c: nat, line: int, one: TokenKind, two: TokenKind): Pass
    requires c < |src|
  {
    if c + 1 < |src| && src[c + 1] == '=' then Pass(c + 2, line, [Token(two, src[c..c + 2], Str(""), line)])
    else Single(src, c, line, one)
  }

  /** `consumeString`: the literal is source[start:cursor-1], the opening
      quote included and the closing one left out; newlines are not counted. */
  function StringPass(src: string, c: nat, line: int): Pass
    requires c < |src|
  {
    var q := RunEnd(src, c + 1, Unquoted);
    if q < |src| then Pass(q + 1, line, [Token(String, src[c..q + 1], Str(src[c..q]), line)])
    else Pass(|src|, line, [])
  }

  /** `/`: SLASH, or `comment`, which consumes the newlines that follow
      without counting them, then one more character. */
  function SlashPass(src: string, c: nat, line: int): Pass
    requires c < |src|
  {
    if c + 1 < |src| && src[c + 1] == '/' then
      var n := RunEnd(src, c + 2, Breaks);
      Pass(if n < |src| then n + 1 else |src|, line, [])
    else
      Single(src, c, line, Slash)
  }

  /** The token `identifier` appends: the word is the literal, and the
      lexeme runs through the character that ended the word. */
  function WordToken(text: string, lexeme: string, line: int): Token
  {
    Token(if text in Keywords then Keywords[text] else Identifier, lexeme, Str(text), line)
  }

  /** The `default` case: an identifier when the draft `isAlpha` holds,
      which swallows the character after the word; nothing at end of input;
      otherwise the character is dropped. */
  function WordPass(src: string, c: nat, line: int): Pass
    requires c < |src|
  {
    if DraftIsAlpha(src[c]) then
      var e := RunEnd(src, c + 1, DraftAlphaNums);
      if e < |src| then Pass(e + 1, line, [WordToken(src[c..e], src[c..e + 1], line)])
      else Pass(|src|, line, [])
    else
      Pass(c + 1, line, [])
  }

  /** One pass of the loop in ScanToken, dispatching on the character at c. */
  function Step(src: string, c: nat, line: int): (p: Pass)
    requires c < |src|
    ensures c < p.cursor <= |src|
  {
    match src[c]
    case ' ' | '\t' | '\r' => Pass(c + 1, line, [])
    case '\n' => Pass(c + 1, line + 1, [])
    case '{' => Single(src, c, line, LeftBrace)
    case '}' => Single(src, c, line, RightBrace)
    case ')' => Single(src, c, line, RightParen)
    case '(' => Single(src, c, line, LeftParen)
    case '*' => Single(src, c, line, Star)
    case '+' => Single(src, c, line, Plus)
    case '-' => Single(src, c, line, Minus)
    case ',' => Single(src, c, line, Comma)
    case '.' => Single(src, c, line, Dot)
    case ';' => Single(src, c, line, Semicolon)
    case '!' => Operator(src, c, line, Bang, BangEqual)
    case '=' => Operator(src, c, line, Equal, EqualEqual)
    case '>' => Operator(src, c, line, Greater, GreaterEqual)
    case '<' => Operator(src, c, line, Less, LessEqual)
    case '/' => SlashPass(src, c, line)
    case '"' => StringPass(src, c, line)
    case _ => WordPass(src, c, line)
  }

  /** The whole scan from offset c: every pass ends, so every scan does. */
  function ScanFrom(src: string, c: nat, line: int): Scanned
    requires c <= |src|
    decreases |src| - c
  {
    if c == |src| then Scanned([EofToken(line)], [c])
    else
      var p := Step(src, c, line);
      var rest := ScanFrom(src, p.cursor, p.line);
      Scanned(p.emitted + rest.tokens, (if p.emitted == [] then [] else [c]) + rest.starts)
  }

  /*
   * The scanner object.
   */

  class Scanner {
    const source: string
    var line: int
    var start: nat
    var cursor: nat
    var tokens: seq<Token>

    ghost predicate Valid()
      reads this
    {
      start <= cursor <= |source|
    }

    /** The scanner over an already loaded source: the draft starts at line 0. */
    constructor (src: string)
      ensures Valid()
      ensures source == src && line == 0 && start == 0 && cursor == 0 && tokens == []
    {
      source := src;
      line := 0;
      start := 0;
      cursor := 0;
      tokens := [];
    }

    function IsAtEnd(): bool
      reads this
    {
      cursor >= |source|
    }

    /** The state is the one the pass p leads to from a token list `before`. */
    ghost predicate Performed(p: Pass, before: seq<Token>)
      reads this
    {
      cursor == p.cursor && line == p.line && tokens == before + p.emitted
    }

    function Peek(): (c: char)
      reads this
      ensures c == if cursor < |source| then source[cursor] else 0 as char
    {
      if IsAtEnd() then 0 as char else source[cursor]
    }

    method Advance() returns (c: char, eof: bool)
      requires Valid()
      modifies this`cursor
      ensures Valid()
      ensures eof <==> old(cursor) == |source|
      ensures eof ==> c == 0 as char && cursor == old(cursor)
      ensures !eof ==> c == source[old(cursor)] && cursor == old(cursor) + 1
      ensures c == old(Peek())
    {
      if IsAtEnd() {
        return 0 as char, true;
      }
      c := source[cursor];
      cursor := cursor + 1;
      eof := false;
    }

    method MatchAdvance(expected: char) returns (matched: bool)
      requires Valid()
      modifies this`cursor
      ensures Valid()
      ensures matched <==> !old(IsAtEnd()) && old(Peek()) == expected
      ensures matched <==> old(cursor) < |source| && source[old(cursor)] == expected
      ensures cursor == if matched then old(cursor) + 1 else old(cursor)
    {
      if IsAtEnd() || Peek() != expected {
        return false;
      }
      cursor := cursor + 1;
      matched := true;
    }

    /** Appends a token whose lexeme is source[start..cursor]; the draft's
        literals are always text. */
    method AddToken(kind: TokenKind, literal: string)
      requires Valid()
      modifies this`tokens
      ensures tokens == old(tokens) + [Token(kind, source[start..cursor], Str(literal), line)]
    {
      tokens := tokens + [Token(kind, source[start..cursor], Str(literal), line)];
    }

    /** Consumes newlines without counting them, then the first other
        character; at end of input returns EOF. */
    method Comment() returns (err: Option<DraftError>)
      requires Valid()
      modifies this`cursor
      ensures Valid()
      ensures var n := RunEnd(source, old(cursor), Breaks);
        cursor == (if n < |source| then n + 1 else |source|) && (err == None <==> n < |source|)
    {
      ghost var n := RunEnd(source, cursor, Breaks);
      while true
        invariant Valid() && old(cursor) <= cursor <= n
        decreases |source| - cursor
      {
        ghost var here := cursor;
        var c, eof := Advance();
        if eof {
          return Some(EndOfInput);
        }
        if c != '\n' {
          RunEndAt(source, old(cursor), Breaks, here);
          return None;
        }
      }
    }

    /** Consumes through the closing quote and appends the STRING token, or
        consumes the rest of the input and appends nothing. */
    method ConsumeString() returns (err: Option<DraftError>)
      requires Valid() && cursor == start + 1 && source[start] == '"'
      modifies this`cursor, this`tokens
      ensures Valid() && Performed(StringPass(source, start, line), old(tokens))
      ensures err == None <==> RunEnd(source, start + 1, Unquoted) < |source|
    {
      ghost var q := RunEnd(source, cursor, Unquoted);
      while true
        invariant Valid() && old(cursor) <= cursor <= q
        invariant tokens == old(tokens)
        decreases |source| - cursor
      {
        ghost var here := cursor;
        var c, eof := Advance();
        if eof {
          return Some(UnterminatedString);
        }
        if c == '"' {
          RunEndAt(source, old(cursor), Unquoted, here);
          StringClosed(source, start, line, here, cursor);
          var text := source[start..cursor - 1];
          AddToken(String, text);
          return None;
        }
      }
    }

    /** Consumes the word and the character after it; appends the keyword
        kind or IDENTIFIER with the word as literal, or at end of input
        returns EOF and appends nothing. */
    method Identifier() returns (err: Option<DraftError>)
      requires Valid() && cursor == start + 1 && DraftIsAlpha(source[start])
      modifies this`cursor, this`tokens
      ensures Valid() && Performed(WordPass(source, start, line), old(tokens))
      ensures err == None <==> RunEnd(source, start + 1, DraftAlphaNums) < |source|
    {
      var ended := SkipWord();
      if ended {
        return Some(EndOfInput);
      }
      WordClosed(source, start, line, cursor - 1, cursor);
      AddWord();
      err := None;
    }

    /** The closing step of `identifier`: the word is source[start..cursor - 1],
        and a non-zero code from `keywords` makes it a keyword. */
    method AddWord()
      requires Valid() && start < cursor
      modifies this`tokens
      ensures tokens == old(tokens) + [WordToken(source[start..cursor - 1], source[start..cursor], line)]
    {
      var text := source[start..cursor - 1];
      var kind := TokenKind.Identifier;
      var t := DraftKeywordCode(text);
      if t != 0 {
        kind := DraftKindOfCode(t).value;
      }
      AddToken(kind, text);
    }

    /** The loop of `identifier`: consumes the word's characters and the
        first one that is not alphanumeric, or everything to the end. */
    method SkipWord() returns (ended: bool)
      requires Valid()
      modifies this`cursor
      ensures Valid()
      ensures var e := RunEnd(source, old(cursor), DraftAlphaNums);
        (ended <==> e == |source|) && cursor == (if ended then |source| else e + 1)
    {
      ghost var e := RunEnd(source, cursor, DraftAlphaNums);
      while true
        invariant Valid() && old(cursor) <= cursor <= e
        decreases |source| - cursor
      {
        ghost var here := cursor;
        var c, eof := Advance();
        if eof {
          return true;
        }
        if !DraftIsAlphaNum(c) {
          RunEndAt(source, old(cursor), DraftAlphaNums, here);
          return false;
        }
      }
    }

    /** The four operator cases of the switch. */
    method OneOrTwo(one: TokenKind, two: TokenKind)
      requires Valid() && cursor == start + 1
      modifies this`cursor, this`tokens
      ensures Valid() && Performed(Operator(source, start, line, one, two), old(tokens))
    {
      var m := MatchAdvance('=');
      if m {
        AddToken(two, "");
      } else {
        AddToken(one, "");
      }
    }

    /** The `/` case of the switch. */
    method Slash()
      requires Valid() && cursor == start + 1 && source[start] == '/'
      modifies this`cursor, this`tokens
      ensures Valid() && Performed(SlashPass(source, start, line), old(tokens))
    {
      var m := MatchAdvance('/');
      if !m {
        AddToken(TokenKind.Slash, "");
      } else {
        var _ := Comment();
      }
    }

    /** The `switch` in ScanToken's loop, the pass's first character c
        having just been consumed. */
    method Dispatch(c: char)
      requires Valid() && cursor == start + 1 && source[start] == c
      modifies this`cursor, this`line, this`tokens
      ensures Valid() && start == old(start)
      ensures Performed(Step(source, start, old(line)), old(tokens))
    {
      match c {
        case ' ' | '\t' | '\r' =>
        case '\n' => line := line + 1;
        case '{' => AddToken(LeftBrace, "");
        case '}' => AddToken(RightBrace, "");
        case ')' => AddToken(RightParen, "");
        case '(' => AddToken(LeftParen, "");
        case '*' => AddToken(Star, "");
        case '+' => AddToken(Plus, "");
        case '-' => AddToken(Minus, "");
        case ',' => AddToken(Comma, "");
        case '.' => AddToken(Dot, "");
        case ';' => AddToken(Semicolon, "");
        case '!' => OneOrTwo(Bang, BangEqual);
        case '=' => OneOrTwo(Equal, EqualEqual);
        case '>' => OneOrTwo(Greater, GreaterEqual);
        case '<' => OneOrTwo(Less, LessEqual);
        case '/' => Slash();
        case '"' => var _ := ConsumeString();
        case _ =>
          if DraftIsAlpha(c) {
            var _ := Identifier();
          }
      }
    }

    /** One pass of the loop, seen from the whole scan. */
    method LoopPass(c: char)
      requires Valid() && cursor == start + 1 && source[start] == c
      modifies this`cursor, this`line, this`tokens
      ensures Valid() && start < cursor
      ensures tokens + ScanFrom(source, cursor, line).tokens
           == old(tokens) + ScanFrom(source, start, old(line)).tokens
    {
      ghost var l, t := line, tokens;
      Dispatch(c);
      ghost var p := Step(source, start, l);
      AppendAssoc(t, p.emitted, ScanFrom(source, cursor, line).tokens);
    }

    /** `ScanToken`: appends the tokens ScanFrom gives from the current
        cursor and line, the last of them EOF, which carries the final line. */
    method ScanToken() returns (toks: seq<Token>)
      requires Valid()
      modifies this`start, this`cursor, this`line, this`tokens
      ensures Valid() && start == cursor == |source|
      ensures 0 < |tokens| && line == tokens[|tokens| - 1].line
      ensures tokens == old(tokens) + ScanFrom(source, old(cursor), old(line)).tokens
      ensures toks == tokens
    {
      ghost var expected := ScanFrom(source, cursor, line).tokens;
      ghost var t0 := tokens;
      while true
        invariant Valid()
        invariant tokens + ScanFrom(source, cursor, line).tokens == t0 + expected
        decreases |source| - cursor
      {
        start := cursor;
        var c, eof := Advance();
        if eof {
          AddToken(Eof, "");
          assert source[start..cursor] == [];
          break;
        }
        LoopPass(c);
      }
      toks := tokens;
    }
  }

  /** `NewScanner` on an already loaded source followed by `ScanToken`. */
  method Tokenize(src: string) returns (toks: seq<Token>)
    ensures toks == ScanFrom(src, 0, 0).tokens
  {
    var sc := new Scanner(src);
    toks := sc.ScanToken();
  }

  /** StringPass when the closing quote is at q and the cursor ends at e. */
  lemma StringClosed(src: string, c: nat, line: int, q: nat, e: nat)
    requires c < q < |src| && q == RunEnd(src, c + 1, Unquoted) && e == q + 1
    ensures StringPass(src, c, line) == Pass(e, line, [Token(String, src[c..e], Str(src[c..e - 1]), line)])
  {
  }

  /** WordPass when the word ends at w, before the last character consumed, e - 1. */
  lemma WordClosed(src: string, c: nat, line: int, w: nat, e: nat)
    requires c < w < |src| && DraftIsAlpha(src[c]) && w == RunEnd(src, c + 1, DraftAlphaNums) && e == w + 1
    ensures WordPass(src, c, line) == Pass(e, line, [WordToken(src[c..e - 1], src[c..e], line)])
  {
  }
}
