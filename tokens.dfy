/** The token kinds of scanner/constants.go, their integer codes (`iota + 1`),
    the reserved-word table and the kind-name table, plus the token record
    of scanner/scanner.go that both scanners append to. */
module LoxTokens {

  /** The 39 kinds, in the order the constants are declared. */
  datatype TokenKind =
    // single character tokens
    | LeftParen | RightParen | LeftBrace | RightBrace | Comma
    | Dot | Minus | Plus | Semicolon | Star
    // one or two character tokens
    | Bang | BangEqual | Equal | EqualEqual | Greater
    | GreaterEqual | Less | LessEqual | Slash
    // literals
    | Identifier | String | Number
    // keywords
    | And | Class | Else | False | Fun | For | If | Nil
    | Or | Print | Return | Super | This | True | Var | While
    | Eof

  /** A token literal: text or the digits of a number, whose float64 value
      is not modelled. The text is empty for punctuation, operators and end of
      input; for a keyword it is empty in scanner/scanner.go and the word
      itself in the draft scanner.go. */
  datatype Literal = Str(text: string) | Num(digits: string)

  datatype Token = Token(kind: TokenKind, lexeme: string, literal: Literal, line: int)

  /** The fixed text of a punctuation or operator kind ("" for the others). */
  function Fixed(k: TokenKind): string
  {
    match k
    case LeftParen => "("     case RightParen => ")"    case LeftBrace => "{"
    case RightBrace => "}"    case Comma => ","         case Dot => "."
    case Minus => "-"         case Plus => "+"          case Semicolon => ";"
    case Star => "*"          case Bang => "!"          case BangEqual => "!="
    case Equal => "="         case EqualEqual => "=="   case Greater => ">"
    case GreaterEqual => ">=" case Less => "<"          case LessEqual => "<="
    case Slash => "/"         case _ => ""
  }

  const KindCount: nat := 39

  /** Position of a kind in the declaration, i.e. the value of `iota` there. */
  function Ordinal(k: TokenKind): (n: nat)
    ensures n < KindCount
  {
    match k
    case LeftParen => 0      case RightParen => 1    case LeftBrace => 2
    case RightBrace => 3     case Comma => 4         case Dot => 5
    case Minus => 6          case Plus => 7          case Semicolon => 8
    case Star => 9           case Bang => 10         case BangEqual => 11
    case Equal => 12         case EqualEqual => 13   case Greater => 14
    case GreaterEqual => 15  case Less => 16         case LessEqual => 17
    case Slash => 18         case Identifier => 19   case String => 20
    case Number => 21        case And => 22          case Class => 23
    case Else => 24          case False => 25        case Fun => 26
    case For => 27           case If => 28           case Nil => 29
    case Or => 30            case Print => 31        case Return => 32
    case Super => 33         case This => 34         case True => 35
    case Var => 36           case While => 37        case Eof => 38
  }

  /** The kind declared at position n. */
  function KindAt(n: nat): TokenKind
    requires n < KindCount
  {
    if n == 0 then LeftParen else if n == 1 then RightParen
    else if n == 2 then LeftBrace else if n == 3 then RightBrace
    else if n == 4 then Comma else if n == 5 then Dot
    else if n == 6 then Minus else if n == 7 then Plus
    else if n == 8 then Semicolon else if n == 9 then Star
    else if n == 10 then Bang else if n == 11 then BangEqual
    else if n == 12 then Equal else if n == 13 then EqualEqual
    else if n == 14 then Greater else if n == 15 then GreaterEqual
    else if n == 16 then Less else if n == 17 then LessEqual
    else if n == 18 then Slash else if n == 19 then Identifier
    else if n == 20 then String else if n == 21 then Number
    else if n == 22 then And else if n == 23 then Class
    else if n == 24 then Else else if n == 25 then False
    else if n == 26 then Fun else if n == 27 then For
    else if n == 28 then If else if n == 29 then Nil
    else if n == 30 then Or else if n == 31 then Print
    else if n == 32 then Return else if n == 33 then Super
    else if n == 34 then This else if n == 35 then True
    else if n == 36 then Var else if n == 37 then While
    else Eof
  }

  /** Ordinal and KindAt are inverse: the 39 positions name 39 distinct kinds. */
  lemma OrdinalKindAt(k: TokenKind, n: nat)
    requires n < KindCount
    ensures KindAt(Ordinal(k)) == k
    ensures Ordinal(KindAt(n)) == n
  {
    KindAtOrdinal(k);
    OrdinalOfKindAt(n);
  }

  lemma KindAtOrdinal(k: TokenKind)
    ensures KindAt(Ordinal(k)) == k
  {
    match k
    case LeftParen => case RightParen => case LeftBrace => case RightBrace => case Comma =>
    case Dot => case Minus => case Plus => case Semicolon => case Star =>
    case Bang => case BangEqual => case Equal => case EqualEqual => case Greater =>
    case GreaterEqual => case Less => case LessEqual => case Slash => case Identifier =>
    case String => case Number => case And => case Class => case Else =>
    case False => case Fun => case For => case If => case Nil =>
    case Or => case Print => case Return => case Super => case This =>
    case True => case Var => case While => case Eof =>
  }

  lemma OrdinalOfKindAt(n: nat)
    requires n < KindCount
    ensures Ordinal(KindAt(n)) == n
  {
  }

  /** The constant's value: `iota + 1`. */
  function Code(k: TokenKind): int
  {
    Ordinal(k) + 1
  }

  /** The kind whose constant has value c, if any. */
  function KindOfCode(c: int): Option<TokenKind>
  {
    if 1 <= c <= KindCount then Some(KindAt(c - 1)) else None
  }

  datatype Option<T> = None | Some(value: T)

  /** Codes run from LEFT_PAREN = 1 to EOF = 39 and each is the code of exactly one kind. */
  lemma CodesConsecutive(k: TokenKind, c: int)
    ensures 1 <= Code(k) <= KindCount
    ensures KindOfCode(Code(k)) == Some(k)
    ensures KindOfCode(c).Some? <==> 1 <= c <= KindCount
    ensures KindOfCode(c).Some? ==> Code(KindOfCode(c).value) == c
    ensures Code(LeftParen) == 1 && Code(Eof) == 39
  {
    KindAtOrdinal(k);
    if 1 <= c <= KindCount {
      OrdinalOfKindAt(c - 1);
    }
  }

  /** In particular no kind has code 0, and distinct kinds have distinct codes. */
  lemma CodeInjective(a: TokenKind, b: TokenKind)
    ensures Code(a) != 0
    ensures Code(a) == Code(b) ==> a == b
  {
    CodesConsecutive(a, 0);
    CodesConsecutive(b, 0);
  }

  /** The reserved words, each mapped to its keyword kind (the `keywords` map). */
  const Keywords: map<string, TokenKind> := map[
    "and" := And, "class" := Class, "else" := Else, "false" := False,
    "fun" := Fun, "for" := For, "if" := If, "nil" := Nil,
    "or" := Or, "print" := Print, "return" := Return, "super" := Super,
    "this" := This, "true" := True, "var" := Var, "while" := While
  ]

  predicate IsKeywordKind(k: TokenKind) { Code(And) <= Code(k) <= Code(While) }

  /** Go's `keywords[text]`: the code of the keyword kind, or the zero value 0
      for a word that is not in the map. */
  function KeywordCode(text: string): (c: int)
    ensures c != 0 <==> text in Keywords
    ensures c != 0 ==> KindOfCode(c) == Some(Keywords[text])
  {
    if text in Keywords then
      CodesConsecutive(Keywords[text], 0);
      Code(Keywords[text])
    else 0
  }

  /** The table's keys are exactly the 16 lower-case reserved words. */
  lemma KeywordWords()
    ensures Keywords.Keys == {"and", "class", "else", "false", "fun", "for", "if", "nil",
                              "or", "print", "return", "super", "this", "true", "var", "while"}
  {
  }

  /** Every value in the table is a keyword kind, between AND and WHILE, and
      never IDENTIFIER, STRING, NUMBER or EOF. */
  lemma KeywordKinds(w: string)
    requires w in Keywords
    ensures IsKeywordKind(Keywords[w])
    ensures Keywords[w] !in {Identifier, String, Number, Eof}
  {
    KeywordCases(w);
    KeywordKindRange(Keywords[w]);
  }

  lemma KeywordKindRange(k: TokenKind)
    requires k in {And, Class, Else, False, Fun, For, If, Nil, Or, Print, Return, Super, This, True, Var, While}
    ensures IsKeywordKind(k)
    ensures k !in {Identifier, String, Number, Eof}
  {
  }

  /** A key of the table is one of the 16 words, with its entry. */
  lemma KeywordCases(w: string)
    requires w in Keywords
    ensures (w == "and" && Keywords[w] == And)
      || (w == "class" && Keywords[w] == Class)
      || (w == "else" && Keywords[w] == Else)
      || (w == "false" && Keywords[w] == False)
      || (w == "fun" && Keywords[w] == Fun)
      || (w == "for" && Keywords[w] == For)
      || (w == "if" && Keywords[w] == If)
      || (w == "nil" && Keywords[w] == Nil)
      || (w == "or" && Keywords[w] == Or)
      || (w == "print" && Keywords[w] == Print)
      || (w == "return" && Keywords[w] == Return)
      || (w == "super" && Keywords[w] == Super)
      || (w == "this" && Keywords[w] == This)
      || (w == "true" && Keywords[w] == True)
      || (w == "var" && Keywords[w] == Var)
      || (w == "while" && Keywords[w] == While)
  {
  }

  /** The `tokenMap` table: every kind's constant name. */
  function Name(k: TokenKind): (s: string)
    ensures s != []
  {
    match k
    case LeftParen => "LEFT_PAREN"        case RightParen => "RIGHT_PAREN"
    case LeftBrace => "LEFT_BRACE"        case RightBrace => "RIGHT_BRACE"
    case Comma => "COMMA"                 case Dot => "DOT"
    case Minus => "MINUS"                 case Plus => "PLUS"
    case Semicolon => "SEMICOLON"         case Star => "STAR"
    case Bang => "BANG"                   case BangEqual => "BANG_EQUAL"
    case Equal => "EQUAL"                 case EqualEqual => "EQUAL_EQUAL"
    case Greater => "GREATER"             case GreaterEqual => "GREATER_EQUAL"
    case Less => "LESS"                   case LessEqual => "LESS_EQUAL"
    case Slash => "SLASH"                 case Identifier => "IDENTIFIER"
    case String => "STRING"               case Number => "NUMBER"
    case And => "AND"                     case Class => "CLASS"
    case Else => "ELSE"                   case False => "FALSE"
    case Fun => "FUN"                     case For => "FOR"
    case If => "IF"                       case Nil => "NIL"
    case Or => "OR"                       case Print => "PRINT"
    case Return => "RETURN"               case Super => "SUPER"
    case This => "THIS"                   case True => "TRUE"
    case Var => "VAR"                     case While => "WHILE"
    case Eof => "EOF"
  }

  /** The kind whose `tokenMap` name is s, if any, looked up by length. */
  function KindNamed(s: string): Option<TokenKind>
  {
    match |s|
    case 2 =>
      if s == "IF" then Some(If)
      else if s == "OR" then Some(Or)
      else None
    case 3 =>
      if s == "DOT" then Some(Dot)
      else if s == "AND" then Some(And)
      else if s == "FUN" then Some(Fun)
      else if s == "FOR" then Some(For)
      else if s == "NIL" then Some(Nil)
      else if s == "VAR" then Some(Var)
      else if s == "EOF" then Some(Eof)
      else None
    case 4 =>
      if s == "PLUS" then Some(Plus)
      else if s == "STAR" then Some(Star)
      else if s == "BANG" then Some(Bang)
      else if s == "LESS" then Some(Less)
      else if s == "ELSE" then Some(Else)
      else if s == "THIS" then Some(This)
      else if s == "TRUE" then Some(True)
      else None
    case 5 =>
      if s == "COMMA" then Some(Comma)
      else if s == "MINUS" then Some(Minus)
      else if s == "EQUAL" then Some(Equal)
      else if s == "SLASH" then Some(Slash)
      else if s == "CLASS" then Some(Class)
      else if s == "FALSE" then Some(False)
      else if s == "PRINT" then Some(Print)
      else if s == "SUPER" then Some(Super)
      else if s == "WHILE" then Some(While)
      else None
    case 6 =>
      if s == "STRING" then Some(String)
      else if s == "NUMBER" then Some(Number)
      else if s == "RETURN" then Some(Return)
      else None
    case 7 =>
      if s == "GREATER" then Some(Greater)
      else None
    case 9 =>
      if s == "SEMICOLON" then Some(Semicolon)
      else None
    case 10 =>
      if s == "LEFT_PAREN" then Some(LeftParen)
      else if s == "LEFT_BRACE" then Some(LeftBrace)
      else if s == "BANG_EQUAL" then Some(BangEqual)
      else if s == "LESS_EQUAL" then Some(LessEqual)
      else if s == "IDENTIFIER" then Some(Identifier)
      else None
    case 11 =>
      if s == "RIGHT_PAREN" then Some(RightParen)
      else if s == "RIGHT_BRACE" then Some(RightBrace)
      else if s == "EQUAL_EQUAL" then Some(EqualEqual)
      else None
    case 13 =>
      if s == "GREATER_EQUAL" then Some(GreaterEqual)
      else None
    case _ => None
  }

  /** Each name in `tokenMap` names its own kind, so distinct kinds have
      distinct names. */
  lemma NameDistinct(a: TokenKind, b: TokenKind)
    ensures KindNamed(Name(a)) == Some(a)
    ensures Name(a) == Name(b) ==> a == b
  {
    NameNamesKind(a);
    NameNamesKind(b);
  }

  lemma NameNamesKind(k: TokenKind)
    ensures KindNamed(Name(k)) == Some(k)
  {
    if Ordinal(k) < 20 {
      NamesBelow20(k);
    } else {
      NamesFrom20(k);
    }
  }

  lemma NamesBelow20(k: TokenKind)
    requires Ordinal(k) < 20
    ensures KindNamed(Name(k)) == Some(k)
  {
    match k
    case LeftParen => case RightParen => case LeftBrace => case RightBrace => case Comma =>
    case Dot => case Minus => case Plus => case Semicolon => case Star =>
    case Bang => case BangEqual => case Equal => case EqualEqual => case Greater =>
    case GreaterEqual => case Less => case LessEqual => case Slash => case Identifier =>
    case _ =>
  }

  lemma NamesFrom20(k: TokenKind)
    requires 20 <= Ordinal(k)
    ensures KindNamed(Name(k)) == Some(k)
  {
    match k
    case String => case Number => case And => case Class => case Else =>
    case False => case Fun => case For => case If => case Nil =>
    case Or => case Print => case Return => case Super => case This =>
    case True => case Var => case While => case Eof =>
    case _ =>
  }
}
