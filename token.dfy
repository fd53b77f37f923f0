/** Token categories, tokens, and the two tables of `src/token.rs`: the display
    string of each category and the parse of an exact string back to a category. */
module Tokens {
  import opened Wrappers
  import opened Errors

  datatype TokenType =
    // single-character tokens
    | LeftParen | RightParen | LeftBrace | RightBrace
    | Comma | Dot | Minus | Plus | Semicolon | Slash | Star
    // one- or two-character tokens
    | Bang | BangEqual | Equal | EqualEqual
    | Greater | GreaterEqual | Less | LessEqual
    // literals
    | Identifier | String | Number
    // keywords
    | And | Class | Else | False | Fun | For | If | Nil | Or
    | Print | Return | Super | This | True | Var | While
    | Eof

  /** A token as `Token::new` builds it: the category, the exact lexeme and the
      source line, stored unchanged. */
  datatype Token = Token(tokenType: TokenType, lexeme: string, line: nat)

  /** The categories whose display text is a placeholder rather than source text. */
  predicate IsLiteralKind(t: TokenType) {
    t == Identifier || t == String || t == Number || t == Eof
  }

  /** The display text of a category. Note the brace categories display as
      square brackets. */
  function Display(t: TokenType): string {
    match t
    case LeftParen => "("
    case RightParen => ")"
    case LeftBrace => "["
    case RightBrace => "]"
    case Comma => ","
    case Dot => "."
    case Minus => "-"
    case Plus => "+"
    case Semicolon => ";"
    case Slash => "/"
    case Star => "*"
    case Bang => "!"
    case BangEqual => "!="
    case Equal => "="
    case EqualEqual => "=="
    case Greater => ">"
    case GreaterEqual => ">="
    case Less => "<"
    case LessEqual => "<="
    case Identifier => "IDENTIFIER"
    case String => "STRING"
    case Number => "NUMBER"
    case And => "and"
    case Class => "class"
    case Else => "else"
    case Fun => "fun"
    case For => "for"
    case False => "false"
    case If => "if"
    case Nil => "nil"
    case Or => "or"
    case Print => "print"
    case Return => "return"
    case Super => "super"
    case This => "this"
    case True => "true"
    case Var => "var"
    case While => "while"
    case Eof => "EOF"
  }

  /** A token displays as its category: never empty, and for every category
      but the four literal kinds the text the table reads back as that category. */
  function DisplayToken(tok: Token): (s: string)
    ensures s != []
    ensures !IsLiteralKind(tok.tokenType) ==> FromStr(s) == Ok(tok.tokenType)
  {
    if IsLiteralKind(tok.tokenType) then Display(tok.tokenType)
    else FromStrDisplay(tok.tokenType); Display(tok.tokenType)
  }

  /** The punctuation strings the table accepts. */
  const Punctuation: set<string> :=
    {"(", ")", "[", "]", ",", ".", "-", "+", ";", "/", "*",
     "!", "!=", "=", "==", ">", ">=", "<", "<="}

  /** The keywords the table accepts. */
  const Keywords: set<string> :=
    {"and", "class", "else", "for", "fun", "false", "if", "nil",
     "or", "print", "return", "super", "this", "true", "var", "while"}

  /** `FromStr for TokenType`: an exact whole-string match against the
      punctuation and keyword table; anything else is `UnknownTokenType`. */
  function FromStr(s: string): (r: Result<TokenType, ParseError>)
    ensures r.Ok? ==> !IsLiteralKind(r.value)
    ensures r.Err? ==> r.error == UnknownTokenType
  {
    match s
    case "(" => Ok(LeftParen)
    case ")" => Ok(RightParen)
    case "[" => Ok(LeftBrace)
    case "]" => Ok(RightBrace)
    case "," => Ok(Comma)
    case "." => Ok(Dot)
    case "-" => Ok(Minus)
    case "+" => Ok(Plus)
    case ";" => Ok(Semicolon)
    case "/" => Ok(Slash)
    case "*" => Ok(Star)
    case "!" => Ok(Bang)
    case "!=" => Ok(BangEqual)
    case "=" => Ok(Equal)
    case "==" => Ok(EqualEqual)
    case ">" => Ok(Greater)
    case ">=" => Ok(GreaterEqual)
    case "<" => Ok(Less)
    case "<=" => Ok(LessEqual)
    case "and" => Ok(And)
    case "class" => Ok(Class)
    case "else" => Ok(Else)
    case "for" => Ok(For)
    case "fun" => Ok(Fun)
    case "false" => Ok(False)
    case "if" => Ok(If)
    case "nil" => Ok(Nil)
    case "or" => Ok(Or)
    case "print" => Ok(Print)
    case "return" => Ok(Return)
    case "super" => Ok(Super)
    case "this" => Ok(This)
    case "true" => Ok(True)
    case "var" => Ok(Var)
    case "while" => Ok(While)
    case _ => Err(UnknownTokenType)
  }

  /** The table accepts exactly the punctuation and the keywords. */
  lemma FromStrAccepts(s: string)
    ensures FromStr(s).Ok? <==> s in Punctuation || s in Keywords
  {
  }

  /** Whatever string the table accepts displays back as the very same string,
      so `FromStr` is a left inverse of `Display` on the strings it accepts.
      The helpers below take the table a few entries at a time. */
  lemma DisplayFromStr(s: string)
    requires FromStr(s).Ok?
    ensures Display(FromStr(s).value) == s
  {
    FromStrAccepts(s);
    if s in {"(", ")", "["} {
      DisplayFromStr1(s);
    } else if s in {"]", ",", "."} {
      DisplayFromStr2(s);
    } else if s in {"-", "+", ";"} {
      DisplayFromStr3(s);
    } else if s in {"/", "*", "!"} {
      DisplayFromStr4(s);
    } else if s in {"=", ">", "<"} {
      DisplayFromStr5(s);
    } else if s in {"!=", "==", ">="} {
      DisplayFromStr6(s);
    } else if s in {"<=", "and", "class"} {
      DisplayFromStr7(s);
    } else if s in {"else", "for", "fun"} {
      DisplayFromStr8(s);
    } else if s in {"false", "if", "nil"} {
      DisplayFromStr9(s);
    } else if s in {"or", "print", "return"} {
      DisplayFromStr10(s);
    } else if s in {"super", "this", "true"} {
      DisplayFromStr11(s);
    } else {
      DisplayFromStr12(s);
    }
  }

  lemma DisplayFromStr1(s: string)
    requires s in {"(", ")", "["}
    ensures FromStr(s).Ok? && Display(FromStr(s).value) == s
  {
    if s == "(" {
      FromStrDisplay(LeftParen);
    } else if s == ")" {
      FromStrDisplay(RightParen);
    } else {
      FromStrDisplay(LeftBrace);
    }
  }

  lemma DisplayFromStr2(s: string)
    requires s in {"]", ",", "."}
    ensures FromStr(s).Ok? && Display(FromStr(s).value) == s
  {
    if s == "]" {
      FromStrDisplay(RightBrace);
    } else if s == "," {
      FromStrDisplay(Comma);
    } else {
      FromStrDisplay(Dot);
    }
  }

  lemma DisplayFromStr3(s: string)
    requires s in {"-", "+", ";"}
    ensures FromStr(s).Ok? && Display(FromStr(s).value) == s
  {
    if s == "-" {
      FromStrDisplay(Minus);
    } else if s == "+" {
      FromStrDisplay(Plus);
    } else {
      FromStrDisplay(Semicolon);
    }
  }

  lemma DisplayFromStr4(s: string)
    requires s in {"/", "*", "!"}
    ensures FromStr(s).Ok? && Display(FromStr(s).value) == s
  {
    if s == "/" {
      FromStrDisplay(Slash);
    } else if s == "*" {
      FromStrDisplay(Star);
    } else {
      FromStrDisplay(Bang);
    }
  }

  lemma DisplayFromStr5(s: string)
    requires s in {"=", ">", "<"}
    ensures FromStr(s).Ok? && Display(FromStr(s).value) == s
  {
    if s == "=" {
      FromStrDisplay(Equal);
    } else if s == ">" {
      FromStrDisplay(Greater);
    } else {
      FromStrDisplay(Less);
    }
  }

  lemma DisplayFromStr6(s: string)
    requires s in {"!=", "==", ">="}
    ensures FromStr(s).Ok? && Display(FromStr(s).value) == s
  {
    if s == "!=" {
      FromStrDisplay(BangEqual);
    } else if s == "==" {
      FromStrDisplay(EqualEqual);
    } else {
      FromStrDisplay(GreaterEqual);
    }
  }

  lemma DisplayFromStr7(s: string)
    requires s in {"<=", "and", "class"}
    ensures FromStr(s).Ok? && Display(FromStr(s).value) == s
  {
    if s == "<=" {
      FromStrDisplay(LessEqual);
    } else if s == "and" {
      FromStrDisplay(And);
    } else {
      FromStrDisplay(Class);
    }
  }

  lemma DisplayFromStr8(s: string)
    requires s in {"else", "for", "fun"}
    ensures FromStr(s).Ok? && Display(FromStr(s).value) == s
  {
    if s == "else" {
      FromStrDisplay(Else);
    } else if s == "for" {
      FromStrDisplay(For);
    } else {
      FromStrDisplay(Fun);
    }
  }

  lemma DisplayFromStr9(s: string)
    requires s in {"false", "if", "nil"}
    ensures FromStr(s).Ok? && Display(FromStr(s).value) == s
  {
    if s == "false" {
      FromStrDisplay(False);
    } else if s == "if" {
      FromStrDisplay(If);
    } else {
      FromStrDisplay(Nil);
    }
  }

  lemma DisplayFromStr10(s: string)
    requires s in {"or", "print", "return"}
    ensures FromStr(s).Ok? && Display(FromStr(s).value) == s
  {
    if s == "or" {
      FromStrDisplay(Or);
    } else if s == "print" {
      FromStrDisplay(Print);
    } else {
      FromStrDisplay(Return);
    }
  }

  lemma DisplayFromStr11(s: string)
    requires s in {"super", "this", "true"}
    ensures FromStr(s).Ok? && Display(FromStr(s).value) == s
  {
    if s == "super" {
      FromStrDisplay(Super);
    } else if s == "this" {
      FromStrDisplay(This);
    } else {
      FromStrDisplay(True);
    }
  }

  lemma DisplayFromStr12(s: string)
    requires s in {"var", "while"}
    ensures FromStr(s).Ok? && Display(FromStr(s).value) == s
  {
    if s == "var" {
      FromStrDisplay(Var);
    } else {
      FromStrDisplay(While);
    }
  }

  /** Parsing the display text of any category other than the four literal
      kinds gives that category back. */
  lemma FromStrDisplay(t: TokenType)
    requires !IsLiteralKind(t)
    ensures FromStr(Display(t)) == Ok(t)
  {
    match t
    case LeftParen | RightParen | LeftBrace | RightBrace | Comma | Dot | Minus | Plus | Semicolon | Slash => FromStrDisplay1(t);
    case Star | Bang | BangEqual | Equal | EqualEqual | Greater | GreaterEqual | Less | LessEqual => FromStrDisplay2(t);
    case And | Class | Else | Fun | For | False | If | Nil => FromStrDisplay3(t);
    case Or | Print | Return | Super | This | True | Var | While => FromStrDisplay4(t);
    case Identifier | String | Number | Eof =>
  }

  lemma FromStrDisplay1(t: TokenType)
    requires t == LeftParen || t == RightParen || t == LeftBrace || t == RightBrace || t == Comma || t == Dot || t == Minus || t == Plus || t == Semicolon || t == Slash
    ensures FromStr(Display(t)) == Ok(t)
  {
  }

  lemma FromStrDisplay2(t: TokenType)
    requires t == Star || t == Bang || t == BangEqual || t == Equal || t == EqualEqual || t == Greater || t == GreaterEqual || t == Less || t == LessEqual
    ensures FromStr(Display(t)) == Ok(t)
  {
  }

  lemma FromStrDisplay3(t: TokenType)
    requires t == And || t == Class || t == Else || t == Fun || t == For || t == False || t == If || t == Nil
    ensures FromStr(Display(t)) == Ok(t)
  {
  }

  lemma FromStrDisplay4(t: TokenType)
    requires t == Or || t == Print || t == Return || t == Super || t == This || t == True || t == Var || t == While
    ensures FromStr(Display(t)) == Ok(t)
  {
  }

  /** The four literal kinds display as placeholders that the table rejects. */
  lemma LiteralKindsRejected(t: TokenType)
    requires IsLiteralKind(t)
    ensures FromStr(Display(t)) == Err(UnknownTokenType)
    ensures Display(t) == (match t
                           case Identifier => "IDENTIFIER"
                           case String => "STRING"
                           case Number => "NUMBER"
                           case _ => "EOF")
  {
  }

  /** Distinct categories display differently. */
  lemma DisplayInjective(a: TokenType, b: TokenType)
    requires Display(a) == Display(b)
    ensures a == b
  {
    if !IsLiteralKind(a) && !IsLiteralKind(b) {
      FromStrDisplay(a);
      FromStrDisplay(b);
    } else if IsLiteralKind(a) && IsLiteralKind(b) {
      LiteralKindsRejected(a);
      LiteralKindsRejected(b);
    } else if IsLiteralKind(a) {
      LiteralKindsRejected(a);
      FromStrDisplay(b);
    } else {
      FromStrDisplay(a);
      LiteralKindsRejected(b);
    }
  }

  /** No string is both punctuation and a keyword: every keyword is made of
      letters, and no punctuation string contains a letter. */
  lemma TablesDisjoint()
    ensures Punctuation * Keywords == {}
  {
    forall s | s in Punctuation ensures s !in Keywords {
      assert |s| <= 2;
    }
  }

  /** Keyword recognition is a whole-string match: a keyword followed by more
      identifier characters is no keyword. */
  lemma NoPrefixKeywords()
    ensures FromStr("andy") == Err(UnknownTokenType)
    ensures FromStr("while_true") == Err(UnknownTokenType)
    ensures FromStr("and") == Ok(And) && FromStr("while") == Ok(While)
  {
  }
}
